/** The local-state mechanics the lease, property and contact stores share: the same
    fetch, create, update, delete, filter, pagination and reset actions over a list of
    records with ids, differing only in wording and in which server messages they show.
    A notification the store would raise through the app store is returned as a `Notice`. */
module ListStore {
  import opened Common

  /** The pagination object; a field is None when the server reply lacked it. */
  datatype Pagination = Pagination(page: Option<int>, limit: Option<int>, pages: Option<int>, total: Option<int>)

  const InitialPagination := Pagination(Some(1), Some(10), Some(0), Some(0))
  const MissingPagination := Pagination(None, None, None, None)

  /** `{ ...old, ...new }` over the fields the new object carries. */
  function MergePagination(base: Pagination, update: Pagination): Pagination {
    Pagination(
      if update.page.Some? then update.page else base.page,
      if update.limit.Some? then update.limit else base.limit,
      if update.pages.Some? then update.pages else base.pages,
      if update.total.Some? then update.total else base.total)
  }

  /** Success or error toast text. */
  datatype Notice = Success(text: string) | Failure(text: string)

  /** A rejected API call: the server's message and its validation messages (`err.msg`). */
  datatype Rejection = Rejection(message: Option<string>, errors: seq<string>)

  /** The fixed texts of one store, and whether its create and update failures show the
      server's own message. */
  datatype Wording = Wording(
    fetchListFailed: string, fetchOneFailed: string,
    createFailed: string, created: string,
    updateFailed: string, updated: string,
    deleteFailed: string, deleted: string,
    createShowsServer: bool, updateShowsServer: bool)

  /** The create failure text: the validation messages joined by ", " when there are any,
      else the server message when it is non-empty, else the fixed text. */
  function CreateErrorText(w: Wording, rej: Rejection): (r: string)
    ensures !w.createShowsServer ==> r == w.createFailed
    ensures w.createShowsServer && |rej.errors| > 0 ==> r == Join(rej.errors, ", ")
    ensures w.createShowsServer && |rej.errors| == 0 && rej.message.Some? && rej.message.value != [] ==> r == rej.message.value
    ensures w.createShowsServer && |rej.errors| == 0 && (rej.message.None? || rej.message.value == []) ==> r == w.createFailed
  {
    if !w.createShowsServer then w.createFailed
    else
      var t := if rej.message.Some? && rej.message.value != [] then rej.message.value else w.createFailed;
      if |rej.errors| > 0 then Join(rej.errors, ", ") else t
  }

  function UpdateErrorText(w: Wording, rej: Rejection): (r: string)
    ensures w.updateShowsServer && rej.message.Some? && rej.message.value != [] ==> r == rej.message.value
    ensures !(w.updateShowsServer && rej.message.Some? && rej.message.value != []) ==> r == w.updateFailed
  {
    if w.updateShowsServer && rej.message.Some? && rej.message.value != [] then rej.message.value else w.updateFailed
  }

  // ------------------------------------------------------- list operations

  /** `findIndex(x => x.id === id)`, with -1 as None. */
  function FirstIndex<T>(s: seq<T>, id: int, idOf: T -> int): (r: Option<nat>)
    ensures r.Some? ==> r.value < |s| && idOf(s[r.value]) == id && forall j :: 0 <= j < r.value ==> idOf(s[j]) != id
    ensures r.None? ==> forall j :: 0 <= j < |s| ==> idOf(s[j]) != id
  {
    if s == [] then None
    else if idOf(s[0]) == id then Some(0)
    else
      var r := FirstIndex(s[1..], id, idOf);
      assert forall j :: 0 < j < |s| ==> s[j] == s[1..][j - 1];
      if r.Some? then Some(r.value + 1) else None
  }

  /** The list after `list[index] = x` when an index was found. */
  function ReplaceFirst<T>(s: seq<T>, id: int, x: T, idOf: T -> int): seq<T> {
    var i := FirstIndex(s, id, idOf);
    if i.Some? then s[i.value := x] else s
  }

  /** Only the first record with that id is replaced; the length and every other record
      stay, and a list without that id is unchanged. */
  lemma ReplaceFirstFacts<T>(s: seq<T>, id: int, x: T, idOf: T -> int)
    ensures |ReplaceFirst(s, id, x, idOf)| == |s|
    ensures (forall j :: 0 <= j < |s| ==> idOf(s[j]) != id) ==> ReplaceFirst(s, id, x, idOf) == s
    ensures forall i :: 0 <= i < |s| && idOf(s[i]) == id && (forall j :: 0 <= j < i ==> idOf(s[j]) != id) ==>
      && ReplaceFirst(s, id, x, idOf)[i] == x
      && forall j :: 0 <= j < |s| && j != i ==> ReplaceFirst(s, id, x, idOf)[j] == s[j]
  {
    var f := FirstIndex(s, id, idOf);
    forall i | 0 <= i < |s| && idOf(s[i]) == id && (forall j :: 0 <= j < i ==> idOf(s[j]) != id)
      ensures f == Some(i)
    {
    }
  }

  predicate HasId<T>(idOf: T -> int, id: int, x: T) { idOf(x) == id }
  predicate OtherId<T>(idOf: T -> int, id: int, x: T) { idOf(x) != id }

  /** `list.filter(x => x.id !== id)`. */
  function RemoveId<T>(s: seq<T>, id: int, idOf: T -> int): seq<T> {
    Filter(s, (x: T) => OtherId(idOf, id, x))
  }

  /** Every record with that id goes and every other one stays; so many records leave
      as carried the id. */
  lemma RemoveIdFacts<T>(s: seq<T>, id: int, idOf: T -> int, x: T)
    ensures x in RemoveId(s, id, idOf) <==> x in s && idOf(x) != id
    ensures |RemoveId(s, id, idOf)| == |s| - Count(s, (y: T) => HasId(idOf, id, y))
  {
    if x in s && idOf(x) != id {
      FilterComplete(s, (y: T) => OtherId(idOf, id, y), x);
    }
    FilterCount(s, (y: T) => OtherId(idOf, id, y));
    CountComplement(s, (y: T) => HasId(idOf, id, y), (y: T) => OtherId(idOf, id, y));
  }

  // ----------------------------------------------------------------- store

  class EntityStore<T> {
    const idOf: T -> int
    const wording: Wording
    const defaultFilters: map<string, string>
    var items: seq<T>
    var current: Option<T>
    var loading: bool
    var pagination: Pagination
    var filters: map<string, string>

    /** The store's initial state. */
    constructor (idOf: T -> int, wording: Wording, defaultFilters: map<string, string>)
      ensures this.idOf == idOf && this.wording == wording && this.defaultFilters == defaultFilters
      ensures items == [] && current.None? && !loading
      ensures pagination == InitialPagination && filters == defaultFilters
    {
      this.idOf := idOf;
      this.wording := wording;
      this.defaultFilters := defaultFilters;
      items := [];
      current := None;
      loading := false;
      pagination := InitialPagination;
      filters := defaultFilters;
    }

    /** Fetch a page: the list becomes the reply's data (empty when absent). */
    method FetchList(reply: Result<(Option<seq<T>>, Option<Pagination>), Rejection>) returns (notice: Option<Notice>)
      modifies this
      ensures reply.Ok? ==> && items == (if reply.value.0.Some? then reply.value.0.value else [])
                            && pagination == (if reply.value.1.Some? then reply.value.1.value else MissingPagination)
                            && notice.None?
      ensures reply.Err? ==> items == old(items) && pagination == old(pagination) && notice == Some(Failure(wording.fetchListFailed))
      ensures current == old(current) && filters == old(filters) && !loading
    {
      loading := true;
      if reply.Ok? {
        items := if reply.value.0.Some? then reply.value.0.value else [];
        pagination := if reply.value.1.Some? then reply.value.1.value else MissingPagination;
        notice := None;
      } else {
        notice := Some(Failure(wording.fetchListFailed));
      }
      loading := false;
    }

    /** Fetch one record into `current`. */
    method FetchOne(reply: Result<Option<T>, Rejection>) returns (notice: Option<Notice>)
      modifies this
      ensures reply.Ok? ==> current == reply.value && notice.None?
      ensures reply.Err? ==> current == old(current) && notice == Some(Failure(wording.fetchOneFailed))
      ensures items == old(items) && pagination == old(pagination) && filters == old(filters) && !loading
    {
      loading := true;
      if reply.Ok? {
        current := reply.value;
        notice := None;
      } else {
        notice := Some(Failure(wording.fetchOneFailed));
      }
      loading := false;
    }

    /** Create: the new record is put first, but only while the first page is shown. */
    method Create(reply: Result<T, Rejection>) returns (notice: Notice)
      modifies this
      ensures reply.Ok? && pagination.page == Some(1) ==> items == [reply.value] + old(items)
      ensures reply.Ok? && pagination.page != Some(1) ==> items == old(items)
      ensures reply.Ok? ==> notice == Success(wording.created)
      ensures reply.Err? ==> items == old(items) && notice == Failure(CreateErrorText(wording, reply.error))
      ensures current == old(current) && pagination == old(pagination) && filters == old(filters) && !loading
    {
      loading := true;
      if reply.Ok? {
        if pagination.page == Some(1) {
          items := [reply.value] + items;
        }
        notice := Success(wording.created);
      } else {
        notice := Failure(CreateErrorText(wording, reply.error));
      }
      loading := false;
    }

    /** Update: the first record with the id is replaced, and `current` too when it has
        that id; a failed call changes nothing. */
    method Update(id: int, reply: Result<T, Rejection>) returns (notice: Notice)
      modifies this
      ensures reply.Ok? ==> && items == ReplaceFirst(old(items), id, reply.value, idOf)
                            && current == (if old(current).Some? && idOf(old(current).value) == id then Some(reply.value) else old(current))
                            && notice == Success(wording.updated)
      ensures reply.Err? ==> items == old(items) && current == old(current) && notice == Failure(UpdateErrorText(wording, reply.error))
      ensures pagination == old(pagination) && filters == old(filters) && !loading
    {
      loading := true;
      if reply.Ok? {
        var index := FirstIndex(items, id, idOf);
        if index.Some? {
          items := items[index.value := reply.value];
        }
        if current.Some? && idOf(current.value) == id {
          current := Some(reply.value);
        }
        notice := Success(wording.updated);
      } else {
        notice := Failure(UpdateErrorText(wording, reply.error));
      }
      loading := false;
    }

    /** Delete: every record with the id leaves the list, and `current` is cleared when it
        has that id. */
    method Delete(id: int, reply: Result<bool, Rejection>) returns (notice: Notice)
      modifies this
      ensures reply.Ok? ==> && items == RemoveId(old(items), id, idOf)
                            && current == (if old(current).Some? && idOf(old(current).value) == id then None else old(current))
                            && notice == Success(wording.deleted)
      ensures reply.Err? ==> items == old(items) && current == old(current) && notice == Failure(wording.deleteFailed)
      ensures pagination == old(pagination) && filters == old(filters) && !loading
    {
      loading := true;
      if reply.Ok? {
        items := RemoveId(items, id, idOf);
        if current.Some? && idOf(current.value) == id {
          current := None;
        }
        notice := Success(wording.deleted);
      } else {
        notice := Failure(wording.deleteFailed);
      }
      loading := false;
    }

    /** New filter values override the old ones, and the first page is shown again. */
    method SetFilters(newFilters: map<string, string>)
      modifies this
      ensures filters == old(filters) + newFilters
      ensures pagination == old(pagination).(page := Some(1))
      ensures items == old(items) && current == old(current) && loading == old(loading)
    {
      filters := filters + newFilters;
      pagination := pagination.(page := Some(1));
    }

    method SetPagination(update: Pagination)
      modifies this
      ensures pagination == MergePagination(old(pagination), update)
      ensures items == old(items) && current == old(current) && filters == old(filters) && loading == old(loading)
    {
      pagination := MergePagination(pagination, update);
    }

    method ClearCurrent()
      modifies this
      ensures current.None?
      ensures items == old(items) && pagination == old(pagination) && filters == old(filters) && loading == old(loading)
    {
      current := None;
    }

    /** Back to the initial state. */
    method Reset()
      modifies this
      ensures items == [] && current.None? && !loading
      ensures pagination == InitialPagination && filters == defaultFilters
    {
      items := [];
      current := None;
      loading := false;
      pagination := InitialPagination;
      filters := defaultFilters;
    }
  }
}
