/** The frontend app store: the toast queue with its id counter, and the global
    loading flag. The auto-removal timer is recorded as a scheduled (id, duration)
    pair; when it fires it is a `RemoveToast` call. */
module AppStore {
  import opened Common
  import ListStore

  datatype Toast = Toast(id: int, message: string, kind: string, title: string)

  const DefaultDuration := 5000
  const ErrorDuration := 8000

  /** getDefaultTitle: 'info' and every unknown type read "Information". */
  function DefaultTitle(kind: string): (r: string)
    ensures kind == "success" ==> r == "Success"
    ensures kind == "error" ==> r == "Error"
    ensures kind == "warning" ==> r == "Warning"
    ensures kind != "success" && kind != "error" && kind != "warning" ==> r == "Information"
  {
    if kind == "success" then "Success"
    else if kind == "error" then "Error"
    else if kind == "warning" then "Warning"
    else "Information"
  }

  function ToastId(t: Toast): int { t.id }

  /** The queue after `splice(findIndex(t => t.id === id), 1)` when an index was found. */
  function WithoutToast(ts: seq<Toast>, id: int): seq<Toast> {
    var i := ListStore.FirstIndex(ts, id, ToastId);
    if i.Some? then ts[..i.value] + ts[i.value + 1..] else ts
  }

  ghost predicate Increasing(ts: seq<Toast>) {
    forall i, j :: 0 <= i < j < |ts| ==> ts[i].id < ts[j].id
  }

  lemma RemoveAt(ts: seq<Toast>, k: nat)
    requires k < |ts|
    ensures var r := ts[..k] + ts[k + 1..];
      |r| == |ts| - 1 && forall j :: 0 <= j < |r| ==> r[j] == (if j < k then ts[j] else ts[j + 1])
  {
  }

  /** Removing a toast keeps the ids increasing. */
  lemma WithoutToastIncreasing(ts: seq<Toast>, id: int)
    requires Increasing(ts)
    ensures Increasing(WithoutToast(ts, id))
  {
    var f := ListStore.FirstIndex(ts, id, ToastId);
    if f.Some? {
      RemoveAt(ts, f.value);
    }
  }

  /** In a queue with increasing ids, removing a toast drops exactly the toasts with that
      id (at most one) and a missing id is a no-op. */
  lemma WithoutToastFacts(ts: seq<Toast>, id: int)
    requires Increasing(ts)
    ensures forall t :: t in WithoutToast(ts, id) <==> t in ts && t.id != id
    ensures (exists i :: 0 <= i < |ts| && ts[i].id == id) ==> |WithoutToast(ts, id)| == |ts| - 1
    ensures (forall i :: 0 <= i < |ts| ==> ts[i].id != id) ==> WithoutToast(ts, id) == ts
  {
    var f := ListStore.FirstIndex(ts, id, ToastId);
    if f.Some? {
      var k := f.value;
      var r := WithoutToast(ts, id);
      RemoveAt(ts, k);
      forall t | t in r ensures t in ts && t.id != id {
        var j :| 0 <= j < |r| && r[j] == t;
        if j < k {
          assert ts[j].id < ts[k].id;
        } else {
          assert ts[k].id < ts[j + 1].id;
        }
      }
      forall t | t in ts && t.id != id ensures t in r {
        var j :| 0 <= j < |ts| && ts[j] == t;
        if j < k {
          assert r[j] == t;
        } else {
          assert r[j - 1] == t;
        }
      }
    }
  }

  class App {
    var loading: bool
    var toasts: seq<Toast>
    var toastId: int
    /** Auto-removals scheduled so far, as (toast id, duration in ms). */
    var timers: seq<(int, int)>

    /** Toast ids are distinct and increasing along the queue, and none exceeds the counter. */
    ghost predicate Valid()
      reads this
    {
      && toastId >= 0
      && Increasing(toasts)
      && forall i :: 0 <= i < |toasts| ==> 1 <= toasts[i].id <= toastId
    }

    constructor ()
      ensures Valid()
      ensures !loading && toasts == [] && toastId == 0 && timers == []
    {
      loading := false;
      toasts := [];
      toastId := 0;
      timers := [];
    }

    method SetLoading(value: bool)
      modifies this
      ensures loading == value
      ensures toasts == old(toasts) && toastId == old(toastId) && timers == old(timers)
    {
      loading := value;
    }

    /** showToast: the new toast gets the next id and goes to the end of the queue; an
        empty title falls back to the type's default; a positive duration schedules its
        removal. */
    method ShowToast(message: string, kind: string, title: string, duration: int) returns (id: int)
      requires Valid()
      modifies this
      ensures Valid()
      ensures id == old(toastId) + 1 && toastId == id && id >= 1
      ensures toasts == old(toasts) + [Toast(id, message, kind, if title == "" then DefaultTitle(kind) else title)]
      ensures timers == old(timers) + (if duration > 0 then [(id, duration)] else [])
      ensures loading == old(loading)
    {
      toastId := toastId + 1;
      id := toastId;
      var toast := Toast(id, message, kind, if title == "" then DefaultTitle(kind) else title);
      toasts := toasts + [toast];
      if duration > 0 {
        timers := timers + [(id, duration)];
      }
    }

    /** The convenience calls; a title the caller leaves out is the type's name. */
    method ShowSuccess(message: string, title: Option<string>) returns (id: int)
      requires Valid()
      modifies this
      ensures Valid() && id == old(toastId) + 1
      ensures toasts == old(toasts) + [Toast(id, message, "success", if title.Some? && title.value != "" then title.value else "Success")]
      ensures timers == old(timers) + [(id, DefaultDuration)]
      ensures toastId == id && loading == old(loading)
    {
      id := ShowToast(message, "success", if title.Some? then title.value else "Success", DefaultDuration);
    }

    method ShowError(message: string, title: Option<string>) returns (id: int)
      requires Valid()
      modifies this
      ensures Valid() && id == old(toastId) + 1
      ensures toasts == old(toasts) + [Toast(id, message, "error", if title.Some? && title.value != "" then title.value else "Error")]
      ensures timers == old(timers) + [(id, ErrorDuration)]
      ensures toastId == id && loading == old(loading)
    {
      id := ShowToast(message, "error", if title.Some? then title.value else "Error", ErrorDuration);
    }

    method ShowWarning(message: string, title: Option<string>) returns (id: int)
      requires Valid()
      modifies this
      ensures Valid() && id == old(toastId) + 1
      ensures toasts == old(toasts) + [Toast(id, message, "warning", if title.Some? && title.value != "" then title.value else "Warning")]
      ensures timers == old(timers) + [(id, DefaultDuration)]
      ensures toastId == id && loading == old(loading)
    {
      id := ShowToast(message, "warning", if title.Some? then title.value else "Warning", DefaultDuration);
    }

    method ShowInfo(message: string, title: Option<string>) returns (id: int)
      requires Valid()
      modifies this
      ensures Valid() && id == old(toastId) + 1
      ensures toasts == old(toasts) + [Toast(id, message, "info", if title.Some? && title.value != "" then title.value else "Information")]
      ensures timers == old(timers) + [(id, DefaultDuration)]
      ensures toastId == id && loading == old(loading)
    {
      id := ShowToast(message, "info", if title.Some? then title.value else "Information", DefaultDuration);
    }

    /** removeToast: the first toast with that id leaves the queue. */
    method RemoveToast(id: int)
      requires Valid()
      modifies this
      ensures Valid()
      ensures toasts == WithoutToast(old(toasts), id)
      ensures toastId == old(toastId) && timers == old(timers) && loading == old(loading)
    {
      WithoutToastIncreasing(toasts, id);
      var index := ListStore.FirstIndex(toasts, id, ToastId);
      if index.Some? {
        toasts := toasts[..index.value] + toasts[index.value + 1..];
      }
    }

    method ClearToasts()
      requires Valid()
      modifies this
      ensures Valid()
      ensures toasts == [] && toastId == old(toastId) && timers == old(timers) && loading == old(loading)
    {
      toasts := [];
    }
  }
}
