/** The lease_reminders table: one row per reminder sent, at most one per
    (lease, horizon), horizon restricted to 90, 60 or 30, rows removed with
    their lease (the table's UNIQUE, CHECK and ON DELETE CASCADE clauses). */
module Ledger {
  import opened Common

  /** The horizons, in the order the sweep visits them. */
  const Horizons: seq<nat> := [90, 60, 30]

  predicate IsHorizon(d: int) {
    d == 90 || d == 60 || d == 30
  }

  datatype Key = Key(leaseId: nat, days: int)

  datatype Row = Row(leaseId: nat, days: int, sentAt: int)

  function KeyOf(r: Row): Key {
    Key(r.leaseId, r.days)
  }

  function RowLease(r: Row): nat {
    r.leaseId
  }

  /** Ordering key that puts the most recent sent_at first. */
  function NewestFirst(r: Row): int {
    -r.sentAt
  }

  /** Is there a row for this (lease, horizon)? */
  predicate Holds(rows: seq<Row>, k: Key) {
    exists r :: r in rows && KeyOf(r) == k
  }

  /** The table constraints: the horizon CHECK and UNIQUE(lease_id, reminder_days). */
  ghost predicate Constrained(rows: seq<Row>) {
    && (forall i :: 0 <= i < |rows| ==> IsHorizon(rows[i].days))
    && (forall i, j :: 0 <= i < j < |rows| ==> KeyOf(rows[i]) != KeyOf(rows[j]))
  }

  /** The typed result of an insert: the row went in, the unique constraint refused it
      (code 23505), or the store failed or refused it otherwise. */
  datatype InsertResult = Inserted | Duplicate | Fault

  datatype LookupResult = Found | NotFound | LookupFault

  /** A single-row lookup by (lease, horizon); `down` holds the keys whose query faults. */
  function LookupSpec(rows: seq<Row>, down: set<Key>, k: Key): (r: LookupResult)
    ensures r == Found ==> Holds(rows, k)
    ensures r == NotFound ==> !Holds(rows, k)
  {
    if k in down then LookupFault else if Holds(rows, k) then Found else NotFound
  }

  /** An insert against the constrained table; `down` holds the keys whose insert faults
      for reasons other than the constraints. */
  function InsertSpec(rows: seq<Row>, down: set<Key>, row: Row): (r: (InsertResult, seq<Row>))
    ensures r.0 == Inserted ==> r.1 == rows + [row]
    ensures r.0 != Inserted ==> r.1 == rows
    ensures r.0 == Inserted <==> KeyOf(row) !in down && IsHorizon(row.days) && !Holds(rows, KeyOf(row))
    ensures r.0 == Duplicate ==> Holds(rows, KeyOf(row))
    ensures Holds(r.1, KeyOf(row)) <==> Holds(rows, KeyOf(row)) || r.0 == Inserted
  {
    if KeyOf(row) in down then (Fault, rows)
    else if !IsHorizon(row.days) then (Fault, rows)
    else if Holds(rows, KeyOf(row)) then (Duplicate, rows)
    else (Inserted, rows + [row])
  }

  /** No insert can break the table constraints. */
  lemma InsertKeepsConstraints(rows: seq<Row>, down: set<Key>, row: Row)
    requires Constrained(rows)
    ensures Constrained(InsertSpec(rows, down, row).1)
  {
    var r := InsertSpec(rows, down, row);
    if r.0 == Inserted {
      var rows' := rows + [row];
      forall i, j | 0 <= i < j < |rows'| ensures KeyOf(rows'[i]) != KeyOf(rows'[j]) {
        if j == |rows| {
          assert rows'[i] in rows;
        }
      }
    }
  }

  /** Once a (lease, horizon) row exists, a second insert is refused and changes nothing. */
  lemma SecondInsertRefused(rows: seq<Row>, down: set<Key>, row: Row, row2: Row)
    requires InsertSpec(rows, down, row).0 == Inserted
    requires KeyOf(row2) == KeyOf(row)
    ensures InsertSpec(InsertSpec(rows, down, row).1, down, row2) == (Duplicate, rows + [row])
  {
    assert row in rows + [row];
  }

  /** Deleting a lease deletes its ledger rows (ON DELETE CASCADE). */
  function CascadeDelete(rows: seq<Row>, leaseId: nat): (r: seq<Row>)
    ensures forall x :: x in r <==> x in rows && x.leaseId != leaseId
  {
    if rows == [] then []
    else CascadeDelete(rows[..|rows| - 1], leaseId)
         + (if rows[|rows| - 1].leaseId != leaseId then [rows[|rows| - 1]] else [])
  }

  lemma {:induction false} CascadeKeepsConstraints(rows: seq<Row>, leaseId: nat)
    requires Constrained(rows)
    ensures Constrained(CascadeDelete(rows, leaseId))
    ensures forall d :: !Holds(CascadeDelete(rows, leaseId), Key(leaseId, d))
  {
    if rows != [] {
      var init := rows[..|rows| - 1];
      CascadeKeepsConstraints(init, leaseId);
      var r := CascadeDelete(rows, leaseId);
      var ri := CascadeDelete(init, leaseId);
      if rows[|rows| - 1].leaseId != leaseId {
        assert r == ri + [rows[|rows| - 1]];
        forall i, j | 0 <= i < j < |r| ensures KeyOf(r[i]) != KeyOf(r[j]) {
          if j == |ri| {
            assert r[i] in init;
            var k :| 0 <= k < |init| && init[k] == r[i];
            assert KeyOf(rows[k]) != KeyOf(rows[|rows| - 1]);
          }
        }
      }
    }
  }

  /** getReminderHistory: the lease's rows, most recent sent_at first. */
  function HistorySpec(rows: seq<Row>, leaseId: nat): seq<Row> {
    SortByKey(WithKey(rows, RowLease, leaseId), NewestFirst)
  }

  lemma {:induction false} WithKeyMembers(rows: seq<Row>, leaseId: nat)
    ensures forall x :: x in WithKey(rows, RowLease, leaseId) <==> x in rows && x.leaseId == leaseId
  {
    if rows != [] {
      WithKeyMembers(rows[..|rows| - 1], leaseId);
      assert forall x :: x in rows <==> x in rows[..|rows| - 1] || x == rows[|rows| - 1];
    }
  }

  /** The history holds exactly the lease's rows (with multiplicity), newest first. */
  lemma HistoryCorrect(rows: seq<Row>, leaseId: nat)
    ensures multiset(HistorySpec(rows, leaseId)) == multiset(WithKey(rows, RowLease, leaseId))
    ensures forall x :: x in HistorySpec(rows, leaseId) <==> x in rows && x.leaseId == leaseId
    ensures forall i, j :: 0 <= i < j < |HistorySpec(rows, leaseId)| ==>
              HistorySpec(rows, leaseId)[i].sentAt >= HistorySpec(rows, leaseId)[j].sentAt
  {
    var h := HistorySpec(rows, leaseId);
    SortByKeySorted(WithKey(rows, RowLease, leaseId), NewestFirst);
    WithKeyMembers(rows, leaseId);
    forall x ensures x in h <==> x in WithKey(rows, RowLease, leaseId) {
      assert x in h <==> x in multiset(h);
    }
    forall i, j | 0 <= i < j < |h| ensures h[i].sentAt >= h[j].sentAt {
      assert NewestFirst(h[i]) <= NewestFirst(h[j]);
    }
  }

  /** The lease_reminders table with the store's fault behaviour fixed at construction. */
  class ReminderLedger {
    var rows: seq<Row>
    const lookupDown: set<Key>
    const insertDown: set<Key>
    const historyDown: set<nat>

    ghost predicate Valid()
      reads this
    {
      Constrained(rows)
    }

    constructor (initial: seq<Row>, lookupDown: set<Key>, insertDown: set<Key>, historyDown: set<nat>)
      requires Constrained(initial)
      ensures Valid()
      ensures rows == initial
      ensures this.lookupDown == lookupDown && this.insertDown == insertDown
      ensures this.historyDown == historyDown
    {
      rows := initial;
      this.lookupDown := lookupDown;
      this.insertDown := insertDown;
      this.historyDown := historyDown;
    }

    /** `select('id').eq('lease_id', …).eq('reminder_days', …).single()` */
    method Lookup(k: Key) returns (r: LookupResult)
      ensures r == LookupSpec(rows, lookupDown, k)
    {
      if k in lookupDown {
        r := LookupFault;
      } else if Holds(rows, k) {
        r := Found;
      } else {
        r := NotFound;
      }
    }

    /** `insert({lease_id, reminder_days, sent_at})` */
    method Insert(leaseId: nat, days: int, sentAt: int) returns (r: InsertResult)
      requires Valid()
      modifies this
      ensures Valid()
      ensures (r, rows) == InsertSpec(old(rows), insertDown, Row(leaseId, days, sentAt))
    {
      var row := Row(leaseId, days, sentAt);
      InsertKeepsConstraints(rows, insertDown, row);
      if KeyOf(row) in insertDown || !IsHorizon(days) {
        r := Fault;
      } else if Holds(rows, KeyOf(row)) {
        r := Duplicate;
      } else {
        r := Inserted;
        rows := rows + [row];
      }
    }

    /** The cascade run when lease `leaseId` is deleted. */
    method DeleteLease(leaseId: nat)
      requires Valid()
      modifies this
      ensures Valid()
      ensures rows == CascadeDelete(old(rows), leaseId)
    {
      CascadeKeepsConstraints(rows, leaseId);
      rows := CascadeDelete(rows, leaseId);
    }

    /** `select('*').eq('lease_id', …).order('sent_at', {ascending: false})`; None is a fault. */
    method History(leaseId: nat) returns (r: Option<seq<Row>>)
      ensures leaseId in historyDown ==> r == None
      ensures leaseId !in historyDown ==> r == Some(HistorySpec(rows, leaseId))
    {
      if leaseId in historyDown {
        r := None;
      } else {
        r := Some(HistorySpec(rows, leaseId));
      }
    }
  }
}
