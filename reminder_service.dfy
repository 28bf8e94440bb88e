/** The expiration sweep of src/services/leaseReminderService.js: for each horizon
    (90, 60, 30 days) find the active or pending leases ending exactly that many days
    from today, and for each one not yet reminded send the two mails and record the
    reminder in the ledger. The sweep is a loop method on a service object whose
    ledger and transport it changes; it is proved against the functions `Sweep`,
    `RunPairs` and `ProcessPair`, about which the sweep's properties are lemmas. */
module ReminderService {
  import opened Common
  import opened Records
  import opened Ledger
  import opened EmailService

  /** The leases table as the queries see it, with the queries that fault. */
  datatype LeaseTable = LeaseTable(
    rows: seq<LeaseRecord>,
    scanDown: set<int>,     // target dates whose exact-date query fails
    rangeDown: bool,        // the range query fails
    fetchDown: bool)        // the by-id query fails

  datatype Failure =
    | MissingParty            // no landlord or no realtor joined
    | MissingEmail            // the landlord or the realtor has no email
    | Mailer(e: SendError)    // the mail sender threw
    | Recording(r: InsertResult)  // the ledger insert did not succeed

  datatype ServiceError =
    | ScanFault(date: int)
    | RangeFault
    | LeaseQueryFault
    | LeaseNotFound(id: nat)
    | HistoryFault
    | PairFailed(f: Failure)

  datatype Status = Sent | AlreadySent | Failed(why: Failure)

  /** One entry of remindersProcessed. */
  datatype Outcome = Outcome(leaseId: nat, days: nat, property: string, landlord: string, status: Status)

  /** The fault behaviour of the ledger and the transport. */
  datatype Env = Env(lookupDown: set<Key>, insertDown: set<Key>, undeliverable: set<Mail>)

  /** What the sweep changes: the ledger rows and the mails delivered. */
  datatype World = World(rows: seq<Row>, delivered: seq<Mail>)

  // ---------------------------------------------------------------- scans

  function EndsOnDate(d: int): LeaseRecord -> bool {
    (l: LeaseRecord) => l.endDate == d && Eligible(l)
  }

  function EndsBetween(start: int, end: int): LeaseRecord -> bool {
    (l: LeaseRecord) => start <= l.endDate <= end && Eligible(l)
  }

  function EndDateOf(l: LeaseRecord): int {
    l.endDate
  }

  function WithId(id: nat): LeaseRecord -> bool {
    (l: LeaseRecord) => l.id == id
  }

  /** getLeasesExpiringOn: `eq('end_date', d)` and `in('status', [active, pending])`. */
  function LeasesExpiringOn(t: LeaseTable, d: int): Result<seq<LeaseRecord>, ServiceError> {
    if d in t.scanDown then Err(ScanFault(d)) else Ok(Filter(t.rows, EndsOnDate(d)))
  }

  /** getLeasesExpiringInRange: `gte`, `lte`, the status filter, `order('end_date')`. */
  function LeasesExpiringInRange(t: LeaseTable, start: int, end: int): Result<seq<LeaseRecord>, ServiceError> {
    if t.rangeDown then Err(RangeFault) else Ok(SortByKey(Filter(t.rows, EndsBetween(start, end)), EndDateOf))
  }

  lemma ScanMembers(s: seq<LeaseRecord>, p: LeaseRecord -> bool)
    ensures forall l :: l in Filter(s, p) <==> l in s && p(l)
  {
    forall l | l in s && p(l) ensures l in Filter(s, p) {
      FilterComplete(s, p, l);
    }
  }

  /** The exact-date scan returns precisely the eligible leases ending that day, in table order. */
  lemma ExpiringOnCorrect(t: LeaseTable, d: int)
    ensures LeasesExpiringOn(t, d).Err? <==> d in t.scanDown
    ensures LeasesExpiringOn(t, d).Ok? ==>
      forall l :: l in LeasesExpiringOn(t, d).value <==> l in t.rows && l.endDate == d && Eligible(l)
  {
    ScanMembers(t.rows, EndsOnDate(d));
  }

  /** `leases` holds exactly the realtor's eligible leases of `rows` ending between start
      and end, ordered by end date. */
  ghost predicate ListsWindow(leases: seq<LeaseRecord>, rows: seq<LeaseRecord>, start: int, end: int, realtorId: nat) {
    && (forall l :: l in leases <==>
          l in rows && start <= l.endDate <= end && Eligible(l) && l.realtor.Some? && l.realtor.value.id == realtorId)
    && SortedBy(leases, EndDateOf)
  }

  /** The range scan returns precisely the eligible leases ending in [start, end],
      each as often as in the table, ordered by end date. */
  lemma ExpiringInRangeCorrect(t: LeaseTable, start: int, end: int)
    ensures LeasesExpiringInRange(t, start, end).Err? <==> t.rangeDown
    ensures LeasesExpiringInRange(t, start, end).Ok? ==>
      var r := LeasesExpiringInRange(t, start, end).value;
      && multiset(r) == multiset(Filter(t.rows, EndsBetween(start, end)))
      && (forall l :: l in r <==> l in t.rows && start <= l.endDate <= end && Eligible(l))
      && (forall i, j :: 0 <= i < j < |r| ==> r[i].endDate <= r[j].endDate)
  {
    if !t.rangeDown {
      var f := Filter(t.rows, EndsBetween(start, end));
      var r := SortByKey(f, EndDateOf);
      ScanMembers(t.rows, EndsBetween(start, end));
      SortByKeySorted(f, EndDateOf);
      forall l ensures l in r <==> l in f {
        assert l in r <==> l in multiset(r);
      }
      forall i, j | 0 <= i < j < |r| ensures r[i].endDate <= r[j].endDate {
        assert EndDateOf(r[i]) <= EndDateOf(r[j]);
      }
    }
  }

  /** The manual trigger's `eq('id', …).single()`: exactly one row, or an error. */
  function FetchLease(t: LeaseTable, id: nat): (r: Result<LeaseRecord, ServiceError>)
    ensures r.Ok? ==> r.value in t.rows && r.value.id == id
  {
    if t.fetchDown then Err(LeaseQueryFault)
    else
      var m := Filter(t.rows, WithId(id));
      if |m| == 1 then assert m[0] in m; Ok(m[0]) else Err(LeaseNotFound(id))
  }

  ghost predicate DistinctIds(rows: seq<LeaseRecord>) {
    forall i, j :: 0 <= i < j < |rows| ==> rows[i].id != rows[j].id
  }

  lemma {:induction false} FilterById(rows: seq<LeaseRecord>, l: LeaseRecord)
    requires DistinctIds(rows) && l in rows
    ensures Filter(rows, WithId(l.id)) == [l]
  {
    var init := rows[..|rows| - 1];
    var last := rows[|rows| - 1];
    assert rows == init + [last];
    if last == l {
      forall i | 0 <= i < |init| ensures !WithId(l.id)(init[i]) {
        assert rows[i].id != rows[|rows| - 1].id;
      }
      FilterNone(init, WithId(l.id));
      FilterAppend(init, [last], WithId(l.id));
    } else {
      assert l in init;
      FilterById(init, l);
      FilterAppend(init, [last], WithId(l.id));
      assert last.id != l.id by {
        var k :| 0 <= k < |init| && init[k] == l;
        assert rows[k].id != rows[|rows| - 1].id;
      }
    }
  }

  /** With unique ids the fetch finds the lease whenever it exists, whatever its status,
      and reports it missing otherwise. */
  lemma FetchLeaseCorrect(t: LeaseTable, id: nat)
    requires DistinctIds(t.rows) && !t.fetchDown
    ensures forall l :: l in t.rows && l.id == id ==> FetchLease(t, id) == Ok(l)
    ensures (forall l :: l in t.rows ==> l.id != id) ==> FetchLease(t, id) == Err(LeaseNotFound(id))
  {
    forall l | l in t.rows && l.id == id ensures FetchLease(t, id) == Ok(l) {
      FilterById(t.rows, l);
    }
    if forall l :: l in t.rows ==> l.id != id {
      var m := Filter(t.rows, WithId(id));
      if |m| > 0 {
        assert m[0] in m;
      }
    }
  }

  // ---------------------------------------------------------- one pair

  function PropertyLabel(l: LeaseRecord): string {
    if l.property.Some? && l.property.value.title != "" then l.property.value.title else "Unknown"
  }

  /** `${lease.landlord?.first_name} ${lease.landlord?.last_name}` */
  function LandlordLabel(l: LeaseRecord): string {
    if l.landlord.Some? then l.landlord.value.firstName + " " + l.landlord.value.lastName
    else "undefined undefined"
  }

  /** checkReminderSent: any lookup error reads as "not sent". */
  function ReminderSentSpec(rows: seq<Row>, env: Env, leaseId: nat, days: nat): bool {
    LookupSpec(rows, env.lookupDown, Key(leaseId, days)) == Found
  }

  /** The lease carries everything the sender needs. */
  predicate Remindable(l: LeaseRecord) {
    && l.landlord.Some? && l.realtor.Some? && l.tenant.Some?
    && l.landlord.value.email != "" && l.realtor.value.email != ""
  }

  /** The two reminder mails for a lease with both parties. */
  function LeaseMails(l: LeaseRecord, days: nat): seq<Mail>
    requires l.landlord.Some? && l.realtor.Some?
  {
    ReminderMails(l.landlord.value, l.realtor.value, Days(days))
  }

  /** sendReminderForLease: the two presence checks, then the mail sender. */
  function SendForLease(delivered: seq<Mail>, undeliverable: set<Mail>, l: LeaseRecord, days: nat): (Result<bool, Failure>, seq<Mail>) {
    if l.landlord.None? || l.realtor.None? then (Err(MissingParty), delivered)
    else if l.landlord.value.email == "" || l.realtor.value.email == "" then (Err(MissingEmail), delivered)
    else
      var (r, d) := ReminderDelivery(delivered, undeliverable, l.landlord.value, l.realtor.value, l, Days(days));
      (if r.Ok? then Ok(true) else Err(Mailer(r.error)), d)
  }

  /** The body of the per-lease try block. */
  function ProcessPair(w: World, env: Env, l: LeaseRecord, days: nat, now: int): (World, Outcome) {
    var o := Outcome(l.id, days, PropertyLabel(l), LandlordLabel(l), AlreadySent);
    if ReminderSentSpec(w.rows, env, l.id, days) then (w, o)
    else
      var (s, d) := SendForLease(w.delivered, env.undeliverable, l, days);
      if s.Err? then (World(w.rows, d), o.(status := Failed(s.error)))
      else
        var (ir, rows') := InsertSpec(w.rows, env.insertDown, Row(l.id, days, now));
        (World(rows', d), o.(status := if ir == Inserted then Sent else Failed(Recording(ir))))
  }

  /** A pair is reported sent exactly when no reminder was found for it, the lease has its
      parties, both mails went out and the ledger row went in; then the ledger gained
      exactly that row and the transport exactly those two mails. Already-sent changes
      nothing, and a failure never adds a ledger row. */
  lemma ProcessPairCases(w: World, env: Env, l: LeaseRecord, days: nat, now: int)
    ensures var (w', o) := ProcessPair(w, env, l, days, now);
      && o.leaseId == l.id && o.days == days
      && (o.status == AlreadySent <==> ReminderSentSpec(w.rows, env, l.id, days))
      && (o.status == AlreadySent ==> w' == w && Holds(w.rows, Key(l.id, days)))
      && (o.status == Sent <==>
            && !ReminderSentSpec(w.rows, env, l.id, days)
            && Remindable(l) && LeaseMails(l, days)[0] !in env.undeliverable && LeaseMails(l, days)[1] !in env.undeliverable
            && Key(l.id, days) !in env.insertDown && IsHorizon(days) && !Holds(w.rows, Key(l.id, days)))
      && (o.status == Sent ==> Remindable(l) && w'.rows == w.rows + [Row(l.id, days, now)]
                                && w'.delivered == w.delivered + LeaseMails(l, days))
      && (o.status.Failed? ==> w'.rows == w.rows)
      && (!Remindable(l) ==> w'.delivered == w.delivered && o.status != Sent)
  {
    if l.landlord.Some? && l.realtor.Some? {
      ReminderDeliveryCases(w.delivered, env.undeliverable, l.landlord.value, l.realtor.value, l, Days(days));
    }
  }

  // ------------------------------------------------------- the sweep

  /** The per-lease processing of the inner loop: from the world before, a lease and the
      horizon, the world after and the outcome reported. */
  type Visit = (World, LeaseRecord, nat) -> (World, Outcome)

  /** The service's own per-lease step. */
  function VisitWith(env: Env, now: int): Visit {
    (w: World, l: LeaseRecord, days: nat) => ProcessPair(w, env, l, days, now)
  }

  /** The inner loop: every lease of one scan, in scan order. */
  function RunPairs(w: World, visit: Visit, leases: seq<LeaseRecord>, days: nat): (World, seq<Outcome>)
    decreases |leases|
  {
    if leases == [] then (w, [])
    else
      var p := RunPairs(w, visit, leases[..|leases| - 1], days);
      var q := visit(p.0, leases[|leases| - 1], days);
      (q.0, p.1 + [q.1])
  }

  /** checkAndSendReminders over the horizons `hs`: a failing scan aborts the whole sweep,
      keeping what earlier horizons already sent and recorded. */
  function Sweep(w: World, visit: Visit, t: LeaseTable, today: int, hs: seq<nat>): (World, Result<seq<Outcome>, ServiceError>)
    decreases |hs|
  {
    if hs == [] then (w, Ok([]))
    else
      var s := Sweep(w, visit, t, today, hs[..|hs| - 1]);
      if s.1.Err? then s
      else
        var scan := LeasesExpiringOn(t, today + hs[|hs| - 1]);
        if scan.Err? then (s.0, Err(scan.error))
        else
          var p := RunPairs(s.0, visit, scan.value, hs[|hs| - 1]);
          (p.0, Ok(s.1.value + p.1))
  }

  /** One more lease of a scan. */
  lemma RunPairsStep(w: World, visit: Visit, leases: seq<LeaseRecord>, days: nat, j: nat)
    requires j < |leases|
    ensures var p := RunPairs(w, visit, leases[..j], days);
      var q := visit(p.0, leases[j], days);
      RunPairs(w, visit, leases[..j + 1], days) == (q.0, p.1 + [q.1])
  {
    assert leases[..j + 1][..j] == leases[..j];
  }

  /** One more horizon of a sweep that has not failed yet. */
  lemma SweepStep(w: World, visit: Visit, t: LeaseTable, today: int, hs: seq<nat>, i: nat)
    requires i < |hs|
    requires Sweep(w, visit, t, today, hs[..i]).1.Ok?
    ensures var s := Sweep(w, visit, t, today, hs[..i]);
      var scan := LeasesExpiringOn(t, today + hs[i]);
      Sweep(w, visit, t, today, hs[..i + 1])
        == if scan.Err? then (s.0, Err(scan.error))
           else (RunPairs(s.0, visit, scan.value, hs[i]).0, Ok(s.1.value + RunPairs(s.0, visit, scan.value, hs[i]).1))
  {
    assert hs[..i + 1][..i] == hs[..i];
  }

  function PairOf(o: Outcome): (nat, nat) {
    (o.leaseId, o.days)
  }

  function Pairs(os: seq<Outcome>): seq<(nat, nat)>
    decreases |os|
  {
    if os == [] then [] else Pairs(os[..|os| - 1]) + [PairOf(os[|os| - 1])]
  }

  function LeasePairs(ls: seq<LeaseRecord>, days: nat): seq<(nat, nat)>
    decreases |ls|
  {
    if ls == [] then [] else LeasePairs(ls[..|ls| - 1], days) + [(ls[|ls| - 1].id, days)]
  }

  /** The (lease, horizon) pairs a sweep over `hs` visits, in order. */
  function ExpectedPairs(rows: seq<LeaseRecord>, today: int, hs: seq<nat>): seq<(nat, nat)>
    decreases |hs|
  {
    if hs == [] then []
    else ExpectedPairs(rows, today, hs[..|hs| - 1])
         + LeasePairs(Filter(rows, EndsOnDate(today + hs[|hs| - 1])), hs[|hs| - 1])
  }

  /** The ledger rows a run of outcomes adds: one per reported send, in order. */
  function SentRows(os: seq<Outcome>, now: int): seq<Row>
    decreases |os|
  {
    if os == [] then []
    else SentRows(os[..|os| - 1], now)
         + (if os[|os| - 1].status == Sent then [Row(os[|os| - 1].leaseId, os[|os| - 1].days, now)] else [])
  }

  lemma PairsAppend(os: seq<Outcome>, o: Outcome)
    ensures Pairs(os + [o]) == Pairs(os) + [PairOf(o)]
  {
    assert (os + [o])[..|os|] == os;
  }

  lemma SentRowsAppend(os: seq<Outcome>, o: Outcome, now: int)
    ensures SentRows(os + [o], now) == SentRows(os, now) + (if o.status == Sent then [Row(o.leaseId, o.days, now)] else [])
  {
    assert (os + [o])[..|os|] == os;
  }

  lemma {:induction false} PairsConcat(a: seq<Outcome>, b: seq<Outcome>)
    ensures Pairs(a + b) == Pairs(a) + Pairs(b)
    decreases |b|
  {
    if b != [] {
      var bi := b[..|b| - 1];
      assert a + b == (a + bi) + [b[|b| - 1]];
      PairsAppend(a + bi, b[|b| - 1]);
      PairsConcat(a, bi);
    } else {
      assert a + b == a;
    }
  }

  lemma {:induction false} SentRowsConcat(a: seq<Outcome>, b: seq<Outcome>, now: int)
    ensures SentRows(a + b, now) == SentRows(a, now) + SentRows(b, now)
    decreases |b|
  {
    if b != [] {
      var bi := b[..|b| - 1];
      assert a + b == (a + bi) + [b[|b| - 1]];
      SentRowsAppend(a + bi, b[|b| - 1], now);
      SentRowsConcat(a, bi, now);
    } else {
      assert a + b == a;
    }
  }

  /** `w'` holds everything `w` holds, in the same order, and possibly more. */
  ghost predicate Extends(w': World, w: World) {
    && |w'.rows| >= |w.rows| && w'.rows[..|w.rows|] == w.rows
    && |w'.delivered| >= |w.delivered| && w'.delivered[..|w.delivered|] == w.delivered
  }

  lemma ExtendsTrans(a: World, b: World, c: World)
    requires Extends(b, a) && Extends(c, b)
    ensures Extends(c, a)
  {
    assert c.rows[..|a.rows|] == c.rows[..|b.rows|][..|a.rows|];
    assert c.delivered[..|a.delivered|] == c.delivered[..|b.delivered|][..|a.delivered|];
  }

  /** What a per-lease step promises: its outcome names the pair, the ledger gains exactly
      the row of a reported send (stamped `now`), and nothing recorded or delivered is lost. */
  ghost predicate WellBehaved(visit: Visit, now: int) {
    forall w: World, l: LeaseRecord, days: nat ::
      && visit(w, l, days).1.leaseId == l.id && visit(w, l, days).1.days == days
      && visit(w, l, days).0.rows == w.rows + (if visit(w, l, days).1.status == Sent then [Row(l.id, days, now)] else [])
      && Extends(visit(w, l, days).0, w)
  }

  lemma ProcessPairWellBehaved(w: World, env: Env, l: LeaseRecord, days: nat, now: int)
    ensures var q := ProcessPair(w, env, l, days, now);
      && q.1.leaseId == l.id && q.1.days == days
      && q.0.rows == w.rows + (if q.1.status == Sent then [Row(l.id, days, now)] else [])
      && Extends(q.0, w)
  {
    ProcessPairCases(w, env, l, days, now);
    var q := ProcessPair(w, env, l, days, now);
    if l.landlord.Some? && l.realtor.Some? {
      var ms := LeaseMails(l, days);
      DeliverPairFacts(w.delivered, env.undeliverable, ms[0], ms[1]);
    }
    assert q.0.rows[..|w.rows|] == w.rows;
  }

  /** The service's step keeps those promises. */
  lemma VisitWithWellBehaved(env: Env, now: int)
    ensures WellBehaved(VisitWith(env, now), now)
  {
    forall w: World, l: LeaseRecord, days: nat ensures
      var q := VisitWith(env, now)(w, l, days);
      && q.1.leaseId == l.id && q.1.days == days
      && q.0.rows == w.rows + (if q.1.status == Sent then [Row(l.id, days, now)] else [])
      && Extends(q.0, w)
    {
      ProcessPairWellBehaved(w, env, l, days, now);
    }
  }

  /** The inner loop reports one outcome per lease, in scan order; the ledger grows by
      exactly the rows of the reported sends and the mail log only grows. */
  lemma {:induction false} RunPairsFacts(w: World, visit: Visit, leases: seq<LeaseRecord>, days: nat, now: int)
    requires WellBehaved(visit, now)
    decreases |leases|
    ensures var p := RunPairs(w, visit, leases, days);
      && Pairs(p.1) == LeasePairs(leases, days)
      && p.0.rows == w.rows + SentRows(p.1, now)
      && Extends(p.0, w)
  {
    if leases != [] {
      var init := leases[..|leases| - 1];
      var l := leases[|leases| - 1];
      RunPairsFacts(w, visit, init, days, now);
      var p1 := RunPairs(w, visit, init, days);
      var q := visit(p1.0, l, days);
      PairsAppend(p1.1, q.1);
      SentRowsAppend(p1.1, q.1, now);
      ExtendsTrans(w, p1.0, q.0);
    }
  }

  /** All scans of the horizons succeed. */
  predicate ScansUp(t: LeaseTable, today: int, hs: seq<nat>) {
    forall i :: 0 <= i < |hs| ==> today + hs[i] !in t.scanDown
  }

  /** The ledger and the mail log of an aborted or completed sweep extend the ones it
      started from. */
  lemma {:induction false} SweepGrows(w: World, visit: Visit, t: LeaseTable, today: int, hs: seq<nat>, now: int)
    requires WellBehaved(visit, now)
    decreases |hs|
    ensures Extends(Sweep(w, visit, t, today, hs).0, w)
  {
    if hs != [] {
      var init := hs[..|hs| - 1];
      var h := hs[|hs| - 1];
      SweepGrows(w, visit, t, today, init, now);
      var s1 := Sweep(w, visit, t, today, init);
      if s1.1.Ok? && today + h !in t.scanDown {
        var scan := Filter(t.rows, EndsOnDate(today + h));
        RunPairsFacts(s1.0, visit, scan, h, now);
        ExtendsTrans(w, s1.0, RunPairs(s1.0, visit, scan, h).0);
      }
    }
  }

  /** A sweep completes exactly when every scan succeeds; an aborted sweep names a swept
      date whose scan failed. */
  lemma {:induction false} SweepCompletes(w: World, visit: Visit, t: LeaseTable, today: int, hs: seq<nat>)
    decreases |hs|
    ensures var r := Sweep(w, visit, t, today, hs).1;
      && (r.Ok? <==> ScansUp(t, today, hs))
      && (r.Err? ==> exists i :: 0 <= i < |hs| && r.error == ScanFault(today + hs[i]) && today + hs[i] in t.scanDown)
  {
    if hs != [] {
      var init := hs[..|hs| - 1];
      SweepCompletes(w, visit, t, today, init);
      assert forall i :: 0 <= i < |init| ==> init[i] == hs[i];
    }
  }

  /** A completed sweep reports one outcome per (lease, horizon) pair, horizon by horizon
      in order and leases in scan order. */
  lemma {:induction false} SweepPairs(w: World, visit: Visit, t: LeaseTable, today: int, hs: seq<nat>, now: int)
    requires WellBehaved(visit, now)
    decreases |hs|
    ensures var s := Sweep(w, visit, t, today, hs);
      s.1.Ok? ==> Pairs(s.1.value) == ExpectedPairs(t.rows, today, hs)
  {
    if hs != [] {
      var init := hs[..|hs| - 1];
      var h := hs[|hs| - 1];
      SweepPairs(w, visit, t, today, init, now);
      var s1 := Sweep(w, visit, t, today, init);
      if s1.1.Ok? && today + h !in t.scanDown {
        var scan := Filter(t.rows, EndsOnDate(today + h));
        RunPairsFacts(s1.0, visit, scan, h, now);
        var p := RunPairs(s1.0, visit, scan, h);
        PairsConcat(s1.1.value, p.1);
        assert Sweep(w, visit, t, today, hs) == (p.0, Ok(s1.1.value + p.1));
      }
    }
  }

  /** The ledger after a completed sweep is the one before plus one row per reported send,
      in the order reported. */
  lemma {:induction false} SweepRows(w: World, visit: Visit, t: LeaseTable, today: int, hs: seq<nat>, now: int)
    requires WellBehaved(visit, now)
    decreases |hs|
    ensures var s := Sweep(w, visit, t, today, hs);
      s.1.Ok? ==> s.0.rows == w.rows + SentRows(s.1.value, now)
  {
    if hs != [] {
      var init := hs[..|hs| - 1];
      var h := hs[|hs| - 1];
      SweepRows(w, visit, t, today, init, now);
      var s1 := Sweep(w, visit, t, today, init);
      if s1.1.Ok? && today + h !in t.scanDown {
        var scan := Filter(t.rows, EndsOnDate(today + h));
        var p := RunPairs(s1.0, visit, scan, h);
        assert Sweep(w, visit, t, today, hs) == (p.0, Ok(s1.1.value + p.1));
        calc {
          p.0.rows;
          == { RunPairsFacts(s1.0, visit, scan, h, now); }
          s1.0.rows + SentRows(p.1, now);
          == { SentRowsConcat(s1.1.value, p.1, now); }
          w.rows + SentRows(s1.1.value + p.1, now);
        }
      }
    }
  }

  predicate HasId(ls: seq<LeaseRecord>, id: nat) {
    exists l :: l in ls && l.id == id
  }

  /** Some eligible lease with this id ends on `date`. */
  predicate EndsWithId(rows: seq<LeaseRecord>, id: nat, date: int) {
    exists l :: l in rows && l.id == id && l.endDate == date && Eligible(l)
  }

  lemma {:induction false} LeasePairsMembers(ls: seq<LeaseRecord>, days: nat)
    decreases |ls|
    ensures forall id: nat, d: nat :: (id, d) in LeasePairs(ls, days) <==> d == days && HasId(ls, id)
  {
    if ls != [] {
      LeasePairsMembers(ls[..|ls| - 1], days);
      assert forall l :: l in ls <==> l in ls[..|ls| - 1] || l == ls[|ls| - 1];
    }
  }

  lemma ScanHasId(rows: seq<LeaseRecord>, date: int, id: nat)
    ensures HasId(Filter(rows, EndsOnDate(date)), id) <==> EndsWithId(rows, id, date)
  {
    ScanMembers(rows, EndsOnDate(date));
  }

  /** A pair is visited exactly when its horizon is swept and an eligible lease with that
      id ends that many days from today. */
  lemma {:induction false} ExpectedPairsMembers(rows: seq<LeaseRecord>, today: int, hs: seq<nat>)
    decreases |hs|
    ensures forall id: nat, d: nat :: (id, d) in ExpectedPairs(rows, today, hs) <==> d in hs && EndsWithId(rows, id, today + d)
  {
    if hs != [] {
      var init := hs[..|hs| - 1];
      var h := hs[|hs| - 1];
      ExpectedPairsMembers(rows, today, init);
      var scan := Filter(rows, EndsOnDate(today + h));
      LeasePairsMembers(scan, h);
      assert hs == init + [h];
      forall id: nat, d: nat ensures (id, d) in ExpectedPairs(rows, today, hs) <==> d in hs && EndsWithId(rows, id, today + d) {
        ScanHasId(rows, today + h, id);
      }
    }
  }

  // --------------------------------------------------- idempotence

  /** Every pair the sweep visits already has its ledger row. */
  ghost predicate Covered(rows: seq<Row>, t: LeaseTable, today: int, hs: seq<nat>) {
    forall i, l :: 0 <= i < |hs| && l in t.rows && l.endDate == today + hs[i] && Eligible(l) ==> Holds(rows, Key(l.id, hs[i]))
  }

  /** Every scan succeeds, every horizon is one the ledger accepts and every lease can be
      reminded. */
  ghost predicate ReadyTable(t: LeaseTable, today: int, hs: seq<nat>) {
    && ScansUp(t, today, hs)
    && (forall i :: 0 <= i < |hs| ==> IsHorizon(hs[i]))
    && (forall l :: l in t.rows ==> Remindable(l))
  }

  /** A step that leaves a remindable lease recorded for a ledger horizon. */
  ghost predicate RecordsRemindable(visit: Visit) {
    forall w: World, l: LeaseRecord, days: nat :: Remindable(l) && IsHorizon(days) ==> Holds(visit(w, l, days).0.rows, Key(l.id, days))
  }

  /** A step that changes nothing for a pair already recorded and reports it already sent. */
  ghost predicate SkipsRecorded(visit: Visit) {
    forall w: World, l: LeaseRecord, days: nat :: Holds(w.rows, Key(l.id, days)) ==>
      visit(w, l, days).0 == w && visit(w, l, days).1.status == AlreadySent
  }

  /** With no ledger or mail fault, the service's step records every remindable lease. */
  lemma HealthyVisitRecords(env: Env, now: int)
    requires env.lookupDown == {} && env.insertDown == {} && env.undeliverable == {}
    ensures RecordsRemindable(VisitWith(env, now))
  {
    forall w, l, days | Remindable(l) && IsHorizon(days)
      ensures Holds(VisitWith(env, now)(w, l, days).0.rows, Key(l.id, days))
    {
      ProcessPairCases(w, env, l, days, now);
      var q := ProcessPair(w, env, l, days, now);
      if q.1.status == Sent {
        assert Row(l.id, days, now) in q.0.rows;
      }
    }
  }

  /** When ledger lookups work, the service's step skips recorded pairs. */
  lemma LookupVisitSkips(env: Env, now: int)
    requires env.lookupDown == {}
    ensures SkipsRecorded(VisitWith(env, now))
  {
  }

  lemma HoldsGrows(rows: seq<Row>, rows': seq<Row>, k: Key)
    requires |rows'| >= |rows| && rows'[..|rows|] == rows && Holds(rows, k)
    ensures Holds(rows', k)
  {
    var r :| r in rows && KeyOf(r) == k;
    var i :| 0 <= i < |rows| && rows[i] == r;
    assert rows'[i] == r;
  }

  lemma {:induction false} RunPairsCovers(w: World, visit: Visit, leases: seq<LeaseRecord>, days: nat, now: int)
    requires WellBehaved(visit, now) && RecordsRemindable(visit) && IsHorizon(days)
    requires forall l :: l in leases ==> Remindable(l)
    decreases |leases|
    ensures forall l :: l in leases ==> Holds(RunPairs(w, visit, leases, days).0.rows, Key(l.id, days))
  {
    if leases != [] {
      var init := leases[..|leases| - 1];
      var last := leases[|leases| - 1];
      RunPairsCovers(w, visit, init, days, now);
      var p := RunPairs(w, visit, init, days);
      var q := visit(p.0, last, days);
      forall l | l in leases ensures Holds(q.0.rows, Key(l.id, days)) {
        if l in init {
          HoldsGrows(p.0.rows, q.0.rows, Key(l.id, days));
        }
      }
    }
  }

  lemma CoveredSnoc(rows: seq<Row>, rows': seq<Row>, t: LeaseTable, today: int, hs: seq<nat>)
    requires hs != [] && Covered(rows, t, today, hs[..|hs| - 1])
    requires |rows'| >= |rows| && rows'[..|rows|] == rows
    requires forall l :: l in Filter(t.rows, EndsOnDate(today + hs[|hs| - 1])) ==> Holds(rows', Key(l.id, hs[|hs| - 1]))
    ensures Covered(rows', t, today, hs)
  {
    var init := hs[..|hs| - 1];
    var h := hs[|hs| - 1];
    ScanMembers(t.rows, EndsOnDate(today + h));
    forall i, l | 0 <= i < |hs| && l in t.rows && l.endDate == today + hs[i] && Eligible(l)
      ensures Holds(rows', Key(l.id, hs[i]))
    {
      if i < |init| {
        assert init[i] == hs[i];
        HoldsGrows(rows, rows', Key(l.id, hs[i]));
      } else {
        assert EndsOnDate(today + h)(l);
      }
    }
  }

  lemma CoveredInit(rows: seq<Row>, t: LeaseTable, today: int, hs: seq<nat>)
    requires hs != [] && Covered(rows, t, today, hs)
    ensures Covered(rows, t, today, hs[..|hs| - 1])
  {
    var init := hs[..|hs| - 1];
    forall i, l | 0 <= i < |init| && l in t.rows && l.endDate == today + init[i] && Eligible(l)
      ensures Holds(rows, Key(l.id, init[i]))
    {
      assert init[i] == hs[i];
    }
  }

  lemma CoveredLast(rows: seq<Row>, t: LeaseTable, today: int, hs: seq<nat>)
    requires hs != [] && Covered(rows, t, today, hs)
    ensures forall l :: l in Filter(t.rows, EndsOnDate(today + hs[|hs| - 1])) ==> Holds(rows, Key(l.id, hs[|hs| - 1]))
  {
    ScanMembers(t.rows, EndsOnDate(today + hs[|hs| - 1]));
  }

  /** A sweep whose step records every remindable lease leaves every visited pair recorded. */
  lemma {:induction false} SweepCovers(w: World, visit: Visit, t: LeaseTable, today: int, hs: seq<nat>, now: int)
    requires WellBehaved(visit, now) && RecordsRemindable(visit) && ReadyTable(t, today, hs)
    decreases |hs|
    ensures Sweep(w, visit, t, today, hs).1.Ok?
    ensures Covered(Sweep(w, visit, t, today, hs).0.rows, t, today, hs)
  {
    SweepCompletes(w, visit, t, today, hs);
    if hs != [] {
      var init := hs[..|hs| - 1];
      var h := hs[|hs| - 1];
      assert ReadyTable(t, today, init) by {
        assert forall i :: 0 <= i < |init| ==> init[i] == hs[i];
      }
      assert IsHorizon(h);
      SweepCovers(w, visit, t, today, init, now);
      var s1 := Sweep(w, visit, t, today, init);
      var scan := Filter(t.rows, EndsOnDate(today + h));
      ScanMembers(t.rows, EndsOnDate(today + h));
      RunPairsCovers(s1.0, visit, scan, h, now);
      RunPairsFacts(s1.0, visit, scan, h, now);
      CoveredSnoc(s1.0.rows, RunPairs(s1.0, visit, scan, h).0.rows, t, today, hs);
    }
  }

  predicate AllAlreadySent(os: seq<Outcome>) {
    forall i :: 0 <= i < |os| ==> os[i].status == AlreadySent
  }

  lemma {:induction false} RunPairsHeld(w: World, visit: Visit, leases: seq<LeaseRecord>, days: nat)
    requires SkipsRecorded(visit)
    requires forall l :: l in leases ==> Holds(w.rows, Key(l.id, days))
    decreases |leases|
    ensures RunPairs(w, visit, leases, days).0 == w
    ensures AllAlreadySent(RunPairs(w, visit, leases, days).1)
  {
    if leases != [] {
      RunPairsHeld(w, visit, leases[..|leases| - 1], days);
    }
  }

  /** A sweep whose every pair is already recorded changes nothing and reports every pair
      as already sent. */
  lemma {:induction false} SweepHeld(w: World, visit: Visit, t: LeaseTable, today: int, hs: seq<nat>)
    requires SkipsRecorded(visit)
    requires Covered(w.rows, t, today, hs)
    decreases |hs|
    ensures Sweep(w, visit, t, today, hs).0 == w
    ensures Sweep(w, visit, t, today, hs).1.Ok? ==> AllAlreadySent(Sweep(w, visit, t, today, hs).1.value)
  {
    if hs != [] {
      var init := hs[..|hs| - 1];
      var h := hs[|hs| - 1];
      CoveredInit(w.rows, t, today, hs);
      SweepHeld(w, visit, t, today, init);
      var s1 := Sweep(w, visit, t, today, init);
      if s1.1.Ok? && today + h !in t.scanDown {
        var scan := Filter(t.rows, EndsOnDate(today + h));
        var p := RunPairs(w, visit, scan, h);
        assert Sweep(w, visit, t, today, hs) == (p.0, Ok(s1.1.value + p.1));
        assert p.0 == w && AllAlreadySent(p.1) by {
          CoveredLast(w.rows, t, today, hs);
          RunPairsHeld(w, visit, scan, h);
        }
      }
    }
  }

  /** Running the service's sweep twice on the same day and data, with nothing failing,
      sends nothing the second time: every pair is reported already sent and neither the
      ledger nor the mail log moves. */
  lemma SecondSweepSendsNothing(w: World, env: Env, t: LeaseTable, today: int, now: int, later: int)
    requires env.lookupDown == {} && env.insertDown == {} && env.undeliverable == {}
    requires ReadyTable(t, today, Horizons)
    ensures var (w1, r1) := Sweep(w, VisitWith(env, now), t, today, Horizons);
      var (w2, r2) := Sweep(w1, VisitWith(env, later), t, today, Horizons);
      && r1.Ok? && r2.Ok? && w2 == w1
      && Pairs(r2.value) == Pairs(r1.value)
      && AllAlreadySent(r2.value)
  {
    VisitWithWellBehaved(env, now);
    VisitWithWellBehaved(env, later);
    HealthyVisitRecords(env, now);
    LookupVisitSkips(env, later);
    SweepCovers(w, VisitWith(env, now), t, today, Horizons, now);
    var w1 := Sweep(w, VisitWith(env, now), t, today, Horizons).0;
    SweepHeld(w1, VisitWith(env, later), t, today, Horizons);
    SweepCompletes(w1, VisitWith(env, later), t, today, Horizons);
    SweepPairs(w, VisitWith(env, now), t, today, Horizons, now);
    SweepPairs(w1, VisitWith(env, later), t, today, Horizons, later);
  }

  // --------------------------------------------------- manual trigger

  function ManualMessage(leaseId: nat, days: nat): string {
    "Manual reminder sent for lease " + NatToString(leaseId) + " (" + NatToString(days) + " days notice)"
  }

  /** manuallyTriggerReminder: fetch by id (any status), send, record; no ledger check. */
  function ManualSpec(w: World, env: Env, t: LeaseTable, leaseId: nat, days: nat, now: int): (World, Result<string, ServiceError>) {
    var f := FetchLease(t, leaseId);
    if f.Err? then (w, Err(f.error))
    else
      var (s, d) := SendForLease(w.delivered, env.undeliverable, f.value, days);
      if s.Err? then (World(w.rows, d), Err(PairFailed(s.error)))
      else
        var (ir, rows') := InsertSpec(w.rows, env.insertDown, Row(leaseId, days, now));
        (World(rows', d), if ir == Inserted then Ok(ManualMessage(leaseId, days)) else Err(PairFailed(Recording(ir))))
  }

  /** The manual trigger always mails a remindable lease, even one already reminded for
      that horizon, and then fails on the ledger's unique constraint. */
  lemma ManualBypassesLedger(w: World, env: Env, t: LeaseTable, l: LeaseRecord, days: nat, now: int)
    requires DistinctIds(t.rows) && !t.fetchDown && l in t.rows && Remindable(l)
    requires env.undeliverable == {} && env.insertDown == {}
    ensures var (w', r) := ManualSpec(w, env, t, l.id, days, now);
      && w'.delivered == w.delivered + ReminderMails(l.landlord.value, l.realtor.value, Days(days))
      && (Holds(w.rows, Key(l.id, days)) && IsHorizon(days) ==> r == Err(PairFailed(Recording(Duplicate))) && w'.rows == w.rows)
      && (!Holds(w.rows, Key(l.id, days)) && IsHorizon(days) ==>
            r == Ok(ManualMessage(l.id, days)) && w'.rows == w.rows + [Row(l.id, days, now)])
  {
    FetchLeaseCorrect(t, l.id);
    ReminderDeliveryCases(w.delivered, env.undeliverable, l.landlord.value, l.realtor.value, l, Days(days));
  }

  /** A manual trigger succeeds only after both mails went out and its row went in. */
  lemma ManualSuccess(w: World, env: Env, t: LeaseTable, leaseId: nat, days: nat, now: int)
    ensures var (w', r) := ManualSpec(w, env, t, leaseId, days, now);
      r.Ok? ==>
        && r.value == ManualMessage(leaseId, days)
        && FetchLease(t, leaseId).Ok? && Remindable(FetchLease(t, leaseId).value)
        && w'.rows == w.rows + [Row(leaseId, days, now)] && !Holds(w.rows, Key(leaseId, days))
        && var l := FetchLease(t, leaseId).value;
           w'.delivered == w.delivered + ReminderMails(l.landlord.value, l.realtor.value, Days(days))
  {
    var f := FetchLease(t, leaseId);
    if f.Ok? && f.value.landlord.Some? && f.value.realtor.Some? {
      var l := f.value;
      ReminderDeliveryCases(w.delivered, env.undeliverable, l.landlord.value, l.realtor.value, l, Days(days));
    }
  }

  // ------------------------------------------------------- the service

  class LeaseReminderService {
    const reminderDays: seq<nat>
    const ledger: ReminderLedger
    const transport: Transport

    constructor (ledger: ReminderLedger, transport: Transport)
      ensures this.ledger == ledger && this.transport == transport
      ensures reminderDays == Horizons
    {
      reminderDays := Horizons;
      this.ledger := ledger;
      this.transport := transport;
    }

    ghost predicate Valid()
      reads ledger
    {
      reminderDays == Horizons && ledger.Valid()
    }

    function Faults(): Env {
      Env(ledger.lookupDown, ledger.insertDown, transport.undeliverable)
    }

    function State(): World
      reads ledger, transport
    {
      World(ledger.rows, transport.delivered)
    }

    method CheckReminderSent(leaseId: nat, days: nat) returns (sent: bool)
      ensures sent == ReminderSentSpec(ledger.rows, Faults(), leaseId, days)
    {
      var r := ledger.Lookup(Key(leaseId, days));
      sent := r == Found;
    }

    method SendReminderForLease(l: LeaseRecord, days: nat) returns (r: Result<bool, Failure>)
      modifies transport
      ensures (r, transport.delivered) == SendForLease(old(transport.delivered), transport.undeliverable, l, days)
    {
      if l.landlord.None? || l.realtor.None? {
        return Err(MissingParty);
      }
      if l.landlord.value.email == "" || l.realtor.value.email == "" {
        return Err(MissingEmail);
      }
      var s := SendLeaseExpirationReminder(transport, l.landlord.value, l.realtor.value, l, Days(days));
      if s.Ok? {
        r := Ok(true);
      } else {
        r := Err(Mailer(s.error));
      }
    }

    /** Inserted is success; anything else is thrown to the caller. */
    method RecordReminderSent(leaseId: nat, days: nat, now: int) returns (r: InsertResult)
      requires ledger.Valid()
      modifies ledger
      ensures ledger.Valid()
      ensures (r, ledger.rows) == InsertSpec(old(ledger.rows), ledger.insertDown, Row(leaseId, days, now))
    {
      r := ledger.Insert(leaseId, days, now);
    }

    /** The try block run for each scanned lease. */
    method ProcessLease(l: LeaseRecord, days: nat, now: int) returns (o: Outcome)
      requires ledger.Valid()
      modifies ledger, transport
      ensures ledger.Valid()
      ensures (State(), o) == ProcessPair(old(State()), Faults(), l, days, now)
    {
      o := Outcome(l.id, days, PropertyLabel(l), LandlordLabel(l), AlreadySent);
      var already := CheckReminderSent(l.id, days);
      if already {
        return;
      }
      var s := SendReminderForLease(l, days);
      if s.Err? {
        o := o.(status := Failed(s.error));
        return;
      }
      var ir := RecordReminderSent(l.id, days, now);
      o := o.(status := if ir == Inserted then Sent else Failed(Recording(ir)));
    }

    /** The inner loop of checkAndSendReminders: one horizon's scanned leases, in order. */
    method ProcessScan(leases: seq<LeaseRecord>, days: nat, now: int) returns (outs: seq<Outcome>)
      requires Valid()
      modifies ledger, transport
      ensures Valid()
      ensures (State(), outs) == RunPairs(old(State()), VisitWith(Faults(), now), leases, days)
    {
      ghost var w1 := State();
      outs := [];
      for j := 0 to |leases|
        invariant ledger.Valid()
        invariant (State(), outs) == RunPairs(w1, VisitWith(Faults(), now), leases[..j], days)
      {
        RunPairsStep(w1, VisitWith(Faults(), now), leases, days, j);
        var o := ProcessLease(leases[j], days, now);
        outs := outs + [o];
      }
      assert leases[..|leases|] == leases;
    }

    method CheckAndSendReminders(t: LeaseTable, today: int, now: int) returns (r: Result<seq<Outcome>, ServiceError>)
      requires Valid()
      modifies ledger, transport
      ensures Valid()
      ensures (State(), r) == Sweep(old(State()), VisitWith(Faults(), now), t, today, reminderDays)
    {
      ghost var w0 := State();
      var processed: seq<Outcome> := [];
      for i := 0 to |reminderDays|
        invariant Valid()
        invariant (State(), Ok(processed)) == Sweep(w0, VisitWith(Faults(), now), t, today, reminderDays[..i])
      {
        var days := reminderDays[i];
        SweepStep(w0, VisitWith(Faults(), now), t, today, reminderDays, i);
        var scan := LeasesExpiringOn(t, today + days);
        if scan.Err? {
          return Err(scan.error);
        }
        var outs := ProcessScan(scan.value, days, now);
        processed := processed + outs;
      }
      assert reminderDays[..|reminderDays|] == reminderDays;
      r := Ok(processed);
    }

    method GetReminderHistory(leaseId: nat) returns (r: Result<seq<Row>, ServiceError>)
      ensures r.Err? <==> leaseId in ledger.historyDown
      ensures r.Err? ==> r.error == HistoryFault
      ensures r.Ok? ==> r.value == HistorySpec(ledger.rows, leaseId)
    {
      var h := ledger.History(leaseId);
      if h.None? {
        r := Err(HistoryFault);
      } else {
        r := Ok(h.value);
      }
    }

    method ManuallyTriggerReminder(t: LeaseTable, leaseId: nat, days: nat, now: int) returns (r: Result<string, ServiceError>)
      requires ledger.Valid()
      modifies ledger, transport
      ensures ledger.Valid()
      ensures (State(), r) == ManualSpec(old(State()), Faults(), t, leaseId, days, now)
    {
      var f := FetchLease(t, leaseId);
      if f.Err? {
        return Err(f.error);
      }
      var s := SendReminderForLease(f.value, days);
      if s.Err? {
        return Err(PairFailed(s.error));
      }
      var ir := RecordReminderSent(leaseId, days, now);
      if ir == Inserted {
        r := Ok(ManualMessage(leaseId, days));
      } else {
        r := Err(PairFailed(Recording(ir)));
      }
    }
  }
}
