/** The HTTP handlers of src/controllers/leaseReminderController.js, modelled as the
    replies they build from the service's results and the request parameters. */
module ReminderController {
  import opened Common
  import opened Records
  import opened Ledger
  import opened EmailService
  import opened ReminderService

  // -------------------------------------------------- runReminderCheck

  datatype Summary = Summary(totalProcessed: nat, remindersSent: nat, alreadySent: nat, errors: nat)

  predicate WasSent(o: Outcome) { o.status == Sent }
  predicate WasAlreadySent(o: Outcome) { o.status == AlreadySent }
  predicate WasError(o: Outcome) { o.status.Failed? }

  function Summarize(results: seq<Outcome>): Summary {
    Summary(|results|, Count(results, WasSent), Count(results, WasAlreadySent), Count(results, WasError))
  }

  /** Every outcome is counted in exactly one of the three totals. */
  lemma {:induction false} SummaryPartition(results: seq<Outcome>)
    ensures var s := Summarize(results);
      s.remindersSent + s.alreadySent + s.errors == s.totalProcessed
  {
    if results != [] {
      SummaryPartition(results[..|results| - 1]);
    }
  }

  lemma {:induction false} SentRowsCount(os: seq<Outcome>, now: int)
    ensures |SentRows(os, now)| == Count(os, WasSent)
  {
    if os != [] {
      SentRowsCount(os[..|os| - 1], now);
    }
  }

  /** After a completed sweep, reminders_sent is exactly the number of rows the ledger gained. */
  lemma SummaryMatchesLedger(w: World, env: Env, t: LeaseTable, today: int, now: int)
    ensures var (w', r) := Sweep(w, VisitWith(env, now), t, today, Horizons);
      r.Ok? ==> |w'.rows| == |w.rows| + Summarize(r.value).remindersSent
  {
    VisitWithWellBehaved(env, now);
    SweepRows(w, VisitWith(env, now), t, today, Horizons, now);
    var r := Sweep(w, VisitWith(env, now), t, today, Horizons).1;
    if r.Ok? {
      SentRowsCount(r.value, now);
    }
  }

  datatype CheckReply =
    | CheckDone(results: seq<Outcome>, summary: Summary)   // 200
    | CheckFailed(error: ServiceError)                      // 500

  function RunReminderCheckReply(r: Result<seq<Outcome>, ServiceError>): (reply: CheckReply)
    ensures r.Ok? <==> reply.CheckDone?
    ensures reply.CheckDone? ==> reply.results == r.value && reply.summary.totalProcessed == |r.value|
  {
    if r.Ok? then CheckDone(r.value, Summarize(r.value)) else CheckFailed(r.error)
  }

  // ------------------------------------------------ getExpiringLeases

  /** A query-string parameter. */
  datatype Param = Absent | Given(text: string)

  /** `const { days = 90 } = req.query` then parseInt; None is NaN. */
  function QueryDays(p: Param): Option<int> {
    if p.Absent? then Some(90) else ParseInt(p.text)
  }

  function ManagedBy(realtorId: nat): LeaseRecord -> bool {
    (l: LeaseRecord) => l.realtor.Some? && l.realtor.value.id == realtorId
  }

  datatype ExpiringReply =
    | Expiring(leases: seq<LeaseRecord>, total: nat, daysAhead: int, start: int, end: int)  // 200
    | ExpiringFailed                                                                          // 500

  /** A NaN day count makes the end date invalid, and formatting it throws: a 500. */
  function ExpiringLeasesReply(t: LeaseTable, today: int, realtorId: nat, p: Param): ExpiringReply {
    WindowReply(t, today, realtorId, QueryDays(p))
  }

  function WindowReply(t: LeaseTable, today: int, realtorId: nat, n: Option<int>): ExpiringReply {
    if n.None? then ExpiringFailed
    else
      var r := LeasesExpiringInRange(t, today, today + n.value);
      if r.Err? then ExpiringFailed
      else
        var f := Filter(r.value, ManagedBy(realtorId));
        Expiring(f, |f|, n.value, today, today + n.value)
  }

  /** The reply for a parsed day count lists exactly the realtor's eligible leases ending
      within the window, ordered by end date. */
  lemma WindowReplyCorrect(t: LeaseTable, today: int, realtorId: nat, n: Option<int>)
    ensures var reply := WindowReply(t, today, realtorId, n);
      && (reply.Expiring? <==> n.Some? && !t.rangeDown)
      && (reply.Expiring? ==>
            && reply.daysAhead == n.value
            && reply.total == |reply.leases|
            && reply.end == today + reply.daysAhead
            && ListsWindow(reply.leases, t.rows, today, reply.end, realtorId))
  {
    if n.Some? && !t.rangeDown {
      var _ := WindowListing(t, today, realtorId, n.value);
    }
  }

  lemma WindowReplyShape(t: LeaseTable, today: int, realtorId: nat, d: int)
    requires !t.rangeDown
    ensures var f := Filter(LeasesExpiringInRange(t, today, today + d).value, ManagedBy(realtorId));
      WindowReply(t, today, realtorId, Some(d)) == Expiring(f, |f|, d, today, today + d)
  {
  }

  lemma WindowListing(t: LeaseTable, today: int, realtorId: nat, d: int) returns (f: seq<LeaseRecord>)
    requires !t.rangeDown
    ensures WindowReply(t, today, realtorId, Some(d)) == Expiring(f, |f|, d, today, today + d)
    ensures ListsWindow(f, t.rows, today, today + d, realtorId)
  {
    f := WindowListingTo(t, today, today + d, realtorId);
    WindowReplyShape(t, today, realtorId, d);
  }

  lemma WindowListingTo(t: LeaseTable, start: int, end: int, realtorId: nat) returns (f: seq<LeaseRecord>)
    requires !t.rangeDown
    ensures f == Filter(LeasesExpiringInRange(t, start, end).value, ManagedBy(realtorId))
    ensures ListsWindow(f, t.rows, start, end, realtorId)
  {
    f := Filter(LeasesExpiringInRange(t, start, end).value, ManagedBy(realtorId));
    RangeScanFacts(t, start, end);
    ManagedWindow(t.rows, LeasesExpiringInRange(t, start, end).value, start, end, realtorId);
  }

  lemma RangeScanFacts(t: LeaseTable, start: int, end: int)
    requires !t.rangeDown
    ensures var r := LeasesExpiringInRange(t, start, end).value;
      && (forall l :: l in r <==> l in t.rows && start <= l.endDate <= end && Eligible(l))
      && SortedBy(r, EndDateOf)
  {
    ExpiringInRangeCorrect(t, start, end);
  }

  lemma ManagedWindow(rows: seq<LeaseRecord>, r: seq<LeaseRecord>, start: int, end: int, realtorId: nat)
    requires forall l :: l in r <==> l in rows && start <= l.endDate <= end && Eligible(l)
    requires SortedBy(r, EndDateOf)
    ensures ListsWindow(Filter(r, ManagedBy(realtorId)), rows, start, end, realtorId)
  {
    ScanMembers(r, ManagedBy(realtorId));
    FilterKeepsOrder(r, ManagedBy(realtorId), EndDateOf);
  }

  /** The window defaults to 90 days; a day count that does not parse is a 500. */
  lemma ExpiringLeasesCorrect(t: LeaseTable, today: int, realtorId: nat, p: Param)
    ensures var reply := ExpiringLeasesReply(t, today, realtorId, p);
      && (reply.Expiring? <==> QueryDays(p).Some? && !t.rangeDown)
      && (p.Absent? && reply.Expiring? ==> reply.daysAhead == 90 && reply.end == today + 90)
      && (p.Given? && ParseInt(p.text).None? ==> reply == ExpiringFailed)
  {
    WindowReplyCorrect(t, today, realtorId, QueryDays(p));
  }

  // ------------------------------------------------ getReminderHistory

  datatype HistoryReply = History(rows: seq<Row>) | HistoryFailed

  function HistoryReplyOf(r: Result<seq<Row>, ServiceError>): (reply: HistoryReply)
    ensures reply.History? <==> r.Ok?
    ensures reply.History? ==> reply.rows == r.value
  {
    if r.Ok? then History(r.value) else HistoryFailed
  }

  // ---------------------------------------------------- manualReminder

  /** parseInt of a body field, which reads the field's text; None is NaN. An integer
      reads back as itself. */
  function ParseField(v: JsonValue): Option<int> {
    match v
    case Num(n) => Some(n)
    case _ => ParseInt(JsText(v))
  }

  /** `!days || ![90, 60, 30].includes(parseInt(days))` rejects; otherwise the parsed
      horizon is passed on. */
  function ManualDays(v: JsonValue): (r: Option<nat>)
    ensures r.Some? ==> IsHorizon(r.value)
  {
    if Falsy(v) then None
    else
      var d := ParseField(v);
      if d.Some? && IsHorizon(d.value) then Some(d.value as nat) else None
  }

  /** Exactly the horizons are accepted as numbers; zero, empty, missing and every other
      number are rejected. */
  lemma ManualDaysNumbers(v: JsonValue, h: nat)
    ensures ManualDays(Num(h)).Some? <==> IsHorizon(h)
    ensures IsHorizon(h) ==> ManualDays(Num(h)) == Some(h)
    ensures Falsy(v) ==> ManualDays(v).None?
  {
    assert ParseField(Num(h)) == Some(h);
  }

  /** The decimal text of a horizon is accepted too, and parseInt lets trailing text
      through ("30 days"). */
  lemma ManualDaysText(h: nat, rest: string)
    requires IsHorizon(h) && (rest == [] || !IsDigit(rest[0]))
    ensures ManualDays(Str(NatToString(h) + rest)) == Some(h)
  {
    var s := NatToString(h) + rest;
    assert ParseField(Str(s)) == Some(h) by {
      ParseIntPrefix(h, rest);
    }
    assert !Falsy(Str(s)) by {
      assert |NatToString(h)| >= 1;
    }
  }

  /** parseInt without a radix reads "0x5A" as 90, so that text asks for the 90-day
      reminder. */
  lemma ManualDaysHex()
    ensures ManualDays(Str("0x5A")) == Some(90)
  {
    ParseIntHex();
    assert ParseField(Str("0x5A")) == Some(90);
    assert !Falsy(Str("0x5A")) by {
      assert "0x5A" != "";
    }
  }

  /** An array is truthy and parseInt reads its joined text, so `[90]`, `["90"]` and
      `[90, 60]` all ask for the reminder of their first element's horizon. */
  lemma ManualDaysArray(h: nat, x: JsonValue, rest: seq<JsonValue>)
    requires IsHorizon(h)
    requires x == Num(h) || x == Str(NatToString(h))
    ensures ManualDays(Arr([x] + rest)) == Some(h)
  {
    var items := [x] + rest;
    assert items[0] == x && items[1..] == rest;
    var tail := if rest == [] then "" else "," + ElementsText(rest);
    assert JsText(x) == NatToString(h);
    assert JsText(Arr(items)) == NatToString(h) + tail;
    ParseIntPrefix(h, tail);
  }

  /** An empty array is truthy too, but its text is empty, so it is rejected. */
  lemma ManualDaysEmptyArray()
    ensures ManualDays(Arr([])) == None
  {
    assert JsText(Arr([])) == "";
  }

  datatype ManualReply =
    | ManualDone(message: string)        // 200
    | ManualRejected                     // 400: invalid reminder days
    | ManualFailed(error: ServiceError)  // 500

  /** The handler: validate, then run the service's manual trigger. */
  method ManualReminder(svc: LeaseReminderService, t: LeaseTable, leaseId: nat, days: JsonValue, now: int)
    returns (reply: ManualReply)
    requires svc.ledger.Valid()
    modifies svc.ledger, svc.transport
    ensures svc.ledger.Valid()
    ensures ManualDays(days).None? ==> reply == ManualRejected && svc.State() == old(svc.State())
    ensures ManualDays(days).Some? ==>
      var (w, r) := ManualSpec(old(svc.State()), svc.Faults(), t, leaseId, ManualDays(days).value, now);
      && svc.State() == w
      && reply == if r.Ok? then ManualDone(r.value) else ManualFailed(r.error)
  {
    var d := ManualDays(days);
    if d.None? {
      return ManualRejected;
    }
    var r := svc.ManuallyTriggerReminder(t, leaseId, d.value, now);
    if r.Ok? {
      reply := ManualDone(r.value);
    } else {
      reply := ManualFailed(r.error);
    }
  }

  // -------------------------------------------------- getReminderStats

  /** `by_month` as (month key, count) pairs in first-seen order. */
  datatype Stats = Stats(totalExpiring: nat, expiring30: nat, expiring60: nat, expiring90: nat, byMonth: seq<(string, nat)>)

  /** Whole days from today to the end date (the ceiling of the millisecond difference). */
  function DaysLeft(l: LeaseRecord, today: int): int {
    l.endDate - today
  }

  function Within30(today: int): LeaseRecord -> bool {
    (l: LeaseRecord) => DaysLeft(l, today) <= 30
  }

  function Within31To60(today: int): LeaseRecord -> bool {
    (l: LeaseRecord) => 30 < DaysLeft(l, today) <= 60
  }

  function Within61To90(today: int): LeaseRecord -> bool {
    (l: LeaseRecord) => 60 < DaysLeft(l, today) <= 90
  }

  /** The by_month counters after the first leases. */
  function MonthCounts(leases: seq<LeaseRecord>, monthOf: int -> string): seq<(string, nat)>
    decreases |leases|
  {
    if leases == [] then []
    else Bump(MonthCounts(leases[..|leases| - 1], monthOf), monthOf(leases[|leases| - 1].endDate))
  }

  function InMonth(monthOf: int -> string, k: string): LeaseRecord -> bool {
    (l: LeaseRecord) => monthOf(l.endDate) == k
  }

  /** One counter per month seen, each month counted once, each count the number of
      leases ending in that month, and the counts adding up to the number of leases. */
  lemma {:induction false} MonthCountsFacts(leases: seq<LeaseRecord>, monthOf: int -> string)
    decreases |leases|
    ensures DistinctKeys(MonthCounts(leases, monthOf))
    ensures Total(MonthCounts(leases, monthOf)) == |leases|
    ensures forall k :: CountOf(MonthCounts(leases, monthOf), k) == Count(leases, InMonth(monthOf, k))
  {
    if leases != [] {
      var init := leases[..|leases| - 1];
      var last := leases[|leases| - 1];
      MonthCountsFacts(init, monthOf);
      BumpKeys(MonthCounts(init, monthOf), monthOf(last.endDate));
      BumpCounts(MonthCounts(init, monthOf), monthOf(last.endDate));
    }
  }

  /** The forEach over the realtor's expiring leases. */
  method ComputeStats(leases: seq<LeaseRecord>, today: int, monthOf: int -> string) returns (s: Stats)
    ensures s.totalExpiring == |leases|
    ensures s.expiring30 == Count(leases, Within30(today))
    ensures s.expiring60 == Count(leases, Within31To60(today))
    ensures s.expiring90 == Count(leases, Within61To90(today))
    ensures s.byMonth == MonthCounts(leases, monthOf)
  {
    s := Stats(|leases|, 0, 0, 0, []);
    for i := 0 to |leases|
      invariant s.totalExpiring == |leases|
      invariant s.expiring30 == Count(leases[..i], Within30(today))
      invariant s.expiring60 == Count(leases[..i], Within31To60(today))
      invariant s.expiring90 == Count(leases[..i], Within61To90(today))
      invariant s.byMonth == MonthCounts(leases[..i], monthOf)
    {
      var l := leases[i];
      var daysUntilExpiration := DaysLeft(l, today);
      CountStep(leases, i, Within30(today));
      CountStep(leases, i, Within31To60(today));
      CountStep(leases, i, Within61To90(today));
      assert leases[..i + 1][..i] == leases[..i];
      if daysUntilExpiration <= 30 {
        s := s.(expiring30 := s.expiring30 + 1);
      } else if daysUntilExpiration <= 60 {
        s := s.(expiring60 := s.expiring60 + 1);
      } else if daysUntilExpiration <= 90 {
        s := s.(expiring90 := s.expiring90 + 1);
      }
      s := s.(byMonth := Bump(s.byMonth, monthOf(l.endDate)));
    }
    assert leases[..|leases|] == leases;
  }

  lemma {:induction false} BandsPartition(leases: seq<LeaseRecord>, today: int)
    decreases |leases|
    ensures Count(leases, Within30(today)) + Count(leases, Within31To60(today)) + Count(leases, Within61To90(today))
            == |leases| - Count(leases, (l: LeaseRecord) => DaysLeft(l, today) > 90)
  {
    if leases != [] {
      BandsPartition(leases[..|leases| - 1], today);
    }
  }

  /** The three bands never count a lease twice; when no lease ends more than 90 days out
      (the default window) they count every lease. The month counters always add up to
      total_expiring. */
  lemma StatsFacts(leases: seq<LeaseRecord>, today: int, monthOf: int -> string)
    ensures Count(leases, Within30(today)) + Count(leases, Within31To60(today)) + Count(leases, Within61To90(today)) <= |leases|
    ensures (forall l :: l in leases ==> DaysLeft(l, today) <= 90) ==>
      Count(leases, Within30(today)) + Count(leases, Within31To60(today)) + Count(leases, Within61To90(today)) == |leases|
    ensures Total(MonthCounts(leases, monthOf)) == |leases|
  {
    BandsPartition(leases, today);
    MonthCountsFacts(leases, monthOf);
    if forall l :: l in leases ==> DaysLeft(l, today) <= 90 {
      FilterNone(leases, (l: LeaseRecord) => DaysLeft(l, today) > 90);
      FilterCount(leases, (l: LeaseRecord) => DaysLeft(l, today) > 90);
    }
  }

  datatype StatsReply = StatsOk(stats: Stats) | StatsFailed

  method GetReminderStats(t: LeaseTable, today: int, realtorId: nat, p: Param, monthOf: int -> string)
    returns (reply: StatsReply)
    ensures reply.StatsOk? <==> QueryDays(p).Some? && !t.rangeDown
    ensures reply.StatsOk? ==>
      var f := Filter(LeasesExpiringInRange(t, today, today + QueryDays(p).value).value, ManagedBy(realtorId));
      && reply.stats.totalExpiring == |f|
      && reply.stats.expiring30 == Count(f, Within30(today))
      && reply.stats.expiring60 == Count(f, Within31To60(today))
      && reply.stats.expiring90 == Count(f, Within61To90(today))
      && reply.stats.byMonth == MonthCounts(f, monthOf)
  {
    var n := QueryDays(p);
    if n.None? {
      return StatsFailed;
    }
    var r := LeasesExpiringInRange(t, today, today + n.value);
    if r.Err? {
      return StatsFailed;
    }
    var f := Filter(r.value, ManagedBy(realtorId));
    var s := ComputeStats(f, today, monthOf);
    reply := StatsOk(s);
  }
}
