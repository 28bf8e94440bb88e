/** The frontend reminder store: the three expiry bands, the grouping by month of
    expiry, the per-lease reminder status and the actions that fetch from the API
    and keep `loading` and `error`. Dates are day numbers; `now` is a parameter. */
module ReminderStore {
  import opened Common

  /** An expiring lease as the store holds it. */
  datatype StoreLease = StoreLease(id: int, endDay: int)

  // ------------------------------------------------------------------ bands

  predicate In30(l: StoreLease, now: int) { l.endDay <= now + 30 }
  predicate In60(l: StoreLease, now: int) { now + 30 < l.endDay <= now + 60 }
  predicate In90(l: StoreLease, now: int) { now + 60 < l.endDay <= now + 90 }

  /** leasesExpiring30Days: everything ending by now+30, already expired ones included. */
  function Expiring30Days(leases: seq<StoreLease>, now: int): seq<StoreLease> {
    Filter(leases, (l: StoreLease) => In30(l, now))
  }

  function Expiring60Days(leases: seq<StoreLease>, now: int): seq<StoreLease> {
    Filter(leases, (l: StoreLease) => In60(l, now))
  }

  function Expiring90Days(leases: seq<StoreLease>, now: int): seq<StoreLease> {
    Filter(leases, (l: StoreLease) => In90(l, now))
  }

  /** Each band holds exactly the leases whose end falls in its interval; the 30-day band
      has no lower bound, so the three bands are disjoint and together hold every lease
      ending by now+90. */
  lemma BandMembership(leases: seq<StoreLease>, now: int, x: StoreLease)
    ensures x in Expiring30Days(leases, now) <==> x in leases && x.endDay <= now + 30
    ensures x in Expiring60Days(leases, now) <==> x in leases && now + 30 < x.endDay <= now + 60
    ensures x in Expiring90Days(leases, now) <==> x in leases && now + 60 < x.endDay <= now + 90
    ensures !(x in Expiring30Days(leases, now) && x in Expiring60Days(leases, now))
    ensures !(x in Expiring30Days(leases, now) && x in Expiring90Days(leases, now))
    ensures !(x in Expiring60Days(leases, now) && x in Expiring90Days(leases, now))
    ensures x in leases && x.endDay <= now + 90 ==>
      x in Expiring30Days(leases, now) || x in Expiring60Days(leases, now) || x in Expiring90Days(leases, now)
  {
    if x in leases {
      if In30(x, now) {
        FilterComplete(leases, (l: StoreLease) => In30(l, now), x);
      }
      if In60(x, now) {
        FilterComplete(leases, (l: StoreLease) => In60(l, now), x);
      }
      if In90(x, now) {
        FilterComplete(leases, (l: StoreLease) => In90(l, now), x);
      }
    }
  }

  // --------------------------------------------------------- month grouping

  /** The YYYY-MM key of a lease; `monthOf` stands for the calendar. */
  function MonthKey(monthOf: int -> string): StoreLease -> string {
    (l: StoreLease) => monthOf(l.endDay)
  }

  /** leasesByExpirationMonth, with the groups in first-insertion order. */
  function ByExpirationMonth(leases: seq<StoreLease>, monthOf: int -> string): seq<(string, seq<StoreLease>)> {
    GroupBy(leases, MonthKey(monthOf))
  }

  /** Each lease is in exactly one group, the one of its month, and each group keeps the
      input order; the group sizes add up to the number of leases. */
  lemma ByExpirationMonthCorrect(leases: seq<StoreLease>, monthOf: int -> string)
    ensures DistinctKeys(ByExpirationMonth(leases, monthOf))
    ensures forall m :: GroupOf(ByExpirationMonth(leases, monthOf), m) == WithKey(leases, MonthKey(monthOf), m)
    ensures forall x, m :: x in leases ==> (x in GroupOf(ByExpirationMonth(leases, monthOf), m) <==> m == monthOf(x.endDay))
    ensures TotalSize(ByExpirationMonth(leases, monthOf)) == |leases|
  {
    GroupByCorrect(leases, MonthKey(monthOf));
    GroupBySize(leases, MonthKey(monthOf));
    forall x, m | x in leases
      ensures x in GroupOf(ByExpirationMonth(leases, monthOf), m) <==> m == monthOf(x.endDay)
    {
      WithKeyMembers(leases, MonthKey(monthOf), m, x);
    }
  }

  // -------------------------------------------------------- reminder status

  datatype HistoryEntry = HistoryEntry(reminderDays: int)

  /** `history.some(h => h.reminder_days === days)`. */
  function SentFor(history: seq<HistoryEntry>, days: int): (r: bool)
    ensures r <==> exists i :: 0 <= i < |history| && history[i].reminderDays == days
  {
    if history == [] then false
    else if history[0].reminderDays == days then true
    else
      var r := SentFor(history[1..], days);
      assert forall i :: 0 < i < |history| ==> history[i] == history[1..][i - 1];
      assert r ==> exists i :: 0 <= i < |history| && history[i].reminderDays == days by {
        if r {
          var j :| 0 <= j < |history[1..]| && history[1..][j].reminderDays == days;
          assert history[j + 1].reminderDays == days;
        }
      }
      r
  }

  datatype SentReminders = SentReminders(sent90: bool, sent60: bool, sent30: bool)

  function SentRemindersOf(history: seq<HistoryEntry>): SentReminders {
    SentReminders(SentFor(history, 90), SentFor(history, 60), SentFor(history, 30))
  }

  predicate IsSent(s: SentReminders, days: int) {
    (days == 90 && s.sent90) || (days == 60 && s.sent60) || (days == 30 && s.sent30)
  }

  datatype Band = Urgent | Warning | Info | Future

  datatype ReminderStatus = ReminderStatus(status: Band, nextReminder: Option<int>, sentReminders: SentReminders)

  /** getReminderStatus for a lease `daysUntil` days from expiry with this history. */
  function StatusFor(daysUntil: int, history: seq<HistoryEntry>): ReminderStatus {
    var s := SentRemindersOf(history);
    if daysUntil <= 30 then
      ReminderStatus(Urgent, if s.sent30 then None else Some(30), s)
    else if daysUntil <= 60 then
      ReminderStatus(Warning, if s.sent60 then (if s.sent30 then None else Some(30)) else Some(60), s)
    else if daysUntil <= 90 then
      ReminderStatus(Info, if s.sent90 then (if s.sent60 then (if s.sent30 then None else Some(30)) else Some(60)) else Some(90), s)
    else
      ReminderStatus(Future, None, s)
  }

  /** The largest horizon a band may still remind at; none for future leases. */
  function BandBound(b: Band): int {
    match b
    case Urgent => 30
    case Warning => 60
    case Info => 90
    case Future => 0
  }

  const Horizons: seq<int> := [90, 60, 30]

  /** The first of `hs` that is at most `bound` and not yet sent. */
  function FirstDue(hs: seq<int>, bound: int, s: SentReminders): (r: Option<int>)
  {
    if hs == [] then None
    else if hs[0] <= bound && !IsSent(s, hs[0]) then Some(hs[0])
    else FirstDue(hs[1..], bound, s)
  }

  lemma {:induction false} FirstDueFacts(hs: seq<int>, bound: int, s: SentReminders)
    ensures var r := FirstDue(hs, bound, s);
      && (r.Some? ==> r.value in hs && r.value <= bound && !IsSent(s, r.value))
      && (r.None? <==> forall i :: 0 <= i < |hs| ==> hs[i] > bound || IsSent(s, hs[i]))
  {
    if hs != [] && !(hs[0] <= bound && !IsSent(s, hs[0])) {
      FirstDueFacts(hs[1..], bound, s);
      assert forall i :: 0 < i < |hs| ==> hs[i] == hs[1..][i - 1];
    }
  }

  /** The band follows the days until expiry, `sent_reminders[h]` says whether the history
      holds horizon h, and the next reminder is the first of 90, 60, 30 within the band's
      bound that is not yet sent (none for a future lease). */
  lemma StatusForSpec(daysUntil: int, history: seq<HistoryEntry>)
    ensures var r := StatusFor(daysUntil, history);
      && r.status == (if daysUntil <= 30 then Urgent else if daysUntil <= 60 then Warning
                      else if daysUntil <= 90 then Info else Future)
      && (forall h :: h in Horizons ==> (IsSent(r.sentReminders, h) <==> exists i :: 0 <= i < |history| && history[i].reminderDays == h))
      && r.nextReminder == FirstDue(Horizons, BandBound(r.status), r.sentReminders)
  {
    var s := SentRemindersOf(history);
    var b := BandBound(StatusFor(daysUntil, history).status);
    assert Horizons[1..] == [60, 30] && [60, 30][1..] == [30] && [30][1..] == [];
    assert FirstDue([30], b, s) == if 30 <= b && !s.sent30 then Some(30) else None;
    assert FirstDue([60, 30], b, s) == if 60 <= b && !s.sent60 then Some(60) else FirstDue([30], b, s);
    assert FirstDue(Horizons, b, s) == if 90 <= b && !s.sent90 then Some(90) else FirstDue([60, 30], b, s);
  }

  /** The next reminder is always an unsent horizon within the band: an urgent lease is
      never offered 60 or 90, and a future lease is offered nothing. */
  lemma NextReminderNeverSent(daysUntil: int, history: seq<HistoryEntry>)
    ensures var r := StatusFor(daysUntil, history);
      && (r.nextReminder.Some? ==> r.nextReminder.value in Horizons && r.nextReminder.value <= BandBound(r.status)
                                   && !IsSent(r.sentReminders, r.nextReminder.value))
      && (r.status == Urgent ==> r.nextReminder != Some(60) && r.nextReminder != Some(90))
      && (r.status == Future ==> r.nextReminder.None?)
  {
    var r := StatusFor(daysUntil, history);
    StatusForSpec(daysUntil, history);
    FirstDueFacts(Horizons, BandBound(r.status), r.sentReminders);
  }

  // ---------------------------------------------------------------- actions

  /** What an API call resolves with (`response.data`, possibly absent), or the server's
      message when it rejects. */
  datatype Reply<T> = Answered(data: Option<T>) | Rejected(message: Option<string>)

  /** `error.response?.data?.message || fallback`: an empty message is falsy too. */
  function ErrorText(message: Option<string>, fallback: string): (r: string)
    ensures message.Some? && message.value != [] ==> r == message.value
    ensures message.None? || message.value == [] ==> r == fallback
  {
    if message.Some? && message.value != [] then message.value else fallback
  }

  function DataOr<T>(data: Option<T>, default: T): T {
    if data.Some? then data.value else default
  }

  const LeasesFallback := "Failed to fetch expiring leases"
  const StatsFallback := "Failed to fetch reminder stats"
  const HistoryFallback := "Failed to fetch reminder history"
  const ManualFallback := "Failed to send manual reminder"
  const CheckFallback := "Failed to run reminder check"

  function HistoryOf(histories: map<int, seq<HistoryEntry>>, leaseId: int): seq<HistoryEntry> {
    if leaseId in histories then histories[leaseId] else []
  }

  class Store {
    var expiringLeases: seq<StoreLease>
    var reminderStats: map<string, int>
    var reminderHistory: map<int, seq<HistoryEntry>>
    var loading: bool
    var error: Option<string>

    constructor ()
      ensures expiringLeases == [] && reminderStats == map[] && reminderHistory == map[]
      ensures !loading && error.None?
    {
      expiringLeases := [];
      reminderStats := map[];
      reminderHistory := map[];
      loading := false;
      error := None;
    }

    /** getReminderStatus, for `today` as the current day. */
    function ReminderStatusOf(lease: StoreLease, today: int): (r: ReminderStatus)
      reads this
      ensures r.status == Urgent <==> lease.endDay - today <= 30
      ensures r.sentReminders == SentRemindersOf(HistoryOf(reminderHistory, lease.id))
    {
      StatusFor(lease.endDay - today, HistoryOf(reminderHistory, lease.id))
    }

    /** fetchExpiringLeases; `threw` says whether the error is rethrown. */
    method FetchExpiringLeases(reply: Reply<seq<StoreLease>>) returns (threw: bool)
      modifies this
      ensures threw <==> reply.Rejected?
      ensures reply.Answered? ==> expiringLeases == DataOr(reply.data, []) && error.None?
      ensures reply.Rejected? ==> expiringLeases == old(expiringLeases) && error == Some(ErrorText(reply.message, LeasesFallback))
      ensures reminderStats == old(reminderStats) && reminderHistory == old(reminderHistory)
      ensures !loading
    {
      loading := true;
      error := None;
      if reply.Answered? {
        expiringLeases := DataOr(reply.data, []);
        threw := false;
      } else {
        error := Some(ErrorText(reply.message, LeasesFallback));
        threw := true;
      }
      loading := false;
    }

    method FetchReminderStats(reply: Reply<map<string, int>>) returns (threw: bool)
      modifies this
      ensures threw <==> reply.Rejected?
      ensures reply.Answered? ==> reminderStats == DataOr(reply.data, map[]) && error.None?
      ensures reply.Rejected? ==> reminderStats == old(reminderStats) && error == Some(ErrorText(reply.message, StatsFallback))
      ensures expiringLeases == old(expiringLeases) && reminderHistory == old(reminderHistory)
      ensures !loading
    {
      loading := true;
      error := None;
      if reply.Answered? {
        reminderStats := DataOr(reply.data, map[]);
        threw := false;
      } else {
        error := Some(ErrorText(reply.message, StatsFallback));
        threw := true;
      }
      loading := false;
    }

    /** fetchReminderHistory overwrites the entry of this lease and no other. */
    method FetchReminderHistory(leaseId: int, reply: Reply<seq<HistoryEntry>>) returns (threw: bool)
      modifies this
      ensures threw <==> reply.Rejected?
      ensures reply.Answered? ==> reminderHistory == old(reminderHistory)[leaseId := DataOr(reply.data, [])] && error.None?
      ensures reply.Rejected? ==> reminderHistory == old(reminderHistory) && error == Some(ErrorText(reply.message, HistoryFallback))
      ensures expiringLeases == old(expiringLeases) && reminderStats == old(reminderStats)
      ensures !loading
    {
      loading := true;
      error := None;
      if reply.Answered? {
        reminderHistory := reminderHistory[leaseId := DataOr(reply.data, [])];
        threw := false;
      } else {
        error := Some(ErrorText(reply.message, HistoryFallback));
        threw := true;
      }
      loading := false;
    }

    /** sendManualReminder: on success the lease's history is fetched again. A failing
        refresh is rethrown into this action's catch, which replaces the refresh's fallback
        message by its own. */
    method SendManualReminder(leaseId: int, send: Reply<bool>, refresh: Reply<seq<HistoryEntry>>) returns (threw: bool)
      modifies this
      ensures threw <==> send.Rejected? || refresh.Rejected?
      ensures send.Rejected? ==> reminderHistory == old(reminderHistory) && error == Some(ErrorText(send.message, ManualFallback))
      ensures send.Answered? && refresh.Rejected? ==> reminderHistory == old(reminderHistory) && error == Some(ErrorText(refresh.message, ManualFallback))
      ensures send.Answered? && refresh.Answered? ==> reminderHistory == old(reminderHistory)[leaseId := DataOr(refresh.data, [])] && error.None?
      ensures expiringLeases == old(expiringLeases) && reminderStats == old(reminderStats)
      ensures !loading
    {
      loading := true;
      error := None;
      if send.Rejected? {
        error := Some(ErrorText(send.message, ManualFallback));
        loading := false;
        return true;
      }
      threw := FetchReminderHistory(leaseId, refresh);
      if threw {
        error := Some(ErrorText(refresh.message, ManualFallback));
      }
      loading := false;
    }

    /** runReminderCheck: after the check both lists are fetched again. */
    method RunReminderCheck(check: Reply<bool>, leases: Reply<seq<StoreLease>>, stats: Reply<map<string, int>>) returns (threw: bool)
      modifies this
      ensures threw <==> check.Rejected? || leases.Rejected? || stats.Rejected?
      ensures check.Rejected? ==> expiringLeases == old(expiringLeases) && reminderStats == old(reminderStats)
                                  && error == Some(ErrorText(check.message, CheckFallback))
      ensures check.Answered? ==> && expiringLeases == (if leases.Answered? then DataOr(leases.data, []) else old(expiringLeases))
                                  && reminderStats == (if stats.Answered? then DataOr(stats.data, map[]) else old(reminderStats))
      ensures check.Answered? && leases.Rejected? ==> error == Some(ErrorText(leases.message, CheckFallback))
      ensures check.Answered? && leases.Answered? && stats.Rejected? ==> error == Some(ErrorText(stats.message, CheckFallback))
      ensures !threw ==> error.None?
      ensures reminderHistory == old(reminderHistory)
      ensures !loading
    {
      loading := true;
      error := None;
      if check.Rejected? {
        error := Some(ErrorText(check.message, CheckFallback));
        loading := false;
        return true;
      }
      var t1 := FetchExpiringLeases(leases);
      var t2 := FetchReminderStats(stats);
      threw := t1 || t2;
      if t1 {
        error := Some(ErrorText(leases.message, CheckFallback));
      } else if t2 {
        error := Some(ErrorText(stats.message, CheckFallback));
      }
      loading := false;
    }

    method ClearError()
      modifies this
      ensures error.None?
      ensures expiringLeases == old(expiringLeases) && reminderStats == old(reminderStats)
      ensures reminderHistory == old(reminderHistory) && loading == old(loading)
    {
      error := None;
    }
  }
}
