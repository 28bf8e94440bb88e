/** The daily job of scripts/lease-reminder-job.js: check the SMTP connection, run the
    sweep, summarise, and exit 1 when anything went wrong. */
module ReminderJob {
  import opened Common
  import opened Records
  import opened EmailService
  import opened Ledger
  import opened ReminderService
  import opened ReminderController

  /** What the job prints: the summary, then the sent outcomes, then the failed ones. */
  datatype JobReport = JobReport(summary: Summary, sentList: seq<Outcome>, errorList: seq<Outcome>)

  function ReportOf(results: seq<Outcome>): (r: JobReport)
    ensures r.summary == Summarize(results)
    ensures forall o :: o in r.sentList <==> o in results && o.status == Sent
    ensures forall o :: o in r.errorList <==> o in results && o.status.Failed?
    ensures |r.sentList| == r.summary.remindersSent && |r.errorList| == r.summary.errors
  {
    FilterCount(results, WasSent);
    FilterCount(results, WasError);
    Members(results, WasSent);
    Members(results, WasError);
    JobReport(Summarize(results), Filter(results, WasSent), Filter(results, WasError))
  }

  lemma Members(s: seq<Outcome>, p: Outcome -> bool)
    ensures forall o :: o in Filter(s, p) <==> o in s && p(o)
  {
    forall o | o in s && p(o) ensures o in Filter(s, p) {
      FilterComplete(s, p, o);
    }
  }

  /** `process.exit(summary.errors > 0 ? 1 : 0)`; a thrown error exits 1 as well. */
  function ExitCode(report: Option<JobReport>): nat {
    if report.None? || report.value.summary.errors > 0 then 1 else 0
  }

  /** The job over the world: None is the catch block (verify or the sweep threw). */
  function JobSpec(w: World, env: Env, reachable: bool, t: LeaseTable, today: int, now: int): (World, Option<JobReport>) {
    if !reachable then (w, None)
    else
      var s := Sweep(w, VisitWith(env, now), t, today, Horizons);
      if s.1.Err? then (s.0, None) else (s.0, Some(ReportOf(s.1.value)))
  }

  /** The connection check comes first: an unreachable server exits 1 with nothing sent
      or recorded. Otherwise the job exits 0 exactly when the sweep completed (every
      horizon scanned) and no outcome is an error; the summary always adds up. */
  lemma JobExit(w: World, env: Env, reachable: bool, t: LeaseTable, today: int, now: int)
    ensures var (w', report) := JobSpec(w, env, reachable, t, today, now);
      && (!reachable ==> w' == w && ExitCode(report) == 1)
      && (ExitCode(report) == 0 <==>
            && reachable
            && ScansUp(t, today, Horizons)
            && var r := Sweep(w, VisitWith(env, now), t, today, Horizons).1;
               r.Ok? &&
               var outs := r.value;
               forall i :: 0 <= i < |outs| ==> !outs[i].status.Failed?)
      && (report.Some? ==>
            report.value.summary.remindersSent + report.value.summary.alreadySent + report.value.summary.errors
              == report.value.summary.totalProcessed)
  {
    if reachable {
      SweepCompletes(w, VisitWith(env, now), t, today, Horizons);
      var s := Sweep(w, VisitWith(env, now), t, today, Horizons);
      if s.1.Ok? {
        CountZero(s.1.value, WasError);
        SummaryPartition(s.1.value);
      }
    }
  }

  /** runLeaseReminderJob against the reminder service. */
  method RunLeaseReminderJob(svc: LeaseReminderService, t: LeaseTable, today: int, now: int) returns (exitCode: nat)
    requires svc.Valid()
    modifies svc.ledger, svc.transport
    ensures svc.Valid()
    ensures var (w, report) := JobSpec(old(svc.State()), svc.Faults(), svc.transport.reachable, t, today, now);
      svc.State() == w && exitCode == ExitCode(report)
  {
    var c := TestConnection(svc.transport);
    if c.Err? {
      return 1;
    }
    var r := svc.CheckAndSendReminders(t, today, now);
    if r.Err? {
      return 1;
    }
    var report := ReportOf(r.value);
    exitCode := if report.summary.errors > 0 then 1 else 0;
  }
}
