/** The mail handlers of src/controllers/emailController.js: batches of custom mails,
    mails to a realtor's contacts, and the per-lease reminder with its validation
    chain. The `email_logs` and `lease_reminders` inserts are side effects whose
    failures are swallowed. */
module EmailController {
  import opened Common
  import opened Records
  import opened Ledger
  import opened EmailService
  import opened ReminderService

  /** One `email_logs` row; sent_at is not modelled. */
  datatype LogEntry = LogEntry(
    sentBy: nat, recipient: string, subject: string, message: string,
    emailType: string, contactId: Option<nat>, leaseId: Option<nat>)

  /** The `email_logs` table; `down` makes every insert fail. */
  class EmailLog {
    var entries: seq<LogEntry>
    const down: bool

    constructor (down: bool)
      ensures entries == [] && this.down == down
    {
      entries := [];
      this.down := down;
    }

    method Insert(e: LogEntry)
      modifies this
      ensures entries == LogSpec(old(entries), down, e)
    {
      if !down {
        entries := entries + [e];
      }
    }
  }

  /** logEmailSent: the row is added unless the insert fails, and a failure is only logged. */
  function LogSpec(log: seq<LogEntry>, down: bool, e: LogEntry): (r: seq<LogEntry>)
    ensures |log| <= |r| <= |log| + 1 && r[..|log|] == log
    ensures r != log <==> !down
    ensures !down ==> r[|log|] == e
  {
    if down then log else log + [e]
  }

  /** The days value a reminder was sent for, as the ledger insert sees it. */
  function RecordSpec(rows: seq<Row>, insertDown: set<Key>, leaseId: nat, days: DaysValue, now: int): seq<Row> {
    if days.NotANumber? then rows else InsertSpec(rows, insertDown, Row(leaseId, days.n, now)).1
  }

  /** recordReminderSent never fails its caller: a duplicate, a NaN horizon and a store
      fault all leave the ledger as it was, and otherwise the row is added. */
  lemma RecordSpecFacts(rows: seq<Row>, insertDown: set<Key>, leaseId: nat, days: DaysValue, now: int)
    requires Constrained(rows)
    ensures var r := RecordSpec(rows, insertDown, leaseId, days, now);
      && Constrained(r)
      && (r == rows || (days.Days? && r == rows + [Row(leaseId, days.n, now)]))
      && (days.Days? ==>
            (Holds(r, Key(leaseId, days.n)) <==>
               Holds(rows, Key(leaseId, days.n)) || (Key(leaseId, days.n) !in insertDown && IsHorizon(days.n))))
  {
    if days.Days? {
      InsertKeepsConstraints(rows, insertDown, Row(leaseId, days.n, now));
    }
  }

  // ------------------------------------------------------------------ mails

  /** sendCustomEmail: the message goes out with its line breaks turned into `<br>`. */
  function CustomMail(to: string, subject: string, message: string): Mail {
    Mail(to, "", Plain(subject), ReplaceAll(message, "\n", "<br>"))
  }

  const LeaseSubjectPrefix: string := "Regarding Your Lease - "
  const LeaseCommunicationPrefix: string := "Lease Communication - "

  /** `lease.property?.title || 'Property'`. */
  function TitleOr(l: LeaseRecord): (r: string)
    ensures r != ""
    ensures l.property.Some? && l.property.value.title != "" ==> r == l.property.value.title
  {
    if l.property.Some? && l.property.value.title != "" then l.property.value.title else "Property"
  }

  /** sendCustomLeaseEmail: the landlord's mail with the realtor on copy, then a separate
      internal mail to the realtor. */
  function CustomLeaseMails(l: LeaseRecord): (ms: seq<Mail>)
    requires l.landlord.Some? && l.realtor.Some?
    ensures |ms| == 2
    ensures ms[0].to == l.landlord.value.email && ms[0].cc == l.realtor.value.email
    ensures ms[1].to == l.realtor.value.email && ms[1].cc == ""
    ensures SubjectLine(ms[0].subject) == LeaseSubjectPrefix + TitleOr(l)
    ensures SubjectLine(ms[1].subject) == InternalPrefix + LeaseCommunicationPrefix + TitleOr(l)
  {
    [Mail(l.landlord.value.email, l.realtor.value.email, Plain(LeaseSubjectPrefix + TitleOr(l)), ""),
     Mail(l.realtor.value.email, "", Internal(Plain(LeaseCommunicationPrefix + TitleOr(l))), "")]
  }

  // ---------------------------------------------------------------- batches

  /** How a batch handler treats one item: the mail it would send (None when the item
      fails before a send), the log row written after a send, and its report label. */
  datatype Plan<-T> = Plan(mailOf: T -> Option<Mail>, entryOf: T -> LogEntry, nameOf: T -> string)

  /** What a batch has done so far: mails delivered, log rows, and the labels of the sent
      and failed items. */
  datatype Batch = Batch(delivered: seq<Mail>, log: seq<LogEntry>, sent: seq<string>, failed: seq<string>)

  /** The item was mailed: it had a mail to send and the server took it. */
  function Mailed<T>(undeliverable: set<Mail>, plan: Plan<T>): T -> bool {
    (x: T) => plan.mailOf(x).Some? && plan.mailOf(x).value !in undeliverable
  }

  function NotMailed<T>(undeliverable: set<Mail>, plan: Plan<T>): T -> bool {
    (x: T) => plan.mailOf(x).None? || plan.mailOf(x).value in undeliverable
  }

  /** One iteration of the handler's `for` loop; a failing item is reported and skipped. */
  function BatchStep<T>(b: Batch, undeliverable: set<Mail>, logDown: bool, plan: Plan<T>, x: T): Batch {
    var m := plan.mailOf(x);
    if m.None? || m.value in undeliverable then b.(failed := b.failed + [plan.nameOf(x)])
    else Batch(b.delivered + [m.value], LogSpec(b.log, logDown, plan.entryOf(x)), b.sent + [plan.nameOf(x)], b.failed)
  }

  function RunBatch<T>(b: Batch, undeliverable: set<Mail>, logDown: bool, plan: Plan<T>, items: seq<T>): Batch
    decreases |items|
  {
    if items == [] then b
    else BatchStep(RunBatch(b, undeliverable, logDown, plan, items[..|items| - 1]), undeliverable, logDown, plan, items[|items| - 1])
  }

  /** The mails the server accepted, in item order. */
  function Deliveries<T>(items: seq<T>, undeliverable: set<Mail>, plan: Plan<T>): seq<Mail>
    decreases |items|
  {
    if items == [] then []
    else
      var x := items[|items| - 1];
      Deliveries(items[..|items| - 1], undeliverable, plan)
      + (if Mailed(undeliverable, plan)(x) then [plan.mailOf(x).value] else [])
  }

  lemma MapSnoc<T, U>(s: seq<T>, x: T, f: T -> U)
    ensures Map(s + [x], f) == Map(s, f) + [f(x)]
  {
    assert (s + [x])[..|s|] == s;
  }

  /** The sent list names the mailed items, in order. */
  lemma {:induction false} BatchSent<T>(b: Batch, undeliverable: set<Mail>, logDown: bool, plan: Plan<T>, items: seq<T>)
    decreases |items|
    ensures RunBatch(b, undeliverable, logDown, plan, items).sent
      == b.sent + Map(Filter(items, Mailed(undeliverable, plan)), plan.nameOf)
  {
    if items != [] {
      var init := items[..|items| - 1];
      var x := items[|items| - 1];
      var p := Mailed(undeliverable, plan);
      BatchSent(b, undeliverable, logDown, plan, init);
      var okI := Filter(init, p);
      var before := RunBatch(b, undeliverable, logDown, plan, init);
      assert RunBatch(b, undeliverable, logDown, plan, items)
        == BatchStep(before, undeliverable, logDown, plan, x);
      assert Filter(items, p) == okI + (if p(x) then [x] else []);
      if p(x) {
        MapSnoc(okI, x, plan.nameOf);
        assert BatchStep(before, undeliverable, logDown, plan, x).sent == before.sent + [plan.nameOf(x)];
      } else {
        assert BatchStep(before, undeliverable, logDown, plan, x).sent == before.sent;
        assert okI + [] == okI;
      }
    }
  }

  /** The failed list names the other items, in order. */
  lemma {:induction false} BatchFailed<T>(b: Batch, undeliverable: set<Mail>, logDown: bool, plan: Plan<T>, items: seq<T>)
    decreases |items|
    ensures RunBatch(b, undeliverable, logDown, plan, items).failed
      == b.failed + Map(Filter(items, NotMailed(undeliverable, plan)), plan.nameOf)
  {
    if items != [] {
      var init := items[..|items| - 1];
      var x := items[|items| - 1];
      BatchFailed(b, undeliverable, logDown, plan, init);
      var badI := Filter(init, NotMailed(undeliverable, plan));
      assert RunBatch(b, undeliverable, logDown, plan, items)
        == BatchStep(RunBatch(b, undeliverable, logDown, plan, init), undeliverable, logDown, plan, x);
      if NotMailed(undeliverable, plan)(x) {
        MapSnoc(badI, x, plan.nameOf);
        assert Filter(items, NotMailed(undeliverable, plan)) == badI + [x];
      } else {
        assert Filter(items, NotMailed(undeliverable, plan)) == badI;
      }
    }
  }

  /** The mail log grows by exactly the accepted mails, in item order. */
  lemma {:induction false} BatchMails<T>(b: Batch, undeliverable: set<Mail>, logDown: bool, plan: Plan<T>, items: seq<T>)
    decreases |items|
    ensures RunBatch(b, undeliverable, logDown, plan, items).delivered == b.delivered + Deliveries(items, undeliverable, plan)
  {
    if items != [] {
      BatchMails(b, undeliverable, logDown, plan, items[..|items| - 1]);
    }
  }

  /** The email log gains one row per mailed item, unless its inserts fail. */
  lemma {:induction false} BatchLogged<T>(b: Batch, undeliverable: set<Mail>, logDown: bool, plan: Plan<T>, items: seq<T>)
    decreases |items|
    ensures RunBatch(b, undeliverable, logDown, plan, items).log
      == if logDown then b.log else b.log + Map(Filter(items, Mailed(undeliverable, plan)), plan.entryOf)
  {
    if items != [] {
      var init := items[..|items| - 1];
      var x := items[|items| - 1];
      BatchLogged(b, undeliverable, logDown, plan, init);
      var okI := Filter(init, Mailed(undeliverable, plan));
      if Mailed(undeliverable, plan)(x) {
        MapSnoc(okI, x, plan.entryOf);
        assert Filter(items, Mailed(undeliverable, plan)) == okI + [x];
      } else {
        assert Filter(items, Mailed(undeliverable, plan)) == okI;
      }
    }
  }

  /** Every item lands in exactly one of sent and failed, in order; only mailed items
      reach the mail log and the email log. */
  lemma BatchFacts<T>(b: Batch, undeliverable: set<Mail>, logDown: bool, plan: Plan<T>, items: seq<T>)
    ensures var r := RunBatch(b, undeliverable, logDown, plan, items);
      var ok := Filter(items, Mailed(undeliverable, plan));
      var bad := Filter(items, NotMailed(undeliverable, plan));
      && r.sent == b.sent + Map(ok, plan.nameOf)
      && r.failed == b.failed + Map(bad, plan.nameOf)
      && r.delivered == b.delivered + Deliveries(items, undeliverable, plan)
      && r.log == (if logDown then b.log else b.log + Map(ok, plan.entryOf))
      && |ok| + |bad| == |items|
  {
    BatchSent(b, undeliverable, logDown, plan, items);
    BatchFailed(b, undeliverable, logDown, plan, items);
    BatchMails(b, undeliverable, logDown, plan, items);
    BatchLogged(b, undeliverable, logDown, plan, items);
    FilterCount(items, Mailed(undeliverable, plan));
    FilterCount(items, NotMailed(undeliverable, plan));
    CountComplement(items, Mailed(undeliverable, plan), NotMailed(undeliverable, plan));
  }

  /** A delivered mail is the planned mail of some item, and one the server accepts. */
  lemma {:induction false} DeliveriesFrom<T>(items: seq<T>, undeliverable: set<Mail>, plan: Plan<T>, m: Mail)
    requires m in Deliveries(items, undeliverable, plan)
    ensures m !in undeliverable
    ensures exists x :: x in items && plan.mailOf(x) == Some(m)
    decreases |items|
  {
    var init := items[..|items| - 1];
    var x := items[|items| - 1];
    if m in Deliveries(init, undeliverable, plan) {
      DeliveriesFrom(init, undeliverable, plan, m);
      var y :| y in init && plan.mailOf(y) == Some(m);
      assert y in items;
    } else {
      assert plan.mailOf(x) == Some(m);
    }
  }

  // -------------------------------------------------------------- sendEmails

  /** One entry of the `emails` array; a missing field is "". */
  datatype EmailItem = EmailItem(to: string, subject: string, message: string)

  predicate Complete(e: EmailItem) {
    e.to != "" && e.subject != "" && e.message != ""
  }

  function EmailPlan(realtorId: nat): Plan<EmailItem> {
    Plan((e: EmailItem) => if Complete(e) then Some(CustomMail(e.to, e.subject, e.message)) else None,
         (e: EmailItem) => LogEntry(realtorId, e.to, e.subject, e.message, "custom", None, None),
         (e: EmailItem) => e.to)
  }

  datatype EmailsReply =
    | EmailsRejected   // 400: emails missing, not an array, or empty
    | EmailsSent(sent: seq<string>, failed: seq<string>, total: nat, successCount: nat, errorCount: nat)

  /** The reply of sendEmails from the finished batch. */
  function EmailsReplyOf(emails: Option<seq<EmailItem>>, r: Batch): EmailsReply {
    if emails.None? || emails.value == [] then EmailsRejected
    else EmailsSent(r.sent, r.failed, |emails.value|, |r.sent|, |r.failed|)
  }

  /** Each item adds one name to sent or to failed, and each sent item one mail. */
  lemma {:induction false} BatchCounts<T>(b: Batch, undeliverable: set<Mail>, logDown: bool, plan: Plan<T>, items: seq<T>)
    decreases |items|
    ensures var r := RunBatch(b, undeliverable, logDown, plan, items);
      && |r.sent| + |r.failed| == |b.sent| + |b.failed| + |items|
      && |r.delivered| - |b.delivered| == |r.sent| - |b.sent| >= 0
  {
    if items != [] {
      BatchCounts(b, undeliverable, logDown, plan, items[..|items| - 1]);
    }
  }

  /** An item that is not mailed is reported failed. */
  lemma FailedItem<T>(b: Batch, undeliverable: set<Mail>, logDown: bool, plan: Plan<T>, items: seq<T>, x: T)
    requires x in items && !Mailed(undeliverable, plan)(x)
    ensures plan.nameOf(x) in RunBatch(b, undeliverable, logDown, plan, items).failed
  {
    BatchFailed(b, undeliverable, logDown, plan, items);
    var bad := Filter(items, NotMailed(undeliverable, plan));
    FilterComplete(items, NotMailed(undeliverable, plan), x);
    var k :| 0 <= k < |bad| && bad[k] == x;
    assert Map(bad, plan.nameOf)[k] == plan.nameOf(x);
  }

  /** Every mail the batch added is the planned mail of one of its items. */
  lemma DeliveredItems<T>(b: Batch, undeliverable: set<Mail>, logDown: bool, plan: Plan<T>, items: seq<T>, k: nat)
    requires |b.delivered| <= k < |RunBatch(b, undeliverable, logDown, plan, items).delivered|
    ensures var m := RunBatch(b, undeliverable, logDown, plan, items).delivered[k];
      m !in undeliverable && exists x :: x in items && plan.mailOf(x) == Some(m)
  {
    BatchMails(b, undeliverable, logDown, plan, items);
    var r := RunBatch(b, undeliverable, logDown, plan, items);
    assert r.delivered[k] == Deliveries(items, undeliverable, plan)[k - |b.delivered|];
    DeliveriesFrom(items, undeliverable, plan, r.delivered[k]);
  }

  /** The counts add up and an incomplete item is reported failed. */
  lemma SendEmailsCounts(delivered: seq<Mail>, log: seq<LogEntry>, undeliverable: set<Mail>, logDown: bool,
                         realtorId: nat, emails: seq<EmailItem>)
    requires emails != []
    ensures var r := RunBatch(Batch(delivered, log, [], []), undeliverable, logDown, EmailPlan(realtorId), emails);
      && EmailsReplyOf(Some(emails), r) == EmailsSent(r.sent, r.failed, |emails|, |r.sent|, |r.failed|)
      && |r.sent| + |r.failed| == |emails|
      && |r.delivered| == |delivered| + |r.sent|
      && (forall e :: e in emails && !Complete(e) ==> e.to in r.failed)
  {
    var plan := EmailPlan(realtorId);
    var b := Batch(delivered, log, [], []);
    BatchCounts(b, undeliverable, logDown, plan, emails);
    forall e | e in emails && !Complete(e) ensures e.to in RunBatch(b, undeliverable, logDown, plan, emails).failed {
      FailedItem(b, undeliverable, logDown, plan, emails, e);
    }
  }

  /** Every mail sendEmails sends is the custom mail of a complete item. */
  lemma SendEmailsMails(delivered: seq<Mail>, log: seq<LogEntry>, undeliverable: set<Mail>, logDown: bool,
                        realtorId: nat, emails: seq<EmailItem>, k: nat)
    requires |delivered| <= k < |RunBatch(Batch(delivered, log, [], []), undeliverable, logDown, EmailPlan(realtorId), emails).delivered|
    ensures var r := RunBatch(Batch(delivered, log, [], []), undeliverable, logDown, EmailPlan(realtorId), emails);
      exists e :: e in emails && Complete(e) && r.delivered[k] == CustomMail(e.to, e.subject, e.message)
  {
    var plan := EmailPlan(realtorId);
    var b := Batch(delivered, log, [], []);
    DeliveredItems(b, undeliverable, logDown, plan, emails, k);
    var r := RunBatch(b, undeliverable, logDown, plan, emails);
    var e :| e in emails && plan.mailOf(e) == Some(r.delivered[k]);
    assert Complete(e);
  }

  lemma {:induction false} DeliveriesCount<T>(items: seq<T>, undeliverable: set<Mail>, plan: Plan<T>)
    decreases |items|
    ensures |Deliveries(items, undeliverable, plan)| == |Filter(items, Mailed(undeliverable, plan))|
  {
    if items != [] {
      DeliveriesCount(items[..|items| - 1], undeliverable, plan);
    }
  }

  // ---------------------------------------------------------- sendToContacts

  /** A `contacts` row as the handler's query sees it. */
  datatype ContactRow = ContactRow(contact: Contact, realtorId: nat, active: bool)

  datatype ContactTable = ContactTable(rows: seq<ContactRow>, down: bool)

  function Selected(ids: seq<nat>, realtorId: nat): ContactRow -> bool {
    (r: ContactRow) => r.contact.id in ids && r.realtorId == realtorId && r.active
  }

  function ContactOf(r: ContactRow): Contact {
    r.contact
  }

  /** `.in('id', contactIds).eq('realtor_id', …).eq('is_active', true)`; None is a query error. */
  function FetchContacts(t: ContactTable, ids: seq<nat>, realtorId: nat): (r: Option<seq<Contact>>)
    ensures r.Some? <==> !t.down
    ensures r.Some? ==> forall c :: c in r.value <==>
      exists row :: row in t.rows && row.contact == c && c.id in ids && row.realtorId == realtorId && row.active
  {
    if t.down then None
    else
      var f := Filter(t.rows, Selected(ids, realtorId));
      ScanRows(t.rows, Selected(ids, realtorId));
      MapMembers(f, ContactOf);
      Some(Map(f, ContactOf))
  }

  lemma ScanRows(s: seq<ContactRow>, p: ContactRow -> bool)
    ensures forall r :: r in Filter(s, p) <==> r in s && p(r)
  {
    forall r | r in s && p(r) ensures r in Filter(s, p) {
      FilterComplete(s, p, r);
    }
  }

  lemma MapMembers<T, U>(s: seq<T>, f: T -> U)
    ensures forall y :: y in Map(s, f) <==> exists x :: x in s && f(x) == y
  {
    forall y | y in Map(s, f) ensures exists x :: x in s && f(x) == y {
      var i :| 0 <= i < |s| && Map(s, f)[i] == y;
      assert s[i] in s;
    }
    forall y | exists x :: x in s && f(x) == y ensures y in Map(s, f) {
      var x :| x in s && f(x) == y;
      var i :| 0 <= i < |s| && s[i] == x;
      assert Map(s, f)[i] == y;
    }
  }

  const NamePlaceholder: string := "{contact_name}"

  /** `${contact.first_name} ${contact.last_name}` */
  function FullName(c: Contact): string {
    c.firstName + " " + c.lastName
  }

  /** The mail to one contact: the placeholder filled with the contact's name, which
      JavaScript reads as a replacement text with its `$` patterns. */
  function ContactMail(c: Contact, subject: string, message: string): Mail {
    CustomMail(c.email, subject, JsReplaceAll(message, NamePlaceholder, FullName(c)))
  }

  /** A contact without an email fails without a send; so does every contact when the
      message is absent, since `message.replace` throws inside the loop's try. */
  function ContactPlan(realtorId: nat, subject: string, message: Option<string>): Plan<Contact> {
    Plan((c: Contact) => if c.email == "" || message.None? then None else Some(ContactMail(c, subject, message.value)),
         (c: Contact) => LogEntry(realtorId, c.email, subject, if message.Some? then message.value else "", "contact", Some(c.id), None),
         (c: Contact) => FullName(c))
  }

  /** A template is message text with placeholders: the pieces between them hold no '{'. */
  ghost predicate PlainPieces(parts: seq<string>) {
    forall k, i :: 0 <= k < |parts| && 0 <= i < |parts[k]| ==> parts[k][i] != '{'
  }

  /** When the contact's name holds no `$` pattern, every placeholder of the template is
      replaced by the name; the log keeps the template as written whatever the name. */
  lemma ContactMailFill(c: Contact, subject: string, parts: seq<string>, realtorId: nat)
    requires PlainPieces(parts)
    ensures var template := Join(parts, NamePlaceholder);
      && (Literal(FullName(c)) ==>
            ContactMail(c, subject, template).body == ReplaceAll(Join(parts, FullName(c)), "\n", "<br>"))
      && ContactPlan(realtorId, subject, Some(template)).entryOf(c).message == template
  {
    if Literal(FullName(c)) {
      JsReplaceLiteral(Join(parts, NamePlaceholder), NamePlaceholder, FullName(c));
      ReplaceJoin(parts, NamePlaceholder, FullName(c));
    }
  }

  /** A name holding `$&` is not inserted as written: for a contact named "A$&" the
      message "{contact_name}" becomes "A{contact_name} ", the match put back in place
      of the pattern. */
  lemma ContactNameDollar(id: nat, email: string, subject: string)
    ensures ContactMail(Contact(id, "A$&", "", email), subject, NamePlaceholder).body == "A{contact_name} "
  {
    var name := FullName(Contact(id, "A$&", "", email));
    var pat := NamePlaceholder;
    var blank := [' '];
    assert name == ['A'] + ("$&" + blank);
    ExpandPlain(' ', [], pat, [], []);
    assert Expand(blank, pat, [], []) == blank by {
      assert blank == [' '] + [];
    }
    ExpandMatch(blank, pat, [], []);
    ExpandPlain('A', "$&" + blank, pat, [], []);
    JsReplaceWhole(pat, name);
    var filled := ['A'] + (pat + blank);
    assert JsReplaceAll(pat, pat, name) == filled;
    assert forall i :: 0 <= i < |filled| ==> filled[i] != '\n';
    ReplaceSkip(filled, [], "\n", "<br>");
    assert filled + [] == filled;
    assert filled == "A{contact_name} ";
  }

  /** Contacts without an email are reported failed and never mailed, and without a
      message nothing is mailed at all. */
  lemma ContactsWithoutEmail(delivered: seq<Mail>, log: seq<LogEntry>, undeliverable: set<Mail>, logDown: bool,
                             realtorId: nat, subject: string, message: Option<string>, contacts: seq<Contact>)
    ensures var plan := ContactPlan(realtorId, subject, message);
      var r := RunBatch(Batch(delivered, log, [], []), undeliverable, logDown, plan, contacts);
      && |r.sent| + |r.failed| == |contacts|
      && (forall c :: c in contacts && c.email == "" ==> FullName(c) in r.failed)
      && (forall k :: |delivered| <= k < |r.delivered| ==> r.delivered[k].to != "")
      && (message.None? ==> r.delivered == delivered)
  {
    var plan := ContactPlan(realtorId, subject, message);
    var b := Batch(delivered, log, [], []);
    BatchCounts(b, undeliverable, logDown, plan, contacts);
    var r := RunBatch(b, undeliverable, logDown, plan, contacts);
    forall c | c in contacts && c.email == "" ensures FullName(c) in r.failed {
      FailedItem(b, undeliverable, logDown, plan, contacts, c);
    }
    forall k | |delivered| <= k < |r.delivered| ensures r.delivered[k].to != "" {
      DeliveredItems(b, undeliverable, logDown, plan, contacts, k);
    }
    if message.None? && |r.delivered| > |delivered| {
      DeliveredItems(b, undeliverable, logDown, plan, contacts, |delivered|);
    }
  }

  datatype ContactsReply =
    | ContactsRejected                                          // 400: contactIds missing or empty
    | ContactsFailed                                            // 500: the contact query failed
    | ContactsSent(sent: seq<string>, failed: seq<string>, total: nat)

  // --------------------------------------------------------- sendLeaseReminder

  predicate ValidReminderType(v: JsonValue) {
    v == Str("30") || v == Str("60") || v == Str("90") || v == Str("custom")
  }

  /** `parseInt(reminderType)`: NaN for 'custom'. */
  function ParsedDays(s: string): DaysValue {
    var p := ParseInt(s);
    if p.Some? && p.value >= 0 then Days(p.value as nat) else NotANumber
  }

  lemma ParsedDaysOfTypes()
    ensures ParsedDays("30") == Days(30)
    ensures ParsedDays("60") == Days(60)
    ensures ParsedDays("90") == Days(90)
    ensures ParsedDays("custom") == NotANumber
  {
    assert NatToString(30) == "30";
    assert NatToString(60) == "60";
    assert NatToString(90) == "90";
    ParseIntOfNat(30);
    ParseIntOfNat(60);
    ParseIntOfNat(90);
    ParseIntOfWord("custom");
  }

  function OwnedBy(leaseId: nat, realtorId: nat): LeaseRecord -> bool {
    (l: LeaseRecord) => l.id == leaseId && l.realtorId == realtorId
  }

  /** `.eq('id', leaseId).eq('realtor_id', realtorId).single()`: exactly one row, else an error. */
  function OwnedLease(t: LeaseTable, leaseId: nat, realtorId: nat): (r: Option<LeaseRecord>)
    ensures r.Some? ==> r.value in t.rows && r.value.id == leaseId && r.value.realtorId == realtorId
  {
    if t.fetchDown then None
    else
      var m := Filter(t.rows, OwnedBy(leaseId, realtorId));
      if |m| == 1 then assert m[0] in m; Some(m[0]) else None
  }

  /** The fetch answers the row when exactly one row has the id and the caller as its
      realtor; it answers nothing when the query fails, when no row matches (a missing
      lease or another realtor's) and when several do. */
  lemma OwnedLeaseCases(t: LeaseTable, leaseId: nat, realtorId: nat, l: LeaseRecord)
    ensures t.fetchDown ==> OwnedLease(t, leaseId, realtorId).None?
    ensures Count(t.rows, OwnedBy(leaseId, realtorId)) != 1 ==> OwnedLease(t, leaseId, realtorId).None?
    ensures !t.fetchDown && Count(t.rows, OwnedBy(leaseId, realtorId)) == 1
            && l in t.rows && l.id == leaseId && l.realtorId == realtorId
            ==> OwnedLease(t, leaseId, realtorId) == Some(l)
  {
    var p := OwnedBy(leaseId, realtorId);
    FilterCount(t.rows, p);
    if l in t.rows && p(l) {
      FilterComplete(t.rows, p, l);
    }
  }

  predicate HasAddresses(l: LeaseRecord) {
    l.landlord.Some? && l.landlord.value.email != "" && l.realtor.Some? && l.realtor.value.email != ""
  }

  datatype LeaseReminderReply =
    | BadReminderType                  // 400 before any lookup
    | NotOwned                         // 404: not found or access denied
    | MissingAddresses                 // 400: landlord or realtor email missing
    | ReminderSent(leaseId: nat, property: Option<string>, landlord: string, reminderType: string)
    | ReminderFailed(error: SendError) // 500

  /** The state these handlers change: the mail log, the reminder ledger, the email log. */
  datatype Desk = Desk(delivered: seq<Mail>, reminders: seq<Row>, log: seq<LogEntry>)

  /** The store and server behaviour, fixed when the collaborators are built. */
  datatype DeskFaults = DeskFaults(undeliverable: set<Mail>, insertDown: set<Key>, logDown: bool)

  function SentReply(l: LeaseRecord, reminderType: string): LeaseReminderReply
    requires l.landlord.Some?
  {
    ReminderSent(l.id, if l.property.Some? then Some(l.property.value.title) else None,
                 FullName(l.landlord.value), reminderType)
  }

  /** sendLeaseReminder: type check, owned-lease fetch, address check, then the branch. */
  function LeaseReminderSpec(d: Desk, f: DeskFaults, t: LeaseTable, realtorId: nat, leaseId: nat,
                             reminderType: JsonValue, customMessage: string, now: int): (r: (Desk, LeaseReminderReply))
    ensures !ValidReminderType(reminderType) ==> r == (d, BadReminderType)
    ensures r.1 == BadReminderType || r.1 == NotOwned || r.1 == MissingAddresses ==> r.0 == d
    ensures ValidReminderType(reminderType) ==>
      var lease := OwnedLease(t, leaseId, realtorId);
      && (lease.None? ==> r == (d, NotOwned))
      && (lease.Some? && !HasAddresses(lease.value) ==> r == (d, MissingAddresses))
      && (lease.Some? && HasAddresses(lease.value) ==>
            r == ReminderBranch(d, f, lease.value, leaseId, reminderType.s, customMessage, now))
  {
    if !ValidReminderType(reminderType) then (d, BadReminderType)
    else
      var lease := OwnedLease(t, leaseId, realtorId);
      if lease.None? then (d, NotOwned)
      else if !HasAddresses(lease.value) then (d, MissingAddresses)
      else ReminderBranch(d, f, lease.value, leaseId, reminderType.s, customMessage, now)
  }

  /** 'custom' with a message sends the custom pair and records nothing; anything else sends
      the standard reminder for parseInt(kind) days and then records it. */
  function ReminderBranch(d: Desk, f: DeskFaults, l: LeaseRecord, leaseId: nat, kind: string,
                          customMessage: string, now: int): (r: (Desk, LeaseReminderReply))
    requires HasAddresses(l)
    ensures r.0.log == d.log
    ensures r.1.ReminderSent? || r.1.ReminderFailed?
  {
    if kind == "custom" && customMessage != "" then
      var ms := CustomLeaseMails(l);
      var p := DeliverPair(d.delivered, f.undeliverable, ms[0], ms[1]);
      if p.0.Err? then (d.(delivered := p.1), ReminderFailed(p.0.error))
      else (d.(delivered := p.1), SentReply(l, kind))
    else
      var days := ParsedDays(kind);
      var p := ReminderDelivery(d.delivered, f.undeliverable, l.landlord.value, l.realtor.value, l, days);
      if p.0.Err? then (d.(delivered := p.1), ReminderFailed(p.0.error))
      else (Desk(p.1, RecordSpec(d.reminders, f.insertDown, leaseId, days, now), d.log), SentReply(l, kind))
  }

  /** Which mails each branch sends. 'custom' with a message sends the custom pair, the
      landlord's mail first; every other type sends the standard reminder pair for
      parseInt(type) days, and sends nothing for a lease without a tenant. A failure on
      the second mail of a pair leaves the first one delivered. */
  lemma BranchMails(d: Desk, f: DeskFaults, l: LeaseRecord, leaseId: nat, kind: string, customMessage: string, now: int)
    requires HasAddresses(l)
    ensures var r := ReminderBranch(d, f, l, leaseId, kind, customMessage, now);
      var u := f.undeliverable;
      if kind == "custom" && customMessage != "" then
        var ms := CustomLeaseMails(l);
        && (r.1.ReminderSent? <==> ms[0] !in u && ms[1] !in u)
        && (r.1.ReminderSent? ==> r.0.delivered == d.delivered + ms)
        && (ms[0] in u ==> r.0 == d && r.1 == ReminderFailed(Rejected(ms[0])))
        && (ms[0] !in u && ms[1] in u ==>
              r.0 == d.(delivered := d.delivered + [ms[0]]) && r.1 == ReminderFailed(Rejected(ms[1])))
      else
        var ms := ReminderMails(l.landlord.value, l.realtor.value, ParsedDays(kind));
        && (r.1.ReminderSent? <==> l.tenant.Some? && ms[0] !in u && ms[1] !in u)
        && (r.1.ReminderSent? ==> r.0.delivered == d.delivered + ms)
        && (l.tenant.None? ==> r.0 == d && r.1 == ReminderFailed(NoTenant))
        && (l.tenant.Some? && ms[0] in u ==> r.0 == d && r.1 == ReminderFailed(Rejected(ms[0])))
        && (l.tenant.Some? && ms[0] !in u && ms[1] in u ==>
              r.0 == d.(delivered := d.delivered + [ms[0]]) && r.1 == ReminderFailed(Rejected(ms[1])))
  {
    if !(kind == "custom" && customMessage != "") {
      ReminderDeliveryCases(d.delivered, f.undeliverable, l.landlord.value, l.realtor.value, l, ParsedDays(kind));
    }
  }

  /** A '30', '60' or '90' request for an owned, addressed lease mails the landlord and
      then the realtor the reminder for that many days, and succeeds exactly when the lease
      has a tenant and both mails are accepted. */
  lemma LeaseReminderMails(d: Desk, f: DeskFaults, t: LeaseTable, realtorId: nat, leaseId: nat,
                           customMessage: string, now: int, h: nat)
    requires IsHorizon(h)
    ensures var r := LeaseReminderSpec(d, f, t, realtorId, leaseId, Str(NatToString(h)), customMessage, now);
      var lease := OwnedLease(t, leaseId, realtorId);
      lease.Some? && HasAddresses(lease.value) ==>
        var ms := ReminderMails(lease.value.landlord.value, lease.value.realtor.value, Days(h));
        && (r.1.ReminderSent? <==> lease.value.tenant.Some? && ms[0] !in f.undeliverable && ms[1] !in f.undeliverable)
        && (r.1.ReminderSent? ==> r.0.delivered == d.delivered + ms)
  {
    var lease := OwnedLease(t, leaseId, realtorId);
    var kind := NatToString(h);
    ParseIntOfNat(h);
    NatTextNotNaN(h);
    assert ParsedDays(kind) == Days(h);
    assert ValidReminderType(Str(kind)) by {
      assert NatToString(30) == "30" && NatToString(60) == "60" && NatToString(90) == "90";
    }
    if lease.Some? && HasAddresses(lease.value) {
      BranchMails(d, f, lease.value, leaseId, kind, customMessage, now);
    }
  }

  lemma BranchRecords(d: Desk, f: DeskFaults, l: LeaseRecord, leaseId: nat, kind: string, customMessage: string, now: int)
    requires HasAddresses(l)
    requires Constrained(d.reminders)
    ensures var r := ReminderBranch(d, f, l, leaseId, kind, customMessage, now);
      && Constrained(r.0.reminders)
      && (kind == "custom" && customMessage != "" ==> r.0.reminders == d.reminders)
      && (kind == "custom" && customMessage == "" ==> r.0.reminders == d.reminders)
      && (r.1.ReminderSent? && ParsedDays(kind).Days? && (kind != "custom" || customMessage == "") ==>
            var n := ParsedDays(kind).n;
            Holds(r.0.reminders, Key(leaseId, n)) <==>
              Holds(d.reminders, Key(leaseId, n)) || (Key(leaseId, n) !in f.insertDown && IsHorizon(n)))
  {
    if kind == "custom" {
      ParseIntOfWord(kind);
    }
    RecordSpecFacts(d.reminders, f.insertDown, leaseId, ParsedDays(kind), now);
  }

  /** Only the standard branch writes the ledger: the ledger keeps its constraints, the
      email log is untouched, and 'custom' never records anything. */
  lemma LeaseReminderRecords(d: Desk, f: DeskFaults, t: LeaseTable, realtorId: nat, leaseId: nat,
                             reminderType: JsonValue, customMessage: string, now: int)
    requires Constrained(d.reminders)
    ensures var r := LeaseReminderSpec(d, f, t, realtorId, leaseId, reminderType, customMessage, now);
      && Constrained(r.0.reminders)
      && r.0.log == d.log
      && (reminderType == Str("custom") ==> r.0.reminders == d.reminders)
  {
    var lease := OwnedLease(t, leaseId, realtorId);
    if ValidReminderType(reminderType) && lease.Some? && HasAddresses(lease.value) {
      BranchRecords(d, f, lease.value, leaseId, reminderType.s, customMessage, now);
    }
  }

  /** A successful '30', '60' or '90' reminder leaves the (lease, horizon) row in the ledger
      unless the insert faults. */
  lemma LeaseReminderHorizon(d: Desk, f: DeskFaults, t: LeaseTable, realtorId: nat, leaseId: nat,
                             customMessage: string, now: int, h: nat)
    requires Constrained(d.reminders)
    requires IsHorizon(h)
    ensures var r := LeaseReminderSpec(d, f, t, realtorId, leaseId, Str(NatToString(h)), customMessage, now);
      r.1.ReminderSent? ==>
        (Holds(r.0.reminders, Key(leaseId, h)) <==> Holds(d.reminders, Key(leaseId, h)) || Key(leaseId, h) !in f.insertDown)
  {
    var lease := OwnedLease(t, leaseId, realtorId);
    var kind := NatToString(h);
    ParseIntOfNat(h);
    NatTextNotNaN(h);
    assert ParsedDays(kind) == Days(h);
    if ValidReminderType(Str(kind)) && lease.Some? && HasAddresses(lease.value) {
      assert LeaseReminderSpec(d, f, t, realtorId, leaseId, Str(kind), customMessage, now)
        == ReminderBranch(d, f, lease.value, leaseId, kind, customMessage, now);
      BranchRecords(d, f, lease.value, leaseId, kind, customMessage, now);
    }
  }

  /** 'custom' without a message falls into the standard branch with NaN days: the
      landlord and realtor receive a "NaN Days Notice" reminder, the ledger insert fails
      silently and the reply is a success. */
  lemma CustomWithoutMessage(d: Desk, f: DeskFaults, l: LeaseRecord, leaseId: nat, now: int)
    requires HasAddresses(l)
    ensures var r := ReminderBranch(d, f, l, leaseId, "custom", "", now);
      && r.0.reminders == d.reminders
      && (r.1.ReminderSent? ==>
            && r.0.delivered == d.delivered + ReminderMails(l.landlord.value, l.realtor.value, NotANumber)
            && SubjectLine(r.0.delivered[|d.delivered|].subject) == ReminderPrefix + "NaN" + ReminderSuffix)
  {
    ParseIntOfWord("custom");
    assert ParsedDays("custom") == NotANumber;
  }

  // ----------------------------------------------------------- the handlers

  class Mailroom {
    const transport: Transport
    const ledger: ReminderLedger
    const log: EmailLog

    constructor (transport: Transport, ledger: ReminderLedger, log: EmailLog)
      ensures this.transport == transport && this.ledger == ledger && this.log == log
    {
      this.transport := transport;
      this.ledger := ledger;
      this.log := log;
    }

    function State(): Desk
      reads transport, ledger, log
    {
      Desk(transport.delivered, ledger.rows, log.entries)
    }

    function Faults(): DeskFaults {
      DeskFaults(transport.undeliverable, ledger.insertDown, log.down)
    }

    /** The controller's recordReminderSent helper: it returns nothing and never throws. */
    method RecordReminderSent(leaseId: nat, days: DaysValue, now: int)
      requires ledger.Valid()
      modifies ledger
      ensures ledger.Valid()
      ensures ledger.rows == RecordSpec(old(ledger.rows), ledger.insertDown, leaseId, days, now)
    {
      if days.Days? {
        var _ := ledger.Insert(leaseId, days.n, now);
      }
    }

    /** logEmailSent: it returns nothing and never throws. */
    method LogEmailSent(e: LogEntry)
      modifies log
      ensures log.entries == LogSpec(old(log.entries), log.down, e)
    {
      log.Insert(e);
    }

    /** The per-item loop shared by sendEmails and sendToContacts. */
    method RunItems<T>(items: seq<T>, plan: Plan<T>) returns (sent: seq<string>, failed: seq<string>)
      modifies transport, log
      ensures Batch(transport.delivered, log.entries, sent, failed)
        == RunBatch(Batch(old(transport.delivered), old(log.entries), [], []), transport.undeliverable, log.down, plan, items)
    {
      ghost var b0 := Batch(transport.delivered, log.entries, [], []);
      sent, failed := [], [];
      for i := 0 to |items|
        invariant Batch(transport.delivered, log.entries, sent, failed)
          == RunBatch(b0, transport.undeliverable, log.down, plan, items[..i])
      {
        assert items[..i + 1][..i] == items[..i];
        var x := items[i];
        var m := plan.mailOf(x);
        if m.None? {
          failed := failed + [plan.nameOf(x)];
          continue;
        }
        var ok := transport.SendMail(m.value);
        if !ok {
          failed := failed + [plan.nameOf(x)];
          continue;
        }
        LogEmailSent(plan.entryOf(x));
        sent := sent + [plan.nameOf(x)];
      }
      assert items[..|items|] == items;
    }

    method SendEmails(realtorId: nat, emails: Option<seq<EmailItem>>) returns (reply: EmailsReply)
      modifies transport, log
      ensures var r := RunBatch(Batch(old(transport.delivered), old(log.entries), [], []), transport.undeliverable, log.down,
                                EmailPlan(realtorId), if emails.Some? then emails.value else []);
        && reply == EmailsReplyOf(emails, r)
        && transport.delivered == r.delivered && log.entries == r.log
    {
      if emails.None? || emails.value == [] {
        return EmailsRejected;
      }
      var sent, failed := RunItems(emails.value, EmailPlan(realtorId));
      reply := EmailsSent(sent, failed, |emails.value|, |sent|, |failed|);
    }

    method SendToContacts(realtorId: nat, contacts: ContactTable, contactIds: Option<seq<nat>>,
                          subject: string, message: Option<string>) returns (reply: ContactsReply)
      modifies transport, log
      ensures contactIds.None? || contactIds.value == [] ==>
        reply == ContactsRejected && transport.delivered == old(transport.delivered) && log.entries == old(log.entries)
      ensures contactIds.Some? && contactIds.value != [] && contacts.down ==>
        reply == ContactsFailed && transport.delivered == old(transport.delivered) && log.entries == old(log.entries)
      ensures contactIds.Some? && contactIds.value != [] && !contacts.down ==>
        var cs := FetchContacts(contacts, contactIds.value, realtorId).value;
        var r := RunBatch(Batch(old(transport.delivered), old(log.entries), [], []), transport.undeliverable, log.down,
                          ContactPlan(realtorId, subject, message), cs);
        && reply == ContactsSent(r.sent, r.failed, |cs|)
        && transport.delivered == r.delivered && log.entries == r.log
    {
      if contactIds.None? || contactIds.value == [] {
        return ContactsRejected;
      }
      var cs := FetchContacts(contacts, contactIds.value, realtorId);
      if cs.None? {
        return ContactsFailed;
      }
      var sent, failed := RunItems(cs.value, ContactPlan(realtorId, subject, message));
      reply := ContactsSent(sent, failed, |cs.value|);
    }

    /** sendCustomLeaseEmail: two awaited sends, the second only after the first. */
    method SendCustomLeaseEmail(l: LeaseRecord) returns (r: Result<bool, SendError>)
      requires l.landlord.Some? && l.realtor.Some?
      modifies transport
      ensures var ms := CustomLeaseMails(l);
        (r, transport.delivered) == DeliverPair(old(transport.delivered), transport.undeliverable, ms[0], ms[1])
    {
      var ms := CustomLeaseMails(l);
      ghost var d0 := transport.delivered;
      var ok := transport.SendMail(ms[0]);
      if !ok {
        return Err(Rejected(ms[0]));
      }
      ok := transport.SendMail(ms[1]);
      if !ok {
        return Err(Rejected(ms[1]));
      }
      assert transport.delivered == d0 + [ms[0], ms[1]];
      r := Ok(true);
    }

    method SendLeaseReminder(t: LeaseTable, realtorId: nat, leaseId: nat, reminderType: JsonValue,
                             customMessage: string, now: int) returns (reply: LeaseReminderReply)
      requires ledger.Valid()
      modifies transport, ledger
      ensures ledger.Valid()
      ensures (State(), reply)
        == LeaseReminderSpec(old(State()), Faults(), t, realtorId, leaseId, reminderType, customMessage, now)
    {
      if !ValidReminderType(reminderType) {
        return BadReminderType;
      }
      var lease := OwnedLease(t, leaseId, realtorId);
      if lease.None? {
        return NotOwned;
      }
      var l := lease.value;
      if !HasAddresses(l) {
        return MissingAddresses;
      }
      if reminderType.s == "custom" && customMessage != "" {
        var r := SendCustomLeaseEmail(l);
        if r.Err? {
          return ReminderFailed(r.error);
        }
      } else {
        var days := ParsedDays(reminderType.s);
        var r := SendLeaseExpirationReminder(transport, l.landlord.value, l.realtor.value, l, days);
        if r.Err? {
          return ReminderFailed(r.error);
        }
        RecordReminderSent(leaseId, days, now);
      }
      reply := SentReply(l, reminderType.s);
    }
  }
}
