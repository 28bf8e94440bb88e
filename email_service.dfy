/** The reminder mail sender of src/services/emailService.js over a transport whose
    verdict on each mail is fixed when it is built. HTML bodies are not modelled:
    a mail is its addressing and subject. */
module EmailService {
  import opened Common
  import opened Records

  /** The value interpolated as `daysUntilExpiration`: a count of days, or NaN when the
      caller parsed something that is not a number. */
  datatype DaysValue = Days(n: nat) | NotANumber

  /** A subject line before it is rendered to text. */
  datatype Subject =
    | Reminder(days: DaysValue)   // "Lease Expiration Reminder - <days> Days Notice"
    | Internal(inner: Subject)    // "[Internal] <inner>"
    | Plain(text: string)

  /** One message handed to the SMTP transport; `cc` is "" when there is none. `body` is
      the message text a custom mail carries; the HTML templates of the reminder and
      lease mails are not modelled and leave it "". */
  datatype Mail = Mail(to: string, cc: string, subject: Subject, body: string)

  datatype SendError =
    | NoTenant            // the lease has no tenant row: building the content throws
    | Rejected(m: Mail)   // the transport refused this message

  /** The SMTP connection: every accepted mail is appended to `delivered`. */
  class Transport {
    var delivered: seq<Mail>
    const undeliverable: set<Mail>
    const reachable: bool

    constructor (undeliverable: set<Mail>, reachable: bool)
      ensures delivered == []
      ensures this.undeliverable == undeliverable && this.reachable == reachable
    {
      delivered := [];
      this.undeliverable := undeliverable;
      this.reachable := reachable;
    }

    /** `transporter.sendMail`: true when the server accepted the mail. */
    method SendMail(m: Mail) returns (ok: bool)
      modifies this
      ensures ok == (m !in undeliverable)
      ensures delivered == if ok then old(delivered) + [m] else old(delivered)
    {
      ok := m !in undeliverable;
      if ok {
        delivered := delivered + [m];
      }
    }

    /** `transporter.verify`. */
    method Verify() returns (ok: bool)
      ensures ok == reachable
    {
      ok := reachable;
    }
  }

  /** Sends `a`, then `b`, stopping at the first one refused; the source's pairs of
      awaited `sendMail` calls. */
  function DeliverPair(delivered: seq<Mail>, undeliverable: set<Mail>, a: Mail, b: Mail): (r: (Result<bool, SendError>, seq<Mail>))
  {
    if a in undeliverable then (Err(Rejected(a)), delivered)
    else if b in undeliverable then (Err(Rejected(b)), delivered + [a])
    else (Ok(true), delivered + [a, b])
  }

  /** The mail log only ever grows, and by the mails the server accepted. */
  lemma DeliverPairFacts(delivered: seq<Mail>, undeliverable: set<Mail>, a: Mail, b: Mail)
    ensures var (r, d) := DeliverPair(delivered, undeliverable, a, b);
      && (r.Ok? <==> a !in undeliverable && b !in undeliverable)
      && (r.Ok? ==> r.value)
      && |d| >= |delivered| && d[..|delivered|] == delivered
      && (forall m :: m in d[|delivered|..] ==> m !in undeliverable)
  {
    var (r, d) := DeliverPair(delivered, undeliverable, a, b);
    assert d[..|delivered|] == delivered;
    if r.Ok? {
      assert d[|delivered|..] == [a, b];
    } else if a !in undeliverable {
      assert d[|delivered|..] == [a];
    } else {
      assert d[|delivered|..] == [];
    }
  }

  const ReminderPrefix: string := "Lease Expiration Reminder - "
  const ReminderSuffix: string := " Days Notice"
  const InternalPrefix: string := "[Internal] "

  function DaysText(d: DaysValue): (r: string)
    ensures r != []
  {
    if d.Days? then NatToString(d.n) else "NaN"
  }

  lemma NatTextNotNaN(n: nat)
    ensures NatToString(n) != "NaN"
  {
    assert IsDigit(NatToString(n)[0]);
  }

  /** Distinct day values render differently. */
  lemma DaysTextInjective(a: DaysValue, b: DaysValue)
    requires DaysText(a) == DaysText(b)
    ensures a == b
  {
    if a.Days? && b.Days? {
      ParseIntOfNat(a.n);
      ParseIntOfNat(b.n);
    } else if a.Days? {
      NatTextNotNaN(a.n);
    } else if b.Days? {
      NatTextNotNaN(b.n);
    }
  }

  function SubjectLine(s: Subject): string {
    match s
    case Reminder(d) => ReminderPrefix + DaysText(d) + ReminderSuffix
    case Internal(i) => InternalPrefix + SubjectLine(i)
    case Plain(t) => t
  }

  /** Reads the days text back out of a rendered reminder subject. */
  function SubjectDays(line: string): string
    requires |line| >= |ReminderPrefix| + |ReminderSuffix|
  {
    line[|ReminderPrefix|..|line| - |ReminderSuffix|]
  }

  /** The rendered subject gives back the days it was written for. */
  lemma SubjectRoundTrip(d: DaysValue)
    ensures |SubjectLine(Reminder(d))| >= |ReminderPrefix| + |ReminderSuffix|
    ensures SubjectDays(SubjectLine(Reminder(d))) == DaysText(d)
  {
    var line := SubjectLine(Reminder(d));
    assert line[|ReminderPrefix|..|line| - |ReminderSuffix|] == DaysText(d);
  }

  /** Reminders for different horizons never share a subject line. */
  lemma SubjectInjective(a: DaysValue, b: DaysValue)
    requires SubjectLine(Reminder(a)) == SubjectLine(Reminder(b))
    ensures a == b
  {
    SubjectRoundTrip(a);
    SubjectRoundTrip(b);
    DaysTextInjective(a, b);
  }

  /** The realtor's copy carries the landlord's subject behind "[Internal] ". */
  lemma InternalSubjectLine(d: DaysValue)
    ensures SubjectLine(Internal(Reminder(d)))[..|InternalPrefix|] == InternalPrefix
    ensures SubjectLine(Internal(Reminder(d)))[|InternalPrefix|..] == SubjectLine(Reminder(d))
  {
  }

  /** The two reminder mails: the landlord's with the realtor on copy, then the realtor's
      internal copy. */
  function ReminderMails(landlord: Contact, realtor: Contact, days: DaysValue): seq<Mail> {
    [Mail(landlord.email, realtor.email, Reminder(days), ""),
     Mail(realtor.email, "", Internal(Reminder(days)), "")]
  }

  /** sendLeaseExpirationReminder: the tenant's name is read before anything is sent. */
  function ReminderDelivery(delivered: seq<Mail>, undeliverable: set<Mail>, landlord: Contact, realtor: Contact,
                            lease: LeaseRecord, days: DaysValue): (Result<bool, SendError>, seq<Mail>)
  {
    if lease.tenant.None? then (Err(NoTenant), delivered)
    else var ms := ReminderMails(landlord, realtor, days); DeliverPair(delivered, undeliverable, ms[0], ms[1])
  }

  /** Success means both mails went out, landlord's first; a failure on the second mail
      leaves the first one delivered; no tenant sends nothing. */
  lemma ReminderDeliveryCases(delivered: seq<Mail>, undeliverable: set<Mail>, landlord: Contact, realtor: Contact,
                              lease: LeaseRecord, days: DaysValue)
    ensures var ms := ReminderMails(landlord, realtor, days);
      var (r, d) := ReminderDelivery(delivered, undeliverable, landlord, realtor, lease, days);
      && (lease.tenant.None? ==> r == Err(NoTenant) && d == delivered)
      && (lease.tenant.Some? && ms[0] in undeliverable ==> r == Err(Rejected(ms[0])) && d == delivered)
      && (lease.tenant.Some? && ms[0] !in undeliverable && ms[1] in undeliverable ==>
            r == Err(Rejected(ms[1])) && d == delivered + [ms[0]])
      && (r == Ok(true) <==> lease.tenant.Some? && ms[0] !in undeliverable && ms[1] !in undeliverable)
      && (r.Ok? ==> d == delivered + ms)
  {
  }

  method SendLeaseExpirationReminder(t: Transport, landlord: Contact, realtor: Contact, lease: LeaseRecord, days: DaysValue)
    returns (r: Result<bool, SendError>)
    modifies t
    ensures (r, t.delivered) == ReminderDelivery(old(t.delivered), t.undeliverable, landlord, realtor, lease, days)
  {
    if lease.tenant.None? {
      return Err(NoTenant);
    }
    var ms := ReminderMails(landlord, realtor, days);
    ghost var d0 := t.delivered;
    var ok := t.SendMail(ms[0]);
    if !ok {
      return Err(Rejected(ms[0]));
    }
    ok := t.SendMail(ms[1]);
    if !ok {
      return Err(Rejected(ms[1]));
    }
    assert t.delivered == d0 + [ms[0], ms[1]];
    r := Ok(true);
  }

  /** The address parts that are present, in street, city, state, zip order. */
  function AddressParts(p: Property): (r: seq<string>)
    ensures forall i :: 0 <= i < |r| ==> r[i] != ""
  {
    (if p.street != "" then [p.street] else [])
    + (if p.city != "" then [p.city] else [])
    + (if p.state != "" then [p.state] else [])
    + (if p.zipCode != "" then [p.zipCode] else [])
  }

  lemma {:induction false} JoinShape(parts: seq<string>, sep: string)
    requires parts != []
    ensures |Join(parts, sep)| >= |parts[0]|
    ensures Join(parts, sep)[..|parts[0]|] == parts[0]
    ensures |Join(parts, sep)| == |parts[|parts| - 1]| + (|Join(parts, sep)| - |parts[|parts| - 1]|)
  {
    if |parts| > 1 {
      JoinShape(parts[1..], sep);
    }
  }

  lemma {:induction false} JoinLength(parts: seq<string>, sep: string)
    requires parts != []
    ensures |Join(parts, sep)| == SumLengths(parts) + (|parts| - 1) * |sep|
  {
    if |parts| > 1 {
      JoinLength(parts[1..], sep);
    }
  }

  function SumLengths(parts: seq<string>): nat {
    if parts == [] then 0 else |parts[0]| + SumLengths(parts[1..])
  }

  function FormatPropertyAddress(p: Option<Property>): (r: string)
  {
    if p.None? then "Unknown Property"
    else if AddressParts(p.value) == [] then "Unknown Address"
    else Join(AddressParts(p.value), ", ")
  }

  /** The address is never empty, starts with the first present part, and is exactly
      the present parts and a ", " between each two. */
  lemma FormatPropertyAddressFacts(p: Option<Property>)
    ensures FormatPropertyAddress(p) != ""
    ensures p.None? ==> FormatPropertyAddress(p) == "Unknown Property"
    ensures (p.Some? && p.value.street == "" && p.value.city == "" && p.value.state == "" && p.value.zipCode == "")
              ==> FormatPropertyAddress(p) == "Unknown Address"
    ensures p.Some? && AddressParts(p.value) != [] ==>
              && |FormatPropertyAddress(p)| == SumLengths(AddressParts(p.value)) + 2 * (|AddressParts(p.value)| - 1)
              && FormatPropertyAddress(p)[..|AddressParts(p.value)[0]|] == AddressParts(p.value)[0]
    ensures p.Some? && p.value.street != "" ==> FormatPropertyAddress(p)[..|p.value.street|] == p.value.street
  {
    if p.Some? && AddressParts(p.value) != [] {
      var parts := AddressParts(p.value);
      JoinShape(parts, ", ");
      JoinLength(parts, ", ");
      assert parts[0] != "";
    }
  }

  /** A fully filled-in property formats as "street, city, state, zip". */
  lemma FullAddress(p: Property)
    requires p.street != "" && p.city != "" && p.state != "" && p.zipCode != ""
    ensures FormatPropertyAddress(Some(p)) == p.street + ", " + p.city + ", " + p.state + ", " + p.zipCode
  {
    var parts := AddressParts(p);
    assert parts == [p.street, p.city, p.state, p.zipCode];
    assert Join(parts[3..], ", ") == p.zipCode;
    assert Join(parts[2..], ", ") == p.state + ", " + Join(parts[3..], ", ");
    assert Join(parts[1..], ", ") == p.city + ", " + Join(parts[2..], ", ");
  }

  /** `testConnection`: resolves true when the server answers, throws otherwise. */
  method TestConnection(t: Transport) returns (r: Result<bool, string>)
    ensures r.Ok? <==> t.reachable
    ensures r.Ok? ==> r.value
  {
    var ok := t.Verify();
    if ok {
      r := Ok(true);
    } else {
      r := Err("SMTP connection failed");
    }
  }
}
