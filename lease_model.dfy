/** The Lease document of models/Lease.js: its status enumeration and defaults, the
    numeric validators, the currentStatus virtual and the pre-save status hook. The start
    and end dates and the clock are millisecond timestamps, which is what `<` and `>`
    compare on Date values; the hook's `new Date()` is the parameter `now`. A date held
    at 00:00 UTC is therefore already past once that day has begun. */
module LeaseModel {
  import opened Common
  import opened Records

  datatype LeaseType = Fixed | MonthToMonth | Yearly

  /** The `currentStatus` virtual: decided by the dates alone. */
  function CurrentStatus(start: int, end: int, now: int): (r: LeaseStatus)
    ensures r != Terminated
  {
    if now < start then Pending
    else if now > end then Expired
    else Active
  }

  /** The pre-save hook's new status for a document with status `s`. */
  function PreSaveStatus(s: LeaseStatus, start: int, end: int, now: int): LeaseStatus {
    if now < start then Pending
    else if now > end && s != Terminated then Expired
    else if start <= now <= end && s == Pending then Active
    else s
  }

  /** Before the start date the status becomes pending whatever it was; after the end
      date every status except terminated becomes expired; inside the lease period only
      pending changes, to active. */
  lemma PreSaveCases(s: LeaseStatus, start: int, end: int, now: int)
    ensures now < start ==> PreSaveStatus(s, start, end, now) == Pending
    ensures start <= now && end < now ==>
      PreSaveStatus(s, start, end, now) == (if s == Terminated then Terminated else Expired)
    ensures start <= now <= end ==>
      PreSaveStatus(s, start, end, now) == (if s == Pending then Active else s)
  {
  }

  /** Saving twice at the same instant changes nothing more than saving once. */
  lemma PreSaveIdempotent(s: LeaseStatus, start: int, end: int, now: int)
    ensures PreSaveStatus(PreSaveStatus(s, start, end, now), start, end, now) == PreSaveStatus(s, start, end, now)
  {
  }

  /** A pending document (the default) is saved with the status the virtual reports. */
  lemma PendingFollowsDates(start: int, end: int, now: int)
    ensures PreSaveStatus(Pending, start, end, now) == CurrentStatus(start, end, now)
  {
  }

  /** Once the start date is reached a terminated lease stays terminated. */
  lemma TerminatedStays(start: int, end: int, now: int)
    requires start <= now
    ensures PreSaveStatus(Terminated, start, end, now) == Terminated
  {
  }

  /** A lease whose end date is held at 00:00 UTC of its last day is already expired,
      and is saved as expired, at any later instant of that day. */
  lemma ExpiredOnEndDay(s: LeaseStatus, start: int, endDay: int, ms: int)
    requires start <= endDay * DayMs && 0 < ms < DayMs && s != Terminated
    ensures CurrentStatus(start, endDay * DayMs, endDay * DayMs + ms) == Expired
    ensures PreSaveStatus(s, start, endDay * DayMs, endDay * DayMs + ms) == Expired
  {
  }

  const NoticeDefault := 30
  const TermsLimit := 2000

  /** The messages of the schema validators that reject the document's numbers and
      terms, in field order. */
  function SchemaErrors(monthlyRent: int, securityDeposit: int, additionalTerms: string): (r: seq<string>)
    ensures r == [] <==> monthlyRent >= 0 && securityDeposit >= 0 && |additionalTerms| <= TermsLimit
  {
    (if monthlyRent < 0 then ["Monthly rent cannot be negative"] else [])
    + (if securityDeposit < 0 then ["Security deposit cannot be negative"] else [])
    + (if |additionalTerms| > TermsLimit then ["Additional terms cannot be more than 2000 characters"] else [])
  }

  /** A lease document; only the fields the hooks and the numeric and length validators
      look at are kept. */
  class LeaseDocument {
    var startDate: int
    var endDate: int
    var monthlyRent: int
    var securityDeposit: int
    var leaseType: LeaseType
    var status: LeaseStatus
    var renewalOption: bool
    var autoRenewal: bool
    var noticeRequired: int
    var additionalTerms: string

    /** A new document gets the schema defaults. */
    constructor (startDate: int, endDate: int, monthlyRent: int, leaseType: LeaseType)
      ensures this.startDate == startDate && this.endDate == endDate
      ensures this.monthlyRent == monthlyRent && this.leaseType == leaseType
      ensures status == Pending && securityDeposit == 0
      ensures !renewalOption && !autoRenewal && noticeRequired == NoticeDefault
      ensures additionalTerms == ""
    {
      this.startDate := startDate;
      this.endDate := endDate;
      this.monthlyRent := monthlyRent;
      this.leaseType := leaseType;
      status := Pending;
      securityDeposit := 0;
      renewalOption := false;
      autoRenewal := false;
      noticeRequired := NoticeDefault;
      additionalTerms := "";
    }

    /** `save()`: the validators run first; a rejected document is not changed, an
        accepted one has its status updated by the pre-save hook. */
    method Save(now: int) returns (r: Result<LeaseStatus, seq<string>>)
      modifies this
      ensures var errs := SchemaErrors(old(monthlyRent), old(securityDeposit), old(additionalTerms));
        if errs != [] then r == Err(errs) && status == old(status)
        else r == Ok(status) && status == PreSaveStatus(old(status), startDate, endDate, now)
      ensures startDate == old(startDate) && endDate == old(endDate)
      ensures monthlyRent == old(monthlyRent) && securityDeposit == old(securityDeposit)
      ensures leaseType == old(leaseType) && additionalTerms == old(additionalTerms)
      ensures renewalOption == old(renewalOption) && autoRenewal == old(autoRenewal)
      ensures noticeRequired == old(noticeRequired)
    {
      var errs := SchemaErrors(monthlyRent, securityDeposit, additionalTerms);
      if errs != [] {
        return Err(errs);
      }
      if now < startDate {
        status := Pending;
      } else if now > endDate && status != Terminated {
        status := Expired;
      } else if now >= startDate && now <= endDate && status == Pending {
        status := Active;
      }
      r := Ok(status);
    }
  }
}
