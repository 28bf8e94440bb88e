/** The rows the reminder core reads: a lease joined with its property, tenant,
    landlord and managing realtor (the `select` lists of leaseReminderService.js).
    A missing joined row is None; a missing or empty text column is "". */
module Records {
  import opened Common

  datatype LeaseStatus = Active | Expired | Terminated | Pending

  datatype Contact = Contact(id: nat, firstName: string, lastName: string, email: string)

  datatype Property = Property(title: string, street: string, city: string, state: string, zipCode: string)

  datatype LeaseRecord = LeaseRecord(
    id: nat,
    endDate: int,               // day number of end_date
    status: LeaseStatus,
    realtorId: nat,             // the owning realtor_id column
    property: Option<Property>,
    tenant: Option<Contact>,
    landlord: Option<Contact>,
    realtor: Option<Contact>)

  /** Only active or pending leases are scanned for reminders. */
  predicate Eligible(l: LeaseRecord) {
    l.status == Active || l.status == Pending
  }

  /** A field of a JSON request body: absent (undefined), null, a boolean, an integer, a
      string, an array of values, or an object (whose members the core never reads). */
  datatype JsonValue = Missing | Null | Bool(b: bool) | Num(n: int) | Str(s: string) | Arr(items: seq<JsonValue>) | Obj

  /** `String(v)`, the text `parseInt` reads: an array is its elements' texts joined with
      ",", where a null or undefined element gives the empty text. */
  function JsText(v: JsonValue): string
    decreases v
  {
    match v
    case Missing => "undefined"
    case Null => "null"
    case Bool(b) => if b then "true" else "false"
    case Num(n) => IntText(n)
    case Str(s) => s
    case Arr(items) => ElementsText(items)
    case Obj => "[object Object]"
  }

  /** `Array.prototype.join(",")` over the elements' texts. */
  function ElementsText(items: seq<JsonValue>): string
    decreases items
  {
    if items == [] then ""
    else
      var head := if items[0].Missing? || items[0].Null? then "" else JsText(items[0]);
      if |items| == 1 then head else head + "," + ElementsText(items[1..])
  }

  /** JavaScript falsiness of a body field. */
  predicate Falsy(v: JsonValue) {
    v.Missing? || v.Null? || v == Bool(false) || v == Num(0) || v == Str("")
  }
}
