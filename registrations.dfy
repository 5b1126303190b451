/** The server side of main.py: the `registrations` table as a map from row
    id to record, and the handlers that insert into it, flip rows to paid,
    read one row and count rows. Outcomes of the database client, of the
    payment provider and of uuid generation enter as parameters.
    register_user, verify_payment, get_registration and get_stats wrap
    their bodies in a broad `except Exception` that re-raises as HTTP 500,
    so the 400s and 404s raised inside reach the client as 500;
    paystack_webhook instead answers with an "error" status. */
module Registrations {
  import opened Wrappers

  const Pending := "pending"
  const Paid := "paid"
  const InPerson := "in-person"
  const ReferencePrefix := "DE2026-"
  /** The status code of every HTTPException the handlers let escape. */
  const ServerError := 500

  /** The validated body of POST /api/register. */
  datatype Application = Application(
    fullName: string,
    email: string,
    phone: string,
    attendanceMode: string,
    church: Option<string>,
    specialNeeds: Option<string>,
    newsletter: bool)

  /** A row of the table (its timestamps and the paid amount, a float, are
      not modelled). */
  datatype Record = Record(
    fullName: string,
    email: string,
    phone: string,
    attendanceMode: string,
    church: Option<string>,
    specialNeeds: Option<string>,
    newsletter: bool,
    paymentStatus: string,
    reference: string)

  /** What a handler answers: a JSON body, or an HTTPException's status. */
  datatype Reply<T> = Ok(body: T) | HttpError(status: int)

  /** The body register_user returns. */
  datatype Registered = Registered(status: string, message: string, registrationId: int, reference: string)

  /** How the insert ends: the table assigns the new row an id, or the
      result carries no data, or the client raises. */
  datatype InsertOutcome = Inserted(id: int) | NoData | InsertRaised

  // -----------------------------------------------------------------------
  // Transaction references: f"DE2026-{uuid.uuid4().hex[:12].upper()}"

  predicate IsLowerHexDigit(c: char) {
    '0' <= c <= '9' || 'a' <= c <= 'f'
  }

  predicate IsUpperHexDigit(c: char) {
    '0' <= c <= '9' || 'A' <= c <= 'F'
  }

  /** The `hex` attribute of a UUID: 32 lower-case hexadecimal digits. */
  predicate IsUuidHex(hex: string) {
    |hex| == 32 && forall k :: 0 <= k < |hex| ==> IsLowerHexDigit(hex[k])
  }

  /** str.upper on the characters that can occur here (ASCII letters). */
  function UpperChar(c: char): (u: char) {
    if 'a' <= c <= 'z' then (c as int - 32) as char else c
  }

  function LowerChar(c: char): (l: char) {
    if 'A' <= c <= 'Z' then (c as int + 32) as char else c
  }

  function Upper(s: string): (r: string)
    ensures |r| == |s| && forall k :: 0 <= k < |s| ==> r[k] == UpperChar(s[k])
  {
    if s == [] then [] else [UpperChar(s[0])] + Upper(s[1..])
  }

  function Lower(s: string): (r: string)
    ensures |r| == |s| && forall k :: 0 <= k < |s| ==> r[k] == LowerChar(s[k])
  {
    if s == [] then [] else [LowerChar(s[0])] + Lower(s[1..])
  }

  /** The shape of every reference the server issues. */
  predicate IsReference(r: string) {
    |r| == 19 && r[..7] == ReferencePrefix
    && forall k :: 7 <= k < 19 ==> IsUpperHexDigit(r[k])
  }

  /** The reference register_user generates from a UUID's hex digits: 19
      characters, the event prefix and twelve upper-case hex digits. */
  function TransactionReference(hex: string): (r: string)
    requires IsUuidHex(hex)
    ensures IsReference(r)
  {
    ReferencePrefix + Upper(hex[..12])
  }

  /** The reference keeps the first twelve hex digits: lower-casing its tail
      gives them back, so different leading digits give different references. */
  lemma ReferenceKeepsDigits(hex: string)
    requires IsUuidHex(hex)
    ensures Lower(TransactionReference(hex)[7..]) == hex[..12]
  {
    var r := TransactionReference(hex);
    assert r[7..] == Upper(hex[..12]);
    forall k | 0 <= k < 12 ensures Lower(r[7..])[k] == hex[k] {
      assert IsLowerHexDigit(hex[k]);
    }
  }

  lemma ReferenceInjective(hex1: string, hex2: string)
    requires IsUuidHex(hex1) && IsUuidHex(hex2)
    requires TransactionReference(hex1) == TransactionReference(hex2)
    ensures hex1[..12] == hex2[..12]
  {
    ReferenceKeepsDigits(hex1);
    ReferenceKeepsDigits(hex2);
  }

  // -----------------------------------------------------------------------
  // Table operations as values

  /** The row register_user inserts. */
  function NewRecord(app: Application, reference: string): (r: Record) {
    Record(app.fullName, app.email, app.phone, app.attendanceMode, app.church,
           app.specialNeeds, app.newsletter, Pending, reference)
  }

  predicate HasReference(rows: map<int, Record>, reference: string) {
    exists id :: id in rows && rows[id].reference == reference
  }

  /** `update({"payment_status": "paid", ...}).eq("transaction_reference", reference)`. */
  function MarkPaid(rows: map<int, Record>, reference: string): (r: map<int, Record>)
    ensures r.Keys == rows.Keys
  {
    map id | id in rows :: if rows[id].reference == reference then rows[id].(paymentStatus := Paid) else rows[id]
  }

  /** The update touches only rows with that reference, and of those only
      the payment status, which becomes "paid". */
  lemma MarkPaidTouchesOnlyMatches(rows: map<int, Record>, reference: string, id: int)
    requires id in rows
    ensures rows[id].reference != reference ==> MarkPaid(rows, reference)[id] == rows[id]
    ensures rows[id].reference == reference ==>
      MarkPaid(rows, reference)[id].paymentStatus == Paid
      && MarkPaid(rows, reference)[id].(paymentStatus := rows[id].paymentStatus) == rows[id]
  {
  }

  /** Flipping the same reference again changes nothing. */
  lemma MarkPaidIdempotent(rows: map<int, Record>, reference: string)
    ensures MarkPaid(MarkPaid(rows, reference), reference) == MarkPaid(rows, reference)
  {
    var once := MarkPaid(rows, reference);
    var twice := MarkPaid(once, reference);
    forall id | id in rows ensures twice[id] == once[id] {
    }
    assert twice.Keys == once.Keys;
  }

  /** With no row under the reference, the update is a no-op. */
  lemma MarkPaidWithoutMatch(rows: map<int, Record>, reference: string)
    requires !HasReference(rows, reference)
    ensures MarkPaid(rows, reference) == rows
  {
    var r := MarkPaid(rows, reference);
    forall id | id in rows ensures r[id] == rows[id] {
    }
  }

  // -----------------------------------------------------------------------
  // Statistics: get_stats

  function PaidIds(rows: map<int, Record>): (ids: set<int>) {
    set id | id in rows && rows[id].paymentStatus == Paid
  }

  function InPersonPaidIds(rows: map<int, Record>): (ids: set<int>) {
    set id | id in rows && rows[id].paymentStatus == Paid && rows[id].attendanceMode == InPerson
  }

  /** Paid rows whose attendance mode is anything but "in-person". */
  function OtherPaidIds(rows: map<int, Record>): (ids: set<int>) {
    set id | id in rows && rows[id].paymentStatus == Paid && rows[id].attendanceMode != InPerson
  }

  /** `paid.count - in_person.count if paid.count else 0`. */
  function VirtualAttendees(paid: int, inPerson: int): (n: int) {
    if paid != 0 then paid - inPerson else 0
  }

  datatype Stats = Stats(totalRegistrations: int, paidRegistrations: int, inPersonAttendees: int, virtualAttendees: int)

  /** The counts of get_stats over one state of the table. */
  function StatsOf(rows: map<int, Record>): (s: Stats) {
    Stats(|rows|, |PaidIds(rows)|, |InPersonPaidIds(rows)|,
          VirtualAttendees(|PaidIds(rows)|, |InPersonPaidIds(rows)|))
  }

  /** The virtual count is never negative: it is the number of paid rows
      whose attendance mode is not "in-person", whether or not any row is paid. */
  lemma VirtualAttendeesArePaidElsewhere(rows: map<int, Record>)
    ensures StatsOf(rows).virtualAttendees == |OtherPaidIds(rows)|
    ensures 0 <= StatsOf(rows).virtualAttendees <= StatsOf(rows).paidRegistrations
    ensures StatsOf(rows).paidRegistrations <= StatsOf(rows).totalRegistrations
  {
    var paid, inPerson, other := PaidIds(rows), InPersonPaidIds(rows), OtherPaidIds(rows);
    assert paid == inPerson + other;
    assert inPerson * other == {};
    assert |paid| == |inPerson| + |other|;
    var unpaid := rows.Keys - paid;
    assert rows.Keys == paid + unpaid && paid * unpaid == {};
    assert |rows.Keys| == |paid| + |unpaid|;
  }

  // -----------------------------------------------------------------------
  // The handlers over the table

  /** The provider's reply to GET /transaction/verify/{reference}. */
  datatype ProviderReply = ProviderUnreachable | ProviderResponse(statusCode: int, body: Option<ProviderBody>)

  /** The fields verify_payment reads from the provider's JSON: the truth
      value of the top-level `status`, `data.status` (None when absent) and
      whether `data.amount` is a number that can be divided by 100. The body
      is None when it is not JSON or has no top-level `status`. */
  datatype ProviderBody = ProviderBody(status: bool, dataStatus: Option<string>, amountIsNumber: bool)

  /** The provider reports the charge as settled: HTTP 200, a truthy
      `status` and `data.status == "success"`. */
  predicate Confirmed(p: ProviderReply) {
    p.ProviderResponse? && p.statusCode == 200 && p.body.Some?
    && p.body.value.status && p.body.value.dataStatus == Some("success")
  }

  /** The `data` object of a webhook payload: its `reference` and whether
      its `amount` is a number. */
  datatype WebhookData = WebhookData(reference: Option<string>, amountIsNumber: bool)

  /** A webhook request body: not JSON, or its `event` and `data` fields. */
  datatype WebhookPayload = NotJson | WebhookJson(event: Option<string>, data: Option<WebhookData>)

  /** The `status` the webhook answers with. */
  datatype WebhookStatus = Handled | Ignored | Failed

  /** The filter value the database client receives for a reference taken
      from `data.get("reference")`: a missing one is formatted as "None". */
  function FilterValue(reference: Option<string>): (v: string) {
    match reference
    case Some(r) => r
    case None => "None"
  }

  class Ledger {
    /** The registrations table, keyed by row id. */
    var rows: map<int, Record>

    /** Every row holds a reference of the issued shape and a status that is
        "pending" or "paid". */
    ghost predicate Valid()
      reads this
    {
      forall id :: id in rows ==>
        IsReference(rows[id].reference) && (rows[id].paymentStatus == Pending || rows[id].paymentStatus == Paid)
    }

    constructor ()
      ensures Valid() && rows == map[]
    {
      rows := map[];
    }

    /** register_user: on a successful insert the new row is pending under the
        reference built from the UUID's digits and the reply carries its id and that reference;
        an insert without data or one that raises leaves the table as it
        was and reaches the client as 500. */
    method Register(app: Application, hex: string, insert: InsertOutcome) returns (r: Reply<Registered>)
      requires Valid()
      requires IsUuidHex(hex)
      requires insert.Inserted? ==> insert.id !in rows
      modifies this
      ensures Valid()
      ensures insert.Inserted? ==>
        && rows == old(rows)[insert.id := NewRecord(app, TransactionReference(hex))]
        && r == Ok(Registered("success", "Registration created successfully", insert.id, TransactionReference(hex)))
      ensures r.Ok? ==>
        && r.body.registrationId in rows
        && rows[r.body.registrationId].paymentStatus == Pending
        && rows[r.body.registrationId].reference == r.body.reference
        && IsReference(r.body.reference)
      ensures !insert.Inserted? ==> rows == old(rows) && r == HttpError(ServerError)
    {
      var reference := TransactionReference(hex);
      match insert
      case Inserted(id) =>
        rows := rows[id := NewRecord(app, reference)];
        r := Ok(Registered("success", "Registration created successfully", id, reference));
      case NoData =>
        // HTTPException(500) raised inside the try, re-raised as 500
        r := HttpError(ServerError);
      case InsertRaised =>
        r := HttpError(ServerError);
    }

    /** verify_payment: the rows under `reference` become paid exactly when
        the provider confirms the charge, its amount can be read and the
        update goes through; the reply is a paid row under that reference,
        or 500 for every failure, including the 400s raised inside the try
        and an update that matched no row. */
    method VerifyPayment(reference: string, provider: ProviderReply, updateRaises: bool) returns (r: Reply<Record>)
      requires Valid()
      modifies this
      ensures Valid()
      ensures rows == if Confirmed(provider) && provider.body.value.amountIsNumber && !updateRaises
                      then MarkPaid(old(rows), reference) else old(rows)
      ensures r.Ok? <==>
        Confirmed(provider) && provider.body.value.amountIsNumber && !updateRaises && HasReference(old(rows), reference)
      ensures r.Ok? ==> r.body in rows.Values && r.body.reference == reference && r.body.paymentStatus == Paid
      ensures r.HttpError? ==> r.status == ServerError
    {
      if !provider.ProviderResponse? {
        return HttpError(ServerError);
      }
      if provider.statusCode != 200 {
        return HttpError(ServerError);     // 400 raised inside the try
      }
      if provider.body.None? {
        return HttpError(ServerError);     // response.json() or ["status"] raised
      }
      var body := provider.body.value;
      if !body.status {
        return HttpError(ServerError);     // 400 "Payment was not successful"
      }
      if body.dataStatus.None? {
        return HttpError(ServerError);     // KeyError on data.status
      }
      if body.dataStatus.value != "success" {
        return HttpError(ServerError);     // 400 "Payment was not successful"
      }
      if !body.amountIsNumber || updateRaises {
        return HttpError(ServerError);
      }
      if !HasReference(rows, reference) {
        MarkPaidWithoutMatch(rows, reference);
        return HttpError(ServerError);     // 500 "Failed to update payment status"
      }
      var id :| id in rows && rows[id].reference == reference;
      rows := MarkPaid(rows, reference);
      r := Ok(rows[id]);
    }

    /** paystack_webhook: only a "charge.success" event touches the table,
        flipping the rows under the payload's reference to paid (whether or
        not any row matches); any other event is ignored; an exception
        answers "error" instead of raising, with the table unchanged. */
    method Webhook(payload: WebhookPayload, updateRaises: bool) returns (s: WebhookStatus)
      requires Valid()
      modifies this
      ensures Valid()
      ensures payload.NotJson? ==> s == Failed && rows == old(rows)
      ensures payload.WebhookJson? && payload.event != Some("charge.success") ==>
        s == Ignored && rows == old(rows)
      ensures payload.WebhookJson? && payload.event == Some("charge.success") ==>
        if payload.data.Some? && payload.data.value.amountIsNumber && !updateRaises
        then s == Handled && rows == MarkPaid(old(rows), FilterValue(payload.data.value.reference))
        else s == Failed && rows == old(rows)
    {
      if payload.NotJson? {
        return Failed;
      }
      if payload.event != Some("charge.success") {
        return Ignored;
      }
      if payload.data.None? || !payload.data.value.amountIsNumber || updateRaises {
        return Failed;
      }
      rows := MarkPaid(rows, FilterValue(payload.data.value.reference));
      return Handled;
    }

    /** get_registration: the row with that id, or 500 when there is none
        (the 404 raised inside the try is re-raised as 500) or the query raises. */
    method GetRegistration(id: int, queryRaises: bool) returns (r: Reply<Record>)
      ensures r.Ok? <==> id in rows && !queryRaises
      ensures r.Ok? ==> r.body == rows[id]
      ensures r.HttpError? ==> r.status == ServerError
    {
      if queryRaises || id !in rows {
        return HttpError(ServerError);
      }
      return Ok(rows[id]);
    }

    /** get_stats: the three counts over the table and the virtual count
        derived from them, or 500 when a query raises. */
    method GetStats(queryRaises: bool) returns (r: Reply<Stats>)
      ensures queryRaises ==> r == HttpError(ServerError)
      ensures !queryRaises ==>
        && r.Ok?
        && r.body.totalRegistrations == |rows|
        && r.body.paidRegistrations == |PaidIds(rows)|
        && r.body.inPersonAttendees == |InPersonPaidIds(rows)|
        && r.body.virtualAttendees == |OtherPaidIds(rows)|
    {
      if queryRaises {
        return HttpError(ServerError);
      }
      VirtualAttendeesArePaidElsewhere(rows);
      return Ok(StatsOf(rows));
    }
  }
}
