/** Manual reconciliation of a provider payment
    (src/app/api/admin/connect-payment/route.ts): a signed-in caller names
    a payment id and a recruiter's email; a payment already stored is
    refused; otherwise the payment is fetched from the provider, stored for
    that recruiter, and credited once if it succeeded with a positive
    amount. */
module ConnectPayment {
  import opened Common
  import opened Store
  import opened Ledger
  import opened WhopEvents

  /** The provider's answer to `GET /payments/<id>`. */
  datatype FetchResult = FetchFailed(httpStatus: int) | Fetched(body: WhopPayment)

  /** The JSON body of the request. */
  datatype ConnectRequest = ConnectRequest(paymentId: Option<string>, recruiterEmail: Option<string>)

  datatype ConnectError =
    | Unauthorized
    | MissingFields
    | PaymentExists
    | RecruiterNotFound
    | ProviderError(httpStatus: int)

  /** The HTTP status the route answers each rejection with: the
      provider's own status for a failed fetch, a client error otherwise,
      and 401 only for a missing session. */
  function HttpStatus(e: ConnectError): (status: int)
    ensures e.ProviderError? ==> status == e.httpStatus
    ensures !e.ProviderError? ==> 400 <= status < 500
    ensures !e.ProviderError? ==> (status == 401 <==> e == Unauthorized)
    ensures !e.ProviderError? ==> (status == 404 <==> e == RecruiterNotFound)
  {
    match e
    case Unauthorized => 401
    case MissingFields => 400
    case PaymentExists => 400
    case RecruiterNotFound => 404
    case ProviderError(status) => status
  }

  /** A successful answer: the payment stored and the credit, if one was made. */
  datatype Connected = Connected(payment: Payment, recruiterEmail: string, ledgerEntry: Option<LedgerEntry>)

  /** `total || 0`. */
  function ManualAmount(p: WhopPayment): Number
  {
    if TruthyNumber(p.total) then p.total.value else Num(0)
  }

  /** `substatus || status || 'unknown'`. */
  function ManualStatus(p: WhopPayment): string
  {
    OrElse(p.substatus, OrElse(p.status, "unknown"))
  }

  function ManualPayment(paymentId: string, body: WhopPayment, recruiter: User, now: nat): Payment
  {
    Payment(paymentId, ManualAmount(body), PaymentCurrency(body.currency), ManualStatus(body),
            body, recruiter.id, now)
  }

  function ManualCredit(paymentId: string, body: WhopPayment, recruiter: User, now: nat): LedgerEntry
  {
    var amount := ManualAmount(body);
    var currency := PaymentCurrency(body.currency);
    LedgerEntry(recruiter.id, amount, currency, Credit,
                "Manually connected payment (" + currency + " " + NumberText(amount) + ")",
                PaymentCreditKey(paymentId), Some(paymentId), now)
  }

  /** The conditions under which the manual path credits: status
      `succeeded`, an amount above 0, and no entry with the key yet. No
      purpose tag is consulted. */
  predicate ManualCredits(ledger: seq<LedgerEntry>, paymentId: string, body: WhopPayment)
  {
    ManualStatus(body) == "succeeded" && Positive(ManualAmount(body))
    && !HasKey(ledger, KeyOf, PaymentCreditKey(paymentId))
  }

  /** The route as a function of the tables, the users, the session, the
      request and the provider, giving the tables afterwards and the answer. */
  function Connect(s: Tables, users: seq<User>, session: Option<Session>, req: ConnectRequest,
                   fetch: string -> FetchResult, now: nat)
    : (r: (Tables, Result<Connected, ConnectError>))
    ensures r.1.Err? ==> r.0 == s
    ensures !SignedIn(session) ==> r.1 == Err(Unauthorized)
    ensures SignedIn(session) && !(Truthy(req.paymentId) && Truthy(req.recruiterEmail)) ==>
              r.1 == Err(MissingFields)
    ensures SignedIn(session) && Truthy(req.paymentId) && Truthy(req.recruiterEmail)
            && HasKey(s.payments, PaymentIdOf, req.paymentId.value) ==>
              r.1 == Err(PaymentExists)
    ensures SignedIn(session) && Truthy(req.paymentId) && Truthy(req.recruiterEmail)
            && !HasKey(s.payments, PaymentIdOf, req.paymentId.value)
            && !HasKey(users, EmailOf, req.recruiterEmail.value) ==>
              r.1 == Err(RecruiterNotFound)
    ensures SignedIn(session) && Truthy(req.paymentId) && Truthy(req.recruiterEmail)
            && !HasKey(s.payments, PaymentIdOf, req.paymentId.value)
            && HasKey(users, EmailOf, req.recruiterEmail.value)
            && fetch(req.paymentId.value).FetchFailed? ==>
              r.1 == Err(ProviderError(fetch(req.paymentId.value).httpStatus))
    ensures r.1.Ok? <==>
              && SignedIn(session) && Truthy(req.paymentId) && Truthy(req.recruiterEmail)
              && !HasKey(s.payments, PaymentIdOf, req.paymentId.value)
              && HasKey(users, EmailOf, req.recruiterEmail.value)
              && fetch(req.paymentId.value).Fetched?
    ensures r.1.Ok? ==>
              && SignedIn(session) && Truthy(req.paymentId)
              && !HasKey(s.payments, PaymentIdOf, req.paymentId.value)
              && fetch(req.paymentId.value).Fetched?
              && var body := fetch(req.paymentId.value).body;
                 var recruiter := FindByKey(users, EmailOf, req.recruiterEmail.value);
                 && recruiter.Some?
                 && r.1.value.payment == ManualPayment(req.paymentId.value, body, recruiter.value, now)
                 && r.1.value.recruiterEmail == recruiter.value.email
                 && r.0.payments == s.payments + [r.1.value.payment]
                 && (r.1.value.ledgerEntry.Some? <==> ManualCredits(s.ledger, req.paymentId.value, body))
                 && (r.1.value.ledgerEntry.Some? ==>
                       r.1.value.ledgerEntry.value == ManualCredit(req.paymentId.value, body, recruiter.value, now)
                       && r.0.ledger == s.ledger + [r.1.value.ledgerEntry.value])
                 && (r.1.value.ledgerEntry.None? ==> r.0.ledger == s.ledger)
    ensures UniqueBy(s.payments, PaymentIdOf) ==> UniqueBy(r.0.payments, PaymentIdOf)
    ensures UniqueBy(s.ledger, KeyOf) ==> UniqueBy(r.0.ledger, KeyOf)
  {
    if !SignedIn(session) then (s, Err(Unauthorized))
    else if !Truthy(req.paymentId) || !Truthy(req.recruiterEmail) then (s, Err(MissingFields))
    else
      var paymentId, email := req.paymentId.value, req.recruiterEmail.value;
      if HasKey(s.payments, PaymentIdOf, paymentId) then (s, Err(PaymentExists))
      else match FindByKey(users, EmailOf, email)
        case None => (s, Err(RecruiterNotFound))
        case Some(recruiter) =>
          match fetch(paymentId)
          case FetchFailed(status) => (s, Err(ProviderError(status)))
          case Fetched(body) =>
            var payment := ManualPayment(paymentId, body, recruiter, now);
            assert UniqueBy(s.payments, PaymentIdOf) ==> UniqueBy(s.payments + [payment], PaymentIdOf) by {
              if UniqueBy(s.payments, PaymentIdOf) { AppendKeepsUnique(s.payments, PaymentIdOf, payment); }
            }
            if ManualCredits(s.ledger, paymentId, body) then
              var e := ManualCredit(paymentId, body, recruiter, now);
              assert UniqueBy(s.ledger, KeyOf) ==> UniqueBy(s.ledger + [e], KeyOf) by {
                if UniqueBy(s.ledger, KeyOf) { AppendKeepsUnique(s.ledger, KeyOf, e); }
              }
              (Tables(s.payments + [payment], s.ledger + [e]), Ok(Connected(payment, recruiter.email, Some(e))))
            else
              (Tables(s.payments + [payment], s.ledger), Ok(Connected(payment, recruiter.email, None)))
  }

  /** `POST /api/admin/connect-payment`. */
  method HandleConnect(payments: PaymentTable, ledger: LedgerTable, users: seq<User>,
                       session: Option<Session>, req: ConnectRequest,
                       fetch: string -> FetchResult, now: nat)
    returns (response: Result<Connected, ConnectError>)
    requires payments.Valid() && ledger.Valid()
    modifies payments, ledger
    ensures payments.Valid() && ledger.Valid()
    ensures (Tables(payments.rows, ledger.rows), response) ==
            Connect(Tables(old(payments.rows), old(ledger.rows)), users, session, req, fetch, now)
  {
    if !SignedIn(session) {
      return Err(Unauthorized);
    }
    if !Truthy(req.paymentId) || !Truthy(req.recruiterEmail) {
      return Err(MissingFields);
    }
    var paymentId, recruiterEmail := req.paymentId.value, req.recruiterEmail.value;

    var existingPayment := FindByKey(payments.rows, PaymentIdOf, paymentId);
    if existingPayment.Some? {
      return Err(PaymentExists);
    }

    var recruiter := FindByKey(users, EmailOf, recruiterEmail);
    if recruiter.None? {
      return Err(RecruiterNotFound);
    }

    var whopResponse := fetch(paymentId);
    if whopResponse.FetchFailed? {
      return Err(ProviderError(whopResponse.httpStatus));
    }
    var body := whopResponse.body;

    var payment := ManualPayment(paymentId, body, recruiter.value, now);
    payments.Create(payment);

    var ledgerEntry: Option<LedgerEntry> := None;
    if ManualStatus(body) == "succeeded" && Positive(ManualAmount(body)) {
      var idempotencyKey := PaymentCreditKey(paymentId);
      var existingEntry := FindByKey(ledger.rows, KeyOf, idempotencyKey);
      if existingEntry.None? {
        var e := ManualCredit(paymentId, body, recruiter.value, now);
        ledger.Create(e);
        ledgerEntry := Some(e);
      }
    }
    return Ok(Connected(payment, recruiter.value.email, ledgerEntry));
  }

  /** When the provider's fetch fails, the route answers with the
      provider's own HTTP status and stores nothing. */
  lemma ProviderStatusForwarded(s: Tables, users: seq<User>, session: Option<Session>, req: ConnectRequest,
                                fetch: string -> FetchResult, now: nat)
    requires SignedIn(session) && Truthy(req.paymentId) && Truthy(req.recruiterEmail)
    requires !HasKey(s.payments, PaymentIdOf, req.paymentId.value)
    requires HasKey(users, EmailOf, req.recruiterEmail.value)
    requires fetch(req.paymentId.value).FetchFailed?
    ensures var r := Connect(s, users, session, req, fetch, now);
            && r.0 == s && r.1.Err?
            && HttpStatus(r.1.error) == fetch(req.paymentId.value).httpStatus
  {
  }

  /** Only a session is required: the admin flag plays no part. */
  lemma ConnectIgnoresAdminFlag(s: Tables, users: seq<User>, a: Option<Session>, b: Option<Session>,
                                req: ConnectRequest, fetch: string -> FetchResult, now: nat)
    requires SignedIn(a) == SignedIn(b)
    ensures Connect(s, users, a, req, fetch, now) == Connect(s, users, b, req, fetch, now)
  {
  }

  /** After the manual path credited a payment, a webhook for the same
      payment adds no second credit. */
  lemma WebhookAfterConnect(s: Tables, users: seq<User>, session: Option<Session>, req: ConnectRequest,
                            fetch: string -> FetchResult, now: nat, ev: WhopEvent, later: nat)
    requires Connect(s, users, session, req, fetch, now).1.Ok?
    requires Connect(s, users, session, req, fetch, now).1.value.ledgerEntry.Some?
    requires ev.data.id == req.paymentId.value
    ensures var after := Connect(s, users, session, req, fetch, now).0;
            Ingest(after, ev, later).ledger == after.ledger
  {
    var after := Connect(s, users, session, req, fetch, now).0;
    var e := Connect(s, users, session, req, fetch, now).1.value.ledgerEntry.value;
    AppendHasKey(s.ledger, KeyOf, e, PaymentCreditKey(ev.data.id));
  }

  /** Once a payment event for an id has been stored, the manual path
      refuses that id and changes nothing. */
  lemma ConnectAfterWebhook(s: Tables, ev: WhopEvent, now: nat, users: seq<User>, session: Option<Session>,
                            req: ConnectRequest, fetch: string -> FetchResult, later: nat)
    requires IsPaymentEvent(ev.eventType) && Truthy(MetadataRecruiter(ev.data))
    requires SignedIn(session) && Truthy(req.recruiterEmail) && req.paymentId == Some(ev.data.id)
    requires ev.data.id != ""
    ensures var after := Ingest(s, ev, now);
            Connect(after, users, session, req, fetch, later) == (after, Err(PaymentExists))
  {
    var after := Ingest(s, ev, now);
    assert FindByKey(after.payments, PaymentIdOf, ev.data.id).Some?;
  }
}
