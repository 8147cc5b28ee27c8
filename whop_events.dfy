/** The payment webhook (src/app/api/whop/events/route.ts): classify the
    event, skip payments without a recruiter, derive the status from the
    event type, upsert the Payment by the provider's id, and for a
    succeeded add-funds payment with a positive amount append one credit
    keyed `payment_<id>` unless that key is already in the ledger. */
module WhopEvents {
  import opened Common
  import opened Store
  import opened Ledger

  /** A webhook body: `{ type, data }`. */
  datatype WhopEvent = WhopEvent(eventType: string, data: WhopPayment)

  const PaymentPending := "payment.pending"
  const PaymentSucceeded := "payment.succeeded"
  const PaymentFailed := "payment.failed"

  /** The purpose tag the checkout attaches to a top-up. */
  const AddFunds := "add_funds"

  /** The state the two payment paths write: the Payment and LedgerEntry rows. */
  datatype Tables = Tables(payments: seq<Payment>, ledger: seq<LedgerEntry>)

  predicate IsPaymentEvent(eventType: string)
  {
    eventType == PaymentPending || eventType == PaymentSucceeded || eventType == PaymentFailed
  }

  /** `metadata?.recruiterId`. */
  function MetadataRecruiter(d: WhopPayment): Option<string>
  {
    if d.metadata.Some? then d.metadata.value.recruiterId else None
  }

  /** `metadata?.type`. */
  function MetadataPurpose(d: WhopPayment): Option<string>
  {
    if d.metadata.Some? then d.metadata.value.purpose else None
  }

  /** `total || parseFloat(metadata?.amount || '0')`: an absent or empty
      metadata amount reads as 0. */
  function WebhookAmount(d: WhopPayment): (n: Number)
    ensures TruthyNumber(d.total) ==> n == d.total.value
    ensures !TruthyNumber(d.total) && d.metadata.Some? && d.metadata.value.amount.Some? ==>
              n == d.metadata.value.amount.value
    ensures !TruthyNumber(d.total) && (d.metadata.None? || d.metadata.value.amount.None?) ==> n == Num(0)
  {
    if TruthyNumber(d.total) then d.total.value
    else if d.metadata.Some? && d.metadata.value.amount.Some? then d.metadata.value.amount.value
    else Num(0)
  }

  /** The stored status: fixed by the event type alone. */
  function EventStatus(eventType: string): string
    requires IsPaymentEvent(eventType)
  {
    if eventType == PaymentPending then "pending"
    else if eventType == PaymentSucceeded then "succeeded"
    else "failed"
  }

  /** The Payment the first event for an id creates. */
  function NewPayment(ev: WhopEvent, now: nat): Payment
    requires IsPaymentEvent(ev.eventType) && MetadataRecruiter(ev.data).Some?
  {
    Payment(ev.data.id, WebhookAmount(ev.data), PaymentCurrency(ev.data.currency),
            EventStatus(ev.eventType), ev.data, MetadataRecruiter(ev.data).value, now)
  }

  /** Whether the event asks for a credit: `payment.succeeded`, purpose
      `add_funds` and an amount above 0. */
  predicate WantsCredit(ev: WhopEvent)
  {
    ev.eventType == PaymentSucceeded && MetadataPurpose(ev.data) == Some(AddFunds)
    && Positive(WebhookAmount(ev.data))
  }

  /** The credit entry for a webhook payment. */
  function WebhookCredit(ev: WhopEvent, recruiterId: string, now: nat): LedgerEntry
  {
    var amount := WebhookAmount(ev.data);
    var currency := PaymentCurrency(ev.data.currency);
    LedgerEntry(recruiterId, amount, currency, Credit,
                "Funds added via payment (" + currency + " " + NumberText(amount) + ")",
                PaymentCreditKey(ev.data.id), Some(ev.data.id), now)
  }

  /** Whether processing the event appends a credit to `ledger`. */
  predicate AppendsCredit(ledger: seq<LedgerEntry>, ev: WhopEvent)
  {
    IsPaymentEvent(ev.eventType) && Truthy(MetadataRecruiter(ev.data)) && WantsCredit(ev)
    && !HasKey(ledger, KeyOf, PaymentCreditKey(ev.data.id))
  }

  /** The webhook handler as a function of the two tables. */
  function Ingest(s: Tables, ev: WhopEvent, now: nat): (r: Tables)
    ensures !IsPaymentEvent(ev.eventType) || !Truthy(MetadataRecruiter(ev.data)) ==> r == s
    ensures AppendsCredit(s.ledger, ev) ==>
              r.ledger == s.ledger + [WebhookCredit(ev, MetadataRecruiter(ev.data).value, now)]
    ensures !AppendsCredit(s.ledger, ev) ==> r.ledger == s.ledger
    ensures IsPaymentEvent(ev.eventType) && Truthy(MetadataRecruiter(ev.data)) ==>
              FindByKey(r.payments, PaymentIdOf, ev.data.id) ==
                if HasKey(s.payments, PaymentIdOf, ev.data.id)
                then Some(FindByKey(s.payments, PaymentIdOf, ev.data.id).value.(
                            status := EventStatus(ev.eventType), metadata := ev.data))
                else Some(NewPayment(ev, now))
    ensures IsPaymentEvent(ev.eventType) && Truthy(MetadataRecruiter(ev.data)) ==>
              r.payments == UpsertPayment(s.payments, NewPayment(ev, now), EventStatus(ev.eventType), ev.data)
    ensures UniqueBy(s.payments, PaymentIdOf) ==> UniqueBy(r.payments, PaymentIdOf)
    ensures UniqueBy(s.ledger, KeyOf) ==> UniqueBy(r.ledger, KeyOf)
  {
    if !IsPaymentEvent(ev.eventType) || !Truthy(MetadataRecruiter(ev.data)) then s
    else
      var status := EventStatus(ev.eventType);
      var payments := UpsertPayment(s.payments, NewPayment(ev, now), status, ev.data);
      if AppendsCredit(s.ledger, ev) then
        var e := WebhookCredit(ev, MetadataRecruiter(ev.data).value, now);
        assert UniqueBy(s.ledger, KeyOf) ==> UniqueBy(s.ledger + [e], KeyOf) by {
          if UniqueBy(s.ledger, KeyOf) { AppendKeepsUnique(s.ledger, KeyOf, e); }
        }
        Tables(payments, s.ledger + [e])
      else
        Tables(payments, s.ledger)
  }

  /** `POST /api/whop/events`. Always answers `received: true`. */
  method HandleEvent(payments: PaymentTable, ledger: LedgerTable, ev: WhopEvent, now: nat)
    returns (received: bool)
    requires payments.Valid() && ledger.Valid()
    modifies payments, ledger
    ensures payments.Valid() && ledger.Valid()
    ensures received
    ensures Tables(payments.rows, ledger.rows) == Ingest(Tables(old(payments.rows), old(ledger.rows)), ev, now)
  {
    var eventType, data := ev.eventType, ev.data;
    if eventType == PaymentPending || eventType == PaymentSucceeded || eventType == PaymentFailed {
      var paymentId := data.id;
      var recruiterId := MetadataRecruiter(data);
      var paymentAmount := WebhookAmount(data);
      var paymentCurrency := PaymentCurrency(data.currency);
      var purpose := MetadataPurpose(data);

      if !Truthy(recruiterId) {
        return true;
      }

      var paymentStatus := if Truthy(data.substatus) then data.substatus else data.status;
      if eventType == PaymentPending {
        paymentStatus := Some("pending");
      } else if eventType == PaymentSucceeded {
        paymentStatus := Some("succeeded");
      } else if eventType == PaymentFailed {
        paymentStatus := Some("failed");
      }

      payments.Upsert(
        Payment(paymentId, paymentAmount, paymentCurrency, paymentStatus.value, data, recruiterId.value, now),
        paymentStatus.value, data);

      if eventType == PaymentSucceeded && purpose == Some(AddFunds) && Positive(paymentAmount) {
        var existing := FindByKey(ledger.rows, KeyOf, PaymentCreditKey(paymentId));
        if existing.None? {
          ledger.Create(WebhookCredit(ev, recruiterId.value, now));
        }
      }
      return true;
    }
    return true;
  }

  // ----------------------------------------------------------------- lemmas

  /** Redelivering an event, at any later time, changes nothing more. */
  lemma IngestIdempotent(s: Tables, ev: WhopEvent, t1: nat, t2: nat)
    ensures Ingest(Ingest(s, ev, t1), ev, t2) == Ingest(s, ev, t1)
  {
    if IsPaymentEvent(ev.eventType) && Truthy(MetadataRecruiter(ev.data)) {
      var r := Ingest(s, ev, t1);
      UpsertIdempotent(s.payments, NewPayment(ev, t1), NewPayment(ev, t2), EventStatus(ev.eventType), ev.data);
      if AppendsCredit(s.ledger, ev) {
        AppendHasKey(s.ledger, KeyOf, WebhookCredit(ev, MetadataRecruiter(ev.data).value, t1),
                     PaymentCreditKey(ev.data.id));
      }
      assert !AppendsCredit(r.ledger, ev);
    }
  }

  /** The effect of one event on any recruiter's balance: the credited
      recruiter's balance rises by exactly the payment amount, every other
      balance stays as it was. */
  lemma IngestBalance(s: Tables, ev: WhopEvent, now: nat, recruiterId: string)
    ensures Balance(Ingest(s, ev, now).ledger, recruiterId) ==
      if AppendsCredit(s.ledger, ev) && MetadataRecruiter(ev.data).value == recruiterId
      then Add(Balance(s.ledger, recruiterId), WebhookAmount(ev.data))
      else Balance(s.ledger, recruiterId)
  {
    if AppendsCredit(s.ledger, ev) {
      BalanceAfterAppend(s.ledger, WebhookCredit(ev, MetadataRecruiter(ev.data).value, now), recruiterId);
    }
  }

  /** Delivering the same succeeded event twice leaves at most one
      `payment_<id>` entry, exactly one when the event credits, and raises
      the balance once. */
  lemma RedeliveryCreditsOnce(s: Tables, ev: WhopEvent, t1: nat, t2: nat, recruiterId: string)
    requires UniqueBy(s.ledger, KeyOf)
    ensures CountKey(Ingest(Ingest(s, ev, t1), ev, t2).ledger, KeyOf, PaymentCreditKey(ev.data.id)) <= 1
    ensures IsPaymentEvent(ev.eventType) && Truthy(MetadataRecruiter(ev.data)) && WantsCredit(ev) ==>
              CountKey(Ingest(Ingest(s, ev, t1), ev, t2).ledger, KeyOf, PaymentCreditKey(ev.data.id)) == 1
    ensures Balance(Ingest(Ingest(s, ev, t1), ev, t2).ledger, recruiterId) ==
            Balance(Ingest(s, ev, t1).ledger, recruiterId)
  {
    IngestIdempotent(s, ev, t1, t2);
    UniqueCountAtMostOne(Ingest(s, ev, t1).ledger, KeyOf, PaymentCreditKey(ev.data.id));
  }

  /** The handler never rewrites or drops a ledger entry: whatever the
      event (a later `payment.failed` included), the old ledger is a prefix
      of the new one and every key present stays present. */
  lemma IngestKeepsEntries(s: Tables, ev: WhopEvent, now: nat, key: string)
    requires HasKey(s.ledger, KeyOf, key)
    ensures var r := Ingest(s, ev, now);
            |s.ledger| <= |r.ledger| && r.ledger[..|s.ledger|] == s.ledger
            && FindByKey(r.ledger, KeyOf, key) == FindByKey(s.ledger, KeyOf, key)
  {
    var r := Ingest(s, ev, now);
    if AppendsCredit(s.ledger, ev) {
      var e := WebhookCredit(ev, MetadataRecruiter(ev.data).value, now);
      var i := IndexOfKey(s.ledger, KeyOf, key);
      assert r.ledger[i] == s.ledger[i];
      assert IndexOfKey(r.ledger, KeyOf, key) == i;
    }
  }
}
