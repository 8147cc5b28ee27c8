/** The two paths by which provider payments reach the ledger, the webhook
    and the manual connect, run in any interleaving. Both key their credit
    `payment_<id>` and check the key first, so across any sequence of
    deliveries a payment is credited at most once, and since both credit
    only positive amounts, no balance ever goes down. */
module PaymentIngestion {
  import opened Common
  import opened Store
  import opened Ledger
  import opened WhopEvents
  import opened ConnectPayment

  /** One request reaching either payment route. */
  datatype Delivery =
    | Webhook(ev: WhopEvent, at: nat)
    | ManualConnect(users: seq<User>, session: Option<Session>, req: ConnectRequest,
                    fetch: string -> FetchResult, at: nat)

  function Step(s: Tables, d: Delivery): Tables
  {
    match d
    case Webhook(ev, at) => Ingest(s, ev, at)
    case ManualConnect(users, session, req, fetch, at) => Connect(s, users, session, req, fetch, at).0
  }

  /** The tables after the deliveries, in order. Both unique indexes are
      kept and the ledger only ever grows at its end. */
  function Run(s: Tables, ds: seq<Delivery>): (r: Tables)
    ensures UniqueBy(s.payments, PaymentIdOf) ==> UniqueBy(r.payments, PaymentIdOf)
    ensures UniqueBy(s.ledger, KeyOf) ==> UniqueBy(r.ledger, KeyOf)
    ensures |s.ledger| <= |r.ledger| && r.ledger[..|s.ledger|] == s.ledger
    decreases |ds|
  {
    if ds == [] then s
    else
      var next := Step(s, ds[0]);
      var r := Run(next, ds[1..]);
      assert r.ledger[..|s.ledger|] == r.ledger[..|next.ledger|][..|s.ledger|];
      r
  }

  /** Whatever mix of webhook deliveries, redeliveries and manual connects
      arrives, every payment has at most one credit. */
  lemma NoDoubleCredit(s: Tables, ds: seq<Delivery>, paymentId: string)
    requires UniqueBy(s.ledger, KeyOf)
    ensures CountKey(Run(s, ds).ledger, KeyOf, PaymentCreditKey(paymentId)) <= 1
  {
    UniqueCountAtMostOne(Run(s, ds).ledger, KeyOf, PaymentCreditKey(paymentId));
  }

  /** One delivery either leaves a balance alone or adds a positive amount. */
  lemma StepBalance(s: Tables, d: Delivery, recruiterId: string)
    ensures var before := Balance(s.ledger, recruiterId);
            var after := Balance(Step(s, d).ledger, recruiterId);
            after == before || exists a :: a > 0 && after == Add(before, Num(a))
  {
    match d
    case Webhook(ev, at) =>
      IngestBalance(s, ev, at, recruiterId);
      if AppendsCredit(s.ledger, ev) && MetadataRecruiter(ev.data).value == recruiterId {
        var a := WebhookAmount(ev.data).value;
        assert Balance(Step(s, d).ledger, recruiterId) == Add(Balance(s.ledger, recruiterId), Num(a));
      }
    case ManualConnect(users, session, req, fetch, at) =>
      var r := Connect(s, users, session, req, fetch, at);
      if r.1.Ok? && r.1.value.ledgerEntry.Some? {
        var e := r.1.value.ledgerEntry.value;
        BalanceAfterAppend(s.ledger, e, recruiterId);
        if e.recruiterId == recruiterId {
          assert Balance(r.0.ledger, recruiterId) == Add(Balance(s.ledger, recruiterId), Num(e.amount.value));
        }
      }
  }

  /** Payment ingestion never lowers a balance that is a number, and keeps
      it a number. */
  lemma {:induction false} RunNeverLowersBalance(s: Tables, ds: seq<Delivery>, recruiterId: string)
    requires Balance(s.ledger, recruiterId).Num?
    ensures Balance(Run(s, ds).ledger, recruiterId).Num?
    ensures Balance(Run(s, ds).ledger, recruiterId).value >= Balance(s.ledger, recruiterId).value
    decreases |ds|
  {
    if ds != [] {
      var next := Step(s, ds[0]);
      StepBalance(s, ds[0], recruiterId);
      RunNeverLowersBalance(next, ds[1..], recruiterId);
    }
  }
}
