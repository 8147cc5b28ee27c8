/** `GET /api/balance` (src/app/api/balance/route.ts): the signed-in
    user's payments and ledger entries, newest first, and a balance folded
    over those entries that skips amounts that are not numbers. */
module BalanceRoute {
  import opened Common
  import opened Store
  import opened Ledger

  datatype BalanceView = BalanceView(
    balance: int,
    currency: string,
    payments: seq<Payment>,
    entries: seq<LedgerEntry>)

  datatype BalanceError = Unauthorized

  function PaymentCreatedAt(p: Payment): int
  {
    p.createdAt
  }

  function EntryCreatedAt(e: LedgerEntry): int
  {
    e.createdAt
  }

  /** `prisma.payment.findMany({ where: { recruiterId }, orderBy: { createdAt: 'desc' } })`:
      exactly the recruiter's payments, each as often as stored, newest first. */
  function PaymentsOf(rows: seq<Payment>, recruiterId: string): (r: seq<Payment>)
    ensures forall p :: multiset(r)[p] == if p.recruiterId == recruiterId then multiset(rows)[p] else 0
    ensures SortedDesc(r, PaymentCreatedAt)
  {
    SortDesc(Filter(rows, (p: Payment) => p.recruiterId == recruiterId), PaymentCreatedAt)
  }

  /** The same query on the ledger: the recruiter's entries, newest first. */
  function EntriesNewestFirst(rows: seq<LedgerEntry>, recruiterId: string): (r: seq<LedgerEntry>)
    ensures forall e :: multiset(r)[e] == if e.recruiterId == recruiterId then multiset(rows)[e] else 0
    ensures multiset(r) == multiset(EntriesOf(rows, recruiterId))
    ensures SortedDesc(r, EntryCreatedAt)
  {
    SortDesc(EntriesOf(rows, recruiterId), EntryCreatedAt)
  }

  /** The route's `for` loop over the entries the query returned for `id`:
      credits add, debits subtract, amounts that are not numbers and
      entries of other types are skipped. */
  method SumAmounts(entries: seq<LedgerEntry>, id: string) returns (balance: int)
    requires forall e :: e in entries ==> e.recruiterId == id
    ensures balance == Credits(entries, id) - Debits(entries, id)
  {
    ghost var credit := (e: LedgerEntry) => CreditPart(e, id);
    ghost var debit := (e: LedgerEntry) => DebitPart(e, id);
    balance := 0;
    for i := 0 to |entries|
      invariant balance == SumBy(entries[..i], credit) - SumBy(entries[..i], debit)
    {
      var entry := entries[i];
      var amount := entry.amount;
      assert entry in entries;
      if amount.Num? {
        if entry.transactionType == Credit {
          balance := balance + amount.value;
        } else if entry.transactionType == Debit {
          balance := balance - amount.value;
        }
      }
      assert entries[..i + 1] == entries[..i] + [entry];
      SumBySnoc(entries[..i], entry, credit);
      SumBySnoc(entries[..i], entry, debit);
    }
    assert entries[..|entries|] == entries;
  }

  /** The balance is credits minus debits over the user's entries with a
      numeric amount (entries of other types add nothing), 0 without
      entries, in the fixed currency `USD`; payments and entries are
      exactly the user's, each ordered by `createdAt` descending. */
  method GetBalance(payments: PaymentTable, ledger: LedgerTable, session: Option<Session>)
    returns (response: Result<BalanceView, BalanceError>)
    ensures !SignedIn(session) ==> response == Err(Unauthorized)
    ensures SignedIn(session) ==>
              var id := SessionUserOf(session).id;
              && response.Ok?
              && response.value.balance == Credits(ledger.rows, id) - Debits(ledger.rows, id)
              && response.value.currency == "USD"
              && (forall p :: multiset(response.value.payments)[p] ==
                    if p.recruiterId == id then multiset(payments.rows)[p] else 0)
              && SortedDesc(response.value.payments, PaymentCreatedAt)
              && (forall e :: multiset(response.value.entries)[e] ==
                    if e.recruiterId == id then multiset(ledger.rows)[e] else 0)
              && SortedDesc(response.value.entries, EntryCreatedAt)
    ensures SignedIn(session) && (forall e :: e in ledger.rows ==> e.recruiterId != SessionUserOf(session).id) ==>
              response.Ok? && response.value.balance == 0
  {
    if !SignedIn(session) {
      return Err(Unauthorized);
    }
    var id := session.value.user.value.id;
    var userPayments := PaymentsOf(payments.rows, id);
    var entries := EntriesNewestFirst(ledger.rows, id);

    var balance := SumAmounts(entries, id);
    SumByPermutation(entries, EntriesOf(ledger.rows, id), (e: LedgerEntry) => CreditPart(e, id));
    SumByPermutation(entries, EntriesOf(ledger.rows, id), (e: LedgerEntry) => DebitPart(e, id));
    BalanceOfOwnEntries(ledger.rows, id);
    if forall e :: e in ledger.rows ==> e.recruiterId != id {
      NoEntriesZeroBalance(ledger.rows, id);
    }
    return Ok(BalanceView(balance, "USD", userPayments, entries));
  }
}
