/** The ledger (src/lib/ledger.ts): an append-only table of money movements
    per recruiter, an idempotent append keyed by an idempotency key, and the
    recruiter's balance, which is never stored but recomputed from the
    entries: credits add, debits subtract, anything else is ignored. */
module Ledger {
  import opened Common

  /** The `transactionType` column. The append accepts only credit and
      debit, but the column is a string, so the fold must ignore others. */
  datatype TxType = Credit | Debit | OtherType(name: string)

  datatype LedgerEntry = LedgerEntry(
    recruiterId: string,
    amount: Number,
    currency: string,
    transactionType: TxType,
    description: string,
    idempotencyKey: string,
    paymentId: Option<string>,
    createdAt: nat)

  function KeyOf(e: LedgerEntry): string
  {
    e.idempotencyKey
  }

  /** The `LedgerEntry` table. Its unique index on `idempotencyKey` is the
      invariant `Valid()`. */
  class LedgerTable {
    var rows: seq<LedgerEntry>

    ghost predicate Valid()
      reads this
    {
      UniqueBy(rows, KeyOf)
    }

    constructor ()
      ensures Valid() && rows == []
    {
      rows := [];
    }

    /** `prisma.ledgerEntry.create`: the unique index refuses a key that is
        already present, so every caller looks the key up first. */
    method Create(e: LedgerEntry)
      requires Valid()
      requires !HasKey(rows, KeyOf, e.idempotencyKey)
      modifies this
      ensures Valid()
      ensures rows == old(rows) + [e]
    {
      AppendKeepsUnique(rows, KeyOf, e);
      rows := rows + [e];
    }
  }

  // ------------------------------------------------------ createLedgerEntry

  /** The parameters of `createLedgerEntry`; the key may be left out. */
  datatype EntryRequest = EntryRequest(
    recruiterId: string,
    amount: Number,
    currency: string,
    transactionType: TxType,
    description: string,
    idempotencyKey: Option<string>)

  /** The key the call uses: the one supplied, else the freshly generated one. */
  function RequestKey(req: EntryRequest, generated: string): string
  {
    if req.idempotencyKey.Some? then req.idempotencyKey.value else generated
  }

  function NewEntry(req: EntryRequest, key: string, now: nat): LedgerEntry
  {
    LedgerEntry(req.recruiterId, req.amount, req.currency, req.transactionType,
                req.description, key, None, now)
  }

  /** `createLedgerEntry` as a function of the table: the rows afterwards
      and the entry returned. `generated` stands for the random key and
      `now` for the creation time the database assigns. */
  function Append(rows: seq<LedgerEntry>, req: EntryRequest, generated: string, now: nat)
    : (res: (seq<LedgerEntry>, LedgerEntry))
    ensures HasKey(rows, KeyOf, RequestKey(req, generated)) ==>
              res.0 == rows && res.1 in rows && res.1.idempotencyKey == RequestKey(req, generated)
    ensures !HasKey(rows, KeyOf, RequestKey(req, generated)) ==>
              res.0 == rows + [res.1] && res.1 == NewEntry(req, RequestKey(req, generated), now)
    ensures UniqueBy(rows, KeyOf) ==> UniqueBy(res.0, KeyOf)
    ensures HasKey(res.0, KeyOf, RequestKey(req, generated))
  {
    var key := RequestKey(req, generated);
    match FindByKey(rows, KeyOf, key)
    case Some(existing) => (rows, existing)
    case None =>
      var e := NewEntry(req, key, now);
      assert UniqueBy(rows, KeyOf) ==> UniqueBy(rows + [e], KeyOf) by {
        if UniqueBy(rows, KeyOf) { AppendKeepsUnique(rows, KeyOf, e); }
      }
      AppendHasKey(rows, KeyOf, e, key);
      (rows + [e], e)
  }

  /** `createLedgerEntry`: look the key up, return the entry found, or
      insert a new one. */
  method CreateLedgerEntry(ledger: LedgerTable, req: EntryRequest, generated: string, now: nat)
    returns (entry: LedgerEntry)
    requires ledger.Valid()
    requires !req.transactionType.OtherType?
    modifies ledger
    ensures ledger.Valid()
    ensures (ledger.rows, entry) == Append(old(ledger.rows), req, generated, now)
  {
    var key := RequestKey(req, generated);
    var existing := FindByKey(ledger.rows, KeyOf, key);
    if existing.Some? {
      return existing.value;
    }
    entry := NewEntry(req, key, now);
    ledger.Create(entry);
  }

  /** Two calls with the same key: the second changes nothing and returns
      the entry of the first, and exactly one entry carries the key. */
  lemma AppendIdempotent(rows: seq<LedgerEntry>, req1: EntryRequest, g1: string, t1: nat,
                         req2: EntryRequest, g2: string, t2: nat)
    requires UniqueBy(rows, KeyOf)
    requires RequestKey(req1, g1) == RequestKey(req2, g2)
    ensures var (rows1, e1) := Append(rows, req1, g1, t1);
            var (rows2, e2) := Append(rows1, req2, g2, t2);
            rows2 == rows1 && e2 == e1 && CountKey(rows2, KeyOf, RequestKey(req1, g1)) == 1
  {
    var key := RequestKey(req1, g1);
    var (rows1, e1) := Append(rows, req1, g1, t1);
    if !HasKey(rows, KeyOf, key) {
      FindAfterAppend(rows, KeyOf, e1);
    }
    UniqueCountAtMostOne(rows1, KeyOf, key);
  }

  /** One call of `createLedgerEntry` in a sequence of calls. */
  datatype Call = Call(req: EntryRequest, generated: string, now: nat)

  /** The rows after a sequence of calls, oldest first. */
  function AppendAll(rows: seq<LedgerEntry>, calls: seq<Call>): (r: seq<LedgerEntry>)
    ensures UniqueBy(rows, KeyOf) ==> UniqueBy(r, KeyOf)
    ensures |rows| <= |r| && r[..|rows|] == rows
    decreases |calls|
  {
    if calls == [] then rows
    else
      var c := calls[0];
      AppendAll(Append(rows, c.req, c.generated, c.now).0, calls[1..])
  }

  /** The key of the credit that a provider payment produces. */
  function PaymentCreditKey(paymentId: string): string
  {
    "payment_" + paymentId
  }

  // ------------------------------------------------------ getRecruiterBalance

  /** `prisma.ledgerEntry.findMany({ where: { recruiterId } })`. */
  function EntriesOf(rows: seq<LedgerEntry>, recruiterId: string): seq<LedgerEntry>
  {
    Filter(rows, (e: LedgerEntry) => e.recruiterId == recruiterId)
  }

  predicate Counted(e: LedgerEntry, recruiterId: string)
  {
    e.recruiterId == recruiterId && (e.transactionType == Credit || e.transactionType == Debit)
  }

  function CreditPart(e: LedgerEntry, recruiterId: string): int
  {
    if e.recruiterId == recruiterId && e.transactionType == Credit && e.amount.Num?
    then e.amount.value else 0
  }

  function DebitPart(e: LedgerEntry, recruiterId: string): int
  {
    if e.recruiterId == recruiterId && e.transactionType == Debit && e.amount.Num?
    then e.amount.value else 0
  }

  /** The sum of the recruiter's credit amounts that are numbers. */
  function Credits(rows: seq<LedgerEntry>, recruiterId: string): int
  {
    SumBy(rows, (e: LedgerEntry) => CreditPart(e, recruiterId))
  }

  /** The sum of the recruiter's debit amounts that are numbers. */
  function Debits(rows: seq<LedgerEntry>, recruiterId: string): int
  {
    SumBy(rows, (e: LedgerEntry) => DebitPart(e, recruiterId))
  }

  /** Some credit or debit of the recruiter has an amount that is not a number. */
  predicate HasNaNAmount(rows: seq<LedgerEntry>, recruiterId: string)
  {
    exists e :: e in rows && Counted(e, recruiterId) && e.amount.NaN?
  }

  /** The balance the ledger defines for a recruiter: credits minus debits,
      or NaN once one of the amounts summed is not a number. */
  function Balance(rows: seq<LedgerEntry>, recruiterId: string): Number
  {
    if HasNaNAmount(rows, recruiterId) then NaN
    else Num(Credits(rows, recruiterId) - Debits(rows, recruiterId))
  }

  /** Appending one entry moves the recruiter's balance by exactly that
      entry: a credit adds its amount, a debit subtracts it, an entry of
      another type or of another recruiter changes nothing. */
  lemma BalanceAfterAppend(rows: seq<LedgerEntry>, e: LedgerEntry, recruiterId: string)
    ensures Balance(rows + [e], recruiterId) ==
      if e.recruiterId != recruiterId then Balance(rows, recruiterId)
      else match e.transactionType
           case Credit => Add(Balance(rows, recruiterId), e.amount)
           case Debit => Sub(Balance(rows, recruiterId), e.amount)
           case OtherType(_) => Balance(rows, recruiterId)
  {
    SumBySnoc(rows, e, (x: LedgerEntry) => CreditPart(x, recruiterId));
    SumBySnoc(rows, e, (x: LedgerEntry) => DebitPart(x, recruiterId));
    assert HasNaNAmount(rows + [e], recruiterId) <==>
           HasNaNAmount(rows, recruiterId) || (Counted(e, recruiterId) && e.amount.NaN?) by {
      assert forall x :: x in rows + [e] <==> x in rows || x == e;
    }
  }

  /** A recruiter without entries has balance 0. */
  lemma {:induction false} NoEntriesZeroBalance(rows: seq<LedgerEntry>, recruiterId: string)
    requires forall e :: e in rows ==> e.recruiterId != recruiterId
    ensures Balance(rows, recruiterId) == Num(0)
  {
    if rows != [] {
      var init := rows[..|rows| - 1];
      var last := rows[|rows| - 1];
      assert rows == init + [last];
      NoEntriesZeroBalance(init, recruiterId);
      BalanceAfterAppend(init, last, recruiterId);
    }
  }

  /** The balance does not depend on the order of the entries. */
  lemma BalanceOrderIndependent(s: seq<LedgerEntry>, t: seq<LedgerEntry>, recruiterId: string)
    requires multiset(s) == multiset(t)
    ensures Balance(s, recruiterId) == Balance(t, recruiterId)
  {
    SumByPermutation(s, t, (e: LedgerEntry) => CreditPart(e, recruiterId));
    SumByPermutation(s, t, (e: LedgerEntry) => DebitPart(e, recruiterId));
    assert forall e :: e in s <==> e in t by {
      forall e ensures e in s <==> e in t {
        assert e in s <==> e in multiset(s);
        assert e in t <==> e in multiset(t);
      }
    }
  }

  /** Only the recruiter's own entries decide the balance. */
  lemma BalanceOfOwnEntries(rows: seq<LedgerEntry>, recruiterId: string)
    ensures Balance(EntriesOf(rows, recruiterId), recruiterId) == Balance(rows, recruiterId)
    ensures Credits(EntriesOf(rows, recruiterId), recruiterId) == Credits(rows, recruiterId)
    ensures Debits(EntriesOf(rows, recruiterId), recruiterId) == Debits(rows, recruiterId)
  {
    var p := (e: LedgerEntry) => e.recruiterId == recruiterId;
    SumByFilter(rows, p, (e: LedgerEntry) => CreditPart(e, recruiterId));
    SumByFilter(rows, p, (e: LedgerEntry) => DebitPart(e, recruiterId));
  }

  /** `getRecruiterBalance`: a `for` loop over the recruiter's entries. For
      entries whose amounts are numbers the result is credits minus debits. */
  method GetRecruiterBalance(ledger: LedgerTable, recruiterId: string) returns (balance: Number)
    ensures balance == Balance(ledger.rows, recruiterId)
    ensures !HasNaNAmount(ledger.rows, recruiterId) ==>
              balance == Num(Credits(ledger.rows, recruiterId) - Debits(ledger.rows, recruiterId))
  {
    var entries := EntriesOf(ledger.rows, recruiterId);
    balance := Num(0);
    for i := 0 to |entries|
      invariant balance == Balance(entries[..i], recruiterId)
    {
      var entry := entries[i];
      var amount := entry.amount;
      if entry.transactionType == Credit {
        balance := Add(balance, amount);
      } else if entry.transactionType == Debit {
        balance := Sub(balance, amount);
      }
      assert entries[..i + 1] == entries[..i] + [entry];
      assert entry in entries;
      BalanceAfterAppend(entries[..i], entry, recruiterId);
    }
    assert entries[..|entries|] == entries;
    BalanceOfOwnEntries(ledger.rows, recruiterId);
  }
}
