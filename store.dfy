/** The database tables the core writes, each as a class holding its rows,
    with the table's unique index as the invariant `Valid()`: payments
    (primary key: the provider's payment id), listings, submissions (unique
    on listing and earner) and payout companies (unique on the user). The
    user table, which the core only reads, is a plain sequence of rows. The
    ledger table lives in module Ledger. */
module Store {
  import opened Common

  // --------------------------------------------------------------- payments

  /** Custom metadata attached at checkout: the recruiter, the amount as
      `parseFloat` reads it, and the purpose tag (`type`). */
  datatype PaymentMetadata = PaymentMetadata(
    recruiterId: Option<string>,
    amount: Option<Number>,
    purpose: Option<string>)

  /** A payment object as the provider reports it, in a webhook's `data`
      or as the body of a payment lookup. */
  datatype WhopPayment = WhopPayment(
    id: string,
    total: Option<Number>,
    currency: Option<string>,
    status: Option<string>,
    substatus: Option<string>,
    metadata: Option<PaymentMetadata>)

  /** A row of the `Payment` table; `metadata` keeps the provider's record. */
  datatype Payment = Payment(
    id: string,
    amount: Number,
    currency: string,
    status: string,
    metadata: WhopPayment,
    recruiterId: string,
    createdAt: nat)

  function PaymentIdOf(p: Payment): string
  {
    p.id
  }

  /** `(currency || 'usd').toUpperCase()`. */
  function PaymentCurrency(currency: Option<string>): string
  {
    Upper(OrElse(currency, "usd"))
  }

  /** `prisma.payment.upsert` keyed by id: create `create` if no row has its
      id, otherwise overwrite only the status and the metadata of that row. */
  function UpsertPayment(rows: seq<Payment>, create: Payment, status: string, metadata: WhopPayment)
    : (r: seq<Payment>)
    ensures !HasKey(rows, PaymentIdOf, create.id) ==> r == rows + [create]
    ensures HasKey(rows, PaymentIdOf, create.id) ==>
              && |r| == |rows|
              && (forall i :: 0 <= i < |rows| && rows[i].id != create.id ==> r[i] == rows[i])
    ensures FindByKey(r, PaymentIdOf, create.id) ==
              if HasKey(rows, PaymentIdOf, create.id)
              then Some(FindByKey(rows, PaymentIdOf, create.id).value.(status := status, metadata := metadata))
              else Some(create)
    ensures UniqueBy(rows, PaymentIdOf) ==> UniqueBy(r, PaymentIdOf)
    ensures forall k :: HasKey(r, PaymentIdOf, k) <==> HasKey(rows, PaymentIdOf, k) || k == create.id
  {
    var i := IndexOfKey(rows, PaymentIdOf, create.id);
    if i < 0 then
      assert UniqueBy(rows, PaymentIdOf) ==> UniqueBy(rows + [create], PaymentIdOf) by {
        if UniqueBy(rows, PaymentIdOf) { AppendKeepsUnique(rows, PaymentIdOf, create); }
      }
      assert forall k :: HasKey(rows + [create], PaymentIdOf, k) <==> HasKey(rows, PaymentIdOf, k) || k == create.id by {
        forall k ensures HasKey(rows + [create], PaymentIdOf, k) <==> HasKey(rows, PaymentIdOf, k) || k == create.id {
          AppendHasKey(rows, PaymentIdOf, create, k);
        }
      }
      FindAfterAppend(rows, PaymentIdOf, create);
      rows + [create]
    else
      var r := rows[i := rows[i].(status := status, metadata := metadata)];
      assert forall j :: 0 <= j < |r| ==> r[j].id == rows[j].id;
      assert IndexOfKey(r, PaymentIdOf, create.id) == i;
      assert forall k :: HasKey(r, PaymentIdOf, k) <==> HasKey(rows, PaymentIdOf, k) by {
        forall k ensures HasKey(r, PaymentIdOf, k) <==> HasKey(rows, PaymentIdOf, k) {
          if HasKey(r, PaymentIdOf, k) {
            var j :| 0 <= j < |r| && PaymentIdOf(r[j]) == k;
            assert PaymentIdOf(rows[j]) == k;
          }
          if HasKey(rows, PaymentIdOf, k) {
            var j :| 0 <= j < |rows| && PaymentIdOf(rows[j]) == k;
            assert PaymentIdOf(r[j]) == k;
          }
        }
      }
      r
  }

  /** Upserting the same status and metadata twice equals upserting once,
      whatever the second call would have created. */
  lemma UpsertIdempotent(rows: seq<Payment>, first: Payment, again: Payment, status: string, metadata: WhopPayment)
    requires again.id == first.id
    requires first.status == status && first.metadata == metadata
    ensures UpsertPayment(UpsertPayment(rows, first, status, metadata), again, status, metadata)
            == UpsertPayment(rows, first, status, metadata)
  {
    var i := IndexOfKey(rows, PaymentIdOf, first.id);
    if i < 0 {
      FindAfterAppend(rows, PaymentIdOf, first);
    } else {
      var r := UpsertPayment(rows, first, status, metadata);
      assert forall j :: 0 <= j < |r| ==> r[j].id == rows[j].id;
      assert IndexOfKey(r, PaymentIdOf, first.id) == i;
    }
  }

  class PaymentTable {
    var rows: seq<Payment>

    ghost predicate Valid()
      reads this
    {
      UniqueBy(rows, PaymentIdOf)
    }

    constructor ()
      ensures Valid() && rows == []
    {
      rows := [];
    }

    method Upsert(create: Payment, status: string, metadata: WhopPayment)
      requires Valid()
      modifies this
      ensures Valid()
      ensures rows == UpsertPayment(old(rows), create, status, metadata)
    {
      rows := UpsertPayment(rows, create, status, metadata);
    }

    /** `prisma.payment.create`: the primary key refuses an id in use. */
    method Create(p: Payment)
      requires Valid()
      requires !HasKey(rows, PaymentIdOf, p.id)
      modifies this
      ensures Valid()
      ensures rows == old(rows) + [p]
    {
      AppendKeepsUnique(rows, PaymentIdOf, p);
      rows := rows + [p];
    }
  }

  // ------------------------------------------------------------------ users

  /** A row of the `User` table; the core only reads it. */
  datatype User = User(id: string, email: string, name: Option<string>)

  function UserIdOf(u: User): string
  {
    u.id
  }

  function EmailOf(u: User): string
  {
    u.email
  }

  // --------------------------------------------------------------- listings

  datatype Listing = Listing(
    id: string,
    title: string,
    description: string,
    amount: Number,
    currency: string,
    duration: string,
    listingType: string,
    recruiterId: string,
    status: string,
    createdAt: nat)

  function ListingIdOf(l: Listing): string
  {
    l.id
  }

  function ListingCreatedAt(l: Listing): int
  {
    l.createdAt
  }

  /** The status a new listing gets from the table's default. */
  const ActiveStatus := "Active"

  class ListingTable {
    var rows: seq<Listing>

    /** Ids are unique and every listing pays a positive amount. */
    ghost predicate Valid()
      reads this
    {
      && UniqueBy(rows, ListingIdOf)
      && forall i :: 0 <= i < |rows| ==> Positive(rows[i].amount)
    }

    constructor ()
      ensures Valid() && rows == []
    {
      rows := [];
    }

    method Create(l: Listing)
      requires Valid()
      requires !HasKey(rows, ListingIdOf, l.id)
      requires Positive(l.amount)
      modifies this
      ensures Valid()
      ensures rows == old(rows) + [l]
    {
      AppendKeepsUnique(rows, ListingIdOf, l);
      rows := rows + [l];
    }
  }

  // ------------------------------------------------------------ submissions

  datatype Submission = Submission(
    listingId: string,
    earnerId: string,
    message: string,
    submittedAt: nat)

  /** The compound unique key `listingId_earnerId`. */
  function ApplicantOf(s: Submission): (string, string)
  {
    (s.listingId, s.earnerId)
  }

  function SubmittedAt(s: Submission): int
  {
    s.submittedAt
  }

  class SubmissionTable {
    var rows: seq<Submission>

    /** At most one submission per listing and earner. */
    ghost predicate Valid()
      reads this
    {
      UniqueBy(rows, ApplicantOf)
    }

    constructor ()
      ensures Valid() && rows == []
    {
      rows := [];
    }

    method Create(s: Submission)
      requires Valid()
      requires !HasKey(rows, ApplicantOf, ApplicantOf(s))
      modifies this
      ensures Valid()
      ensures rows == old(rows) + [s]
    {
      AppendKeepsUnique(rows, ApplicantOf, s);
      rows := rows + [s];
    }
  }

  // -------------------------------------------------------- payout companies

  /** A company record as the provider returns it. */
  datatype CompanyData = CompanyData(id: string, title: string)

  /** A row of the `WhopCompany` table: a user's payout destination. */
  datatype WhopCompany = WhopCompany(
    userId: string,
    whopId: string,
    title: string,
    metadata: CompanyData)

  function CompanyUserOf(c: WhopCompany): string
  {
    c.userId
  }

  class CompanyTable {
    var rows: seq<WhopCompany>

    /** At most one payout company per user. */
    ghost predicate Valid()
      reads this
    {
      UniqueBy(rows, CompanyUserOf)
    }

    constructor ()
      ensures Valid() && rows == []
    {
      rows := [];
    }

    method Create(c: WhopCompany)
      requires Valid()
      requires !HasKey(rows, CompanyUserOf, c.userId)
      modifies this
      ensures Valid()
      ensures rows == old(rows) + [c]
    {
      AppendKeepsUnique(rows, CompanyUserOf, c);
      rows := rows + [c];
    }
  }
}
