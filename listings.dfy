/** Job listings (src/app/api/listings/route.ts): `POST` validates the
    fields and inserts a listing for the signed-in recruiter; `GET` lists
    one recruiter's listings, or every open listing, newest first. */
module Listings {
  import opened Common
  import opened Store

  /** The JSON body of a `POST`. */
  datatype ListingRequest = ListingRequest(
    title: Option<string>,
    description: Option<string>,
    amount: Option<Number>,
    currency: Option<string>,
    duration: Option<string>,
    listingType: Option<string>)

  datatype ListingError = Unauthorized | MissingFields | NonPositiveAmount

  /** Every rejection is a client error; 401 only for a missing session. */
  function HttpStatus(e: ListingError): (status: int)
    ensures 400 <= status < 500
    ensures status == 401 <==> e == Unauthorized
  {
    match e
    case Unauthorized => 401
    case MissingFields => 400
    case NonPositiveAmount => 400
  }

  /** `title && description && amount && duration && type`. */
  predicate AllFieldsGiven(req: ListingRequest)
  {
    Truthy(req.title) && Truthy(req.description) && TruthyNumber(req.amount)
    && Truthy(req.duration) && Truthy(req.listingType)
  }

  /** The `POST` handler as a function of the listings. `freshId` and `now`
      stand for the id and the timestamp the database assigns. An amount
      that is absent, 0 or NaN is a missing field; a negative one fails
      the second check; a created listing pays a positive amount, in `USD`
      unless a currency is given, for the session's user, and is open. */
  function Post(rows: seq<Listing>, session: Option<Session>, req: ListingRequest, freshId: string, now: nat)
    : (r: (seq<Listing>, Result<Listing, ListingError>))
    requires !HasKey(rows, ListingIdOf, freshId)
    ensures r.1.Err? ==> r.0 == rows
    ensures !SignedIn(session) ==> r.1 == Err(Unauthorized)
    ensures SignedIn(session) && !AllFieldsGiven(req) ==> r.1 == Err(MissingFields)
    ensures SignedIn(session) && AllFieldsGiven(req) && !Positive(req.amount.value) ==>
              r.1 == Err(NonPositiveAmount)
    ensures r.1.Ok? <==> SignedIn(session) && AllFieldsGiven(req) && Positive(req.amount.value)
    ensures r.1.Ok? ==>
              && r.0 == rows + [r.1.value]
              && r.1.value == Listing(freshId, req.title.value, req.description.value, req.amount.value,
                                      OrElse(req.currency, "USD"), req.duration.value, req.listingType.value,
                                      SessionUserOf(session).id, ActiveStatus, now)
              && Positive(r.1.value.amount)
    ensures (forall i :: 0 <= i < |rows| ==> Positive(rows[i].amount)) ==>
              forall i :: 0 <= i < |r.0| ==> Positive(r.0[i].amount)
    ensures UniqueBy(rows, ListingIdOf) ==> UniqueBy(r.0, ListingIdOf)
  {
    if !SignedIn(session) then (rows, Err(Unauthorized))
    else if !AllFieldsGiven(req) then (rows, Err(MissingFields))
    else if req.amount.value.value <= 0 then (rows, Err(NonPositiveAmount))
    else
      var l := Listing(freshId, req.title.value, req.description.value, req.amount.value,
                       OrElse(req.currency, "USD"), req.duration.value, req.listingType.value,
                       SessionUserOf(session).id, ActiveStatus, now);
      assert UniqueBy(rows, ListingIdOf) ==> UniqueBy(rows + [l], ListingIdOf) by {
        if UniqueBy(rows, ListingIdOf) { AppendKeepsUnique(rows, ListingIdOf, l); }
      }
      (rows + [l], Ok(l))
  }

  /** `POST /api/listings`. */
  method CreateListing(listings: ListingTable, session: Option<Session>, req: ListingRequest,
                       freshId: string, now: nat)
    returns (response: Result<Listing, ListingError>)
    requires listings.Valid()
    requires !HasKey(listings.rows, ListingIdOf, freshId)
    modifies listings
    ensures listings.Valid()
    ensures (listings.rows, response) == Post(old(listings.rows), session, req, freshId, now)
  {
    if !SignedIn(session) {
      return Err(Unauthorized);
    }
    if !Truthy(req.title) || !Truthy(req.description) || !TruthyNumber(req.amount)
       || !Truthy(req.duration) || !Truthy(req.listingType) {
      return Err(MissingFields);
    }
    var amount := req.amount.value;
    if amount.value <= 0 {
      return Err(NonPositiveAmount);
    }
    var listing := Listing(freshId, req.title.value, req.description.value, amount,
                           OrElse(req.currency, "USD"), req.duration.value, req.listingType.value,
                           session.value.user.value.id, ActiveStatus, now);
    listings.Create(listing);
    return Ok(listing);
  }

  /** `GET /api/listings[?userId=…]`: with a non-empty `userId`, exactly
      that recruiter's listings whatever their status; otherwise exactly
      the open ones; each as often as stored, newest first. */
  function Browse(rows: seq<Listing>, userId: Option<string>): (r: seq<Listing>)
    ensures Truthy(userId) ==>
              forall l :: multiset(r)[l] == if l.recruiterId == userId.value then multiset(rows)[l] else 0
    ensures !Truthy(userId) ==>
              forall l :: multiset(r)[l] == if l.status == ActiveStatus then multiset(rows)[l] else 0
    ensures SortedDesc(r, ListingCreatedAt)
  {
    if Truthy(userId) then
      var id := userId.value;
      SortDesc(Filter(rows, (l: Listing) => l.recruiterId == id), ListingCreatedAt)
    else
      SortDesc(Filter(rows, (l: Listing) => l.status == ActiveStatus), ListingCreatedAt)
  }

  /** A listing just created is among the open listings a visitor sees
      and among its recruiter's own. */
  lemma CreatedListingIsListed(rows: seq<Listing>, session: Option<Session>, req: ListingRequest,
                               freshId: string, now: nat)
    requires !HasKey(rows, ListingIdOf, freshId)
    requires Post(rows, session, req, freshId, now).1.Ok?
    ensures var (after, res) := Post(rows, session, req, freshId, now);
            && res.value in Browse(after, None)
            && res.value in Browse(after, Some(SessionUserOf(session).id))
  {
  }
}
