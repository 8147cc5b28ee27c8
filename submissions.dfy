/** Applications to listings (src/app/api/submissions/route.ts): `POST`
    runs an ordered chain of checks and inserts one submission for the
    signed-in earner; `GET` returns the earner's own submissions, newest
    first. */
module Submissions {
  import opened Common
  import opened Store

  /** The JSON body of a `POST`. No earner id is read from it. */
  datatype SubmitRequest = SubmitRequest(listingId: Option<string>, message: Option<string>)

  datatype SubmitError =
    | Unauthorized
    | MissingFields
    | ListingNotFound
    | ListingClosed
    | AlreadyApplied

  /** Every rejection is a client error; 401 only for a missing session and
      404 only for an unknown listing. */
  function HttpStatus(e: SubmitError): (status: int)
    ensures 400 <= status < 500
    ensures status == 401 <==> e == Unauthorized
    ensures status == 404 <==> e == ListingNotFound
  {
    match e
    case Unauthorized => 401
    case MissingFields => 400
    case ListingNotFound => 404
    case ListingClosed => 400
    case AlreadyApplied => 400
  }

  /** A listing with this id exists and has status `Active`. */
  predicate OpenListing(listings: seq<Listing>, listingId: string)
  {
    var l := FindByKey(listings, ListingIdOf, listingId);
    l.Some? && l.value.status == ActiveStatus
  }

  /** Every submission is for a listing that is open. */
  predicate AllForOpenListings(rows: seq<Submission>, listings: seq<Listing>)
  {
    forall x :: x in rows ==> OpenListing(listings, x.listingId)
  }

  /** The `POST` handler as a function of the submissions and the
      listings: the first failing check decides the error, a rejection
      changes nothing, and success appends exactly one submission by the
      session's user. */
  function Apply(rows: seq<Submission>, listings: seq<Listing>, session: Option<Session>,
                 req: SubmitRequest, now: nat)
    : (r: (seq<Submission>, Result<Submission, SubmitError>))
    ensures r.1.Err? ==> r.0 == rows
    ensures !SignedIn(session) ==> r.1 == Err(Unauthorized)
    ensures SignedIn(session) && !(Truthy(req.listingId) && Truthy(req.message)) ==>
              r.1 == Err(MissingFields)
    ensures SignedIn(session) && Truthy(req.listingId) && Truthy(req.message)
            && !HasKey(listings, ListingIdOf, req.listingId.value) ==>
              r.1 == Err(ListingNotFound)
    ensures SignedIn(session) && Truthy(req.listingId) && Truthy(req.message)
            && HasKey(listings, ListingIdOf, req.listingId.value)
            && !OpenListing(listings, req.listingId.value) ==>
              r.1 == Err(ListingClosed)
    ensures SignedIn(session) && Truthy(req.listingId) && Truthy(req.message)
            && OpenListing(listings, req.listingId.value)
            && HasKey(rows, ApplicantOf, (req.listingId.value, SessionUserOf(session).id)) ==>
              r.1 == Err(AlreadyApplied)
    ensures r.1.Ok? <==>
              && SignedIn(session) && Truthy(req.listingId) && Truthy(req.message)
              && OpenListing(listings, req.listingId.value)
              && !HasKey(rows, ApplicantOf, (req.listingId.value, SessionUserOf(session).id))
    ensures r.1.Ok? ==>
              && SignedIn(session) && Truthy(req.listingId) && Truthy(req.message)
              && OpenListing(listings, req.listingId.value)
              && r.1.value == Submission(req.listingId.value, SessionUserOf(session).id, req.message.value, now)
              && !HasKey(rows, ApplicantOf, ApplicantOf(r.1.value))
              && r.0 == rows + [r.1.value]
    ensures UniqueBy(rows, ApplicantOf) ==> UniqueBy(r.0, ApplicantOf)
    ensures AllForOpenListings(rows, listings) ==> AllForOpenListings(r.0, listings)
  {
    if !SignedIn(session) then (rows, Err(Unauthorized))
    else if !Truthy(req.listingId) || !Truthy(req.message) then (rows, Err(MissingFields))
    else
      var listingId, earnerId := req.listingId.value, SessionUserOf(session).id;
      match FindByKey(listings, ListingIdOf, listingId)
      case None => (rows, Err(ListingNotFound))
      case Some(listing) =>
        if listing.status != ActiveStatus then (rows, Err(ListingClosed))
        else if HasKey(rows, ApplicantOf, (listingId, earnerId)) then (rows, Err(AlreadyApplied))
        else
          var s := Submission(listingId, earnerId, req.message.value, now);
          assert UniqueBy(rows, ApplicantOf) ==> UniqueBy(rows + [s], ApplicantOf) by {
            if UniqueBy(rows, ApplicantOf) { AppendKeepsUnique(rows, ApplicantOf, s); }
          }
          (rows + [s], Ok(s))
  }

  /** `POST /api/submissions`. */
  method Submit(submissions: SubmissionTable, listings: ListingTable, session: Option<Session>,
                req: SubmitRequest, now: nat)
    returns (response: Result<Submission, SubmitError>)
    requires submissions.Valid()
    modifies submissions
    ensures submissions.Valid()
    ensures (submissions.rows, response) == Apply(old(submissions.rows), listings.rows, session, req, now)
  {
    if !SignedIn(session) {
      return Err(Unauthorized);
    }
    if !Truthy(req.listingId) || !Truthy(req.message) {
      return Err(MissingFields);
    }
    var listingId, message := req.listingId.value, req.message.value;

    var listing := FindByKey(listings.rows, ListingIdOf, listingId);
    if listing.None? {
      return Err(ListingNotFound);
    }
    if listing.value.status != ActiveStatus {
      return Err(ListingClosed);
    }

    var earnerId := session.value.user.value.id;
    var existingSubmission := FindByKey(submissions.rows, ApplicantOf, (listingId, earnerId));
    if existingSubmission.Some? {
      return Err(AlreadyApplied);
    }

    var submission := Submission(listingId, earnerId, message, now);
    submissions.Create(submission);
    return Ok(submission);
  }

  /** A sequence of `POST`s, each with its own session, request and time. */
  datatype Attempt = Attempt(session: Option<Session>, req: SubmitRequest, at: nat)

  function ApplyAll(rows: seq<Submission>, listings: seq<Listing>, attempts: seq<Attempt>)
    : (r: seq<Submission>)
    ensures UniqueBy(rows, ApplicantOf) ==> UniqueBy(r, ApplicantOf)
    ensures AllForOpenListings(rows, listings) ==> AllForOpenListings(r, listings)
    decreases |attempts|
  {
    if attempts == [] then rows
    else
      var a := attempts[0];
      ApplyAll(Apply(rows, listings, a.session, a.req, a.at).0, listings, attempts[1..])
  }

  /** After any sequence of applications, each earner has at most one
      submission per listing; if every stored submission was for an open
      listing, so is every one afterwards. */
  lemma OneSubmissionPerApplicant(rows: seq<Submission>, listings: seq<Listing>, attempts: seq<Attempt>,
                                  listingId: string, earnerId: string)
    requires UniqueBy(rows, ApplicantOf)
    ensures CountKey(ApplyAll(rows, listings, attempts), ApplicantOf, (listingId, earnerId)) <= 1
    ensures AllForOpenListings(rows, listings) ==> AllForOpenListings(ApplyAll(rows, listings, attempts), listings)
  {
    UniqueCountAtMostOne(ApplyAll(rows, listings, attempts), ApplicantOf, (listingId, earnerId));
  }

  /** A second identical application by the same earner is refused and
      changes nothing. */
  lemma ReapplyRefused(rows: seq<Submission>, listings: seq<Listing>, session: Option<Session>,
                       req: SubmitRequest, t1: nat, t2: nat)
    requires Apply(rows, listings, session, req, t1).1.Ok?
    ensures var after := Apply(rows, listings, session, req, t1).0;
            Apply(after, listings, session, req, t2) == (after, Err(AlreadyApplied))
  {
    var s := Apply(rows, listings, session, req, t1).1.value;
    AppendHasKey(rows, ApplicantOf, s, ApplicantOf(s));
  }

  /** `GET /api/submissions`: exactly the submissions whose earner is the
      session's user (a user id in the query is ignored), each as often as
      stored, newest first. */
  function MySubmissions(rows: seq<Submission>, session: Option<Session>)
    : (r: Result<seq<Submission>, SubmitError>)
    ensures !SignedIn(session) ==> r == Err(Unauthorized)
    ensures SignedIn(session) ==>
              && r.Ok?
              && (forall x :: multiset(r.value)[x] ==
                    if x.earnerId == SessionUserOf(session).id then multiset(rows)[x] else 0)
              && SortedDesc(r.value, SubmittedAt)
  {
    if !SignedIn(session) then Err(Unauthorized)
    else
      var id := SessionUserOf(session).id;
      Ok(SortDesc(Filter(rows, (x: Submission) => x.earnerId == id), SubmittedAt))
  }
}
