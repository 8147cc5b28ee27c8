/** Manual payout-company linking (src/app/api/admin/connect-company/route.ts):
    an admin names a provider company and a user's email; the company is
    recorded for that user unless they already have one. */
module ConnectCompany {
  import opened Common
  import opened Store
  import PayoutsSetup

  /** The JSON body of the request. */
  datatype ConnectRequest = ConnectRequest(companyId: Option<string>, userEmail: Option<string>)

  datatype ConnectError =
    | Unauthorized
    | Forbidden
    | MissingFields
    | UserNotFound
    | AlreadyConnected
    | ProviderError

  /** A failed provider lookup is the only server error; every other
      rejection is a client error, 401 only for a missing session and 403
      only for a non-admin. */
  function HttpStatus(e: ConnectError): (status: int)
    ensures status == 500 <==> e == ProviderError
    ensures e != ProviderError ==> 400 <= status < 500
    ensures status == 401 <==> e == Unauthorized
    ensures status == 403 <==> e == Forbidden
  {
    match e
    case Unauthorized => 401
    case Forbidden => 403
    case MissingFields => 400
    case UserNotFound => 404
    case AlreadyConnected => 409
    case ProviderError => 500
  }

  /** `companies.retrieve` succeeded and returned a record with a non-empty id. */
  predicate Retrieved(data: Option<CompanyData>)
  {
    data.Some? && data.value.id != ""
  }

  /** The handler as a function of the companies, the users and the
      provider's lookup (`None` when it throws). */
  function Link(rows: seq<WhopCompany>, users: seq<User>, session: Option<Session>, req: ConnectRequest,
                retrieve: string -> Option<CompanyData>)
    : (r: (seq<WhopCompany>, Result<WhopCompany, ConnectError>))
    ensures r.1.Err? ==> r.0 == rows
    ensures !SignedIn(session) ==> r.1 == Err(Unauthorized)
    ensures SignedIn(session) && !IsAdmin(SessionUserOf(session)) ==> r.1 == Err(Forbidden)
    ensures SignedIn(session) && IsAdmin(SessionUserOf(session))
            && !(Truthy(req.companyId) && Truthy(req.userEmail)) ==>
              r.1 == Err(MissingFields)
    ensures SignedIn(session) && IsAdmin(SessionUserOf(session))
            && Truthy(req.companyId) && Truthy(req.userEmail)
            && !HasKey(users, EmailOf, req.userEmail.value) ==>
              r.1 == Err(UserNotFound)
    ensures SignedIn(session) && IsAdmin(SessionUserOf(session))
            && Truthy(req.companyId) && Truthy(req.userEmail)
            && HasKey(users, EmailOf, req.userEmail.value)
            && HasKey(rows, CompanyUserOf, FindByKey(users, EmailOf, req.userEmail.value).value.id) ==>
              r.1 == Err(AlreadyConnected)
    ensures SignedIn(session) && IsAdmin(SessionUserOf(session))
            && Truthy(req.companyId) && Truthy(req.userEmail)
            && HasKey(users, EmailOf, req.userEmail.value)
            && !HasKey(rows, CompanyUserOf, FindByKey(users, EmailOf, req.userEmail.value).value.id)
            && !Retrieved(retrieve(req.companyId.value)) ==>
              r.1 == Err(ProviderError)
    ensures r.1.Ok? <==>
              && SignedIn(session) && IsAdmin(SessionUserOf(session))
              && Truthy(req.companyId) && Truthy(req.userEmail)
              && HasKey(users, EmailOf, req.userEmail.value)
              && !HasKey(rows, CompanyUserOf, FindByKey(users, EmailOf, req.userEmail.value).value.id)
              && Retrieved(retrieve(req.companyId.value))
    ensures r.1.Ok? ==>
              && SignedIn(session) && IsAdmin(SessionUserOf(session))
              && Truthy(req.companyId) && Truthy(req.userEmail)
              && var user := FindByKey(users, EmailOf, req.userEmail.value);
                 && user.Some?
                 && !HasKey(rows, CompanyUserOf, user.value.id)
                 && Retrieved(retrieve(req.companyId.value))
                 && var data := retrieve(req.companyId.value).value;
                    && r.1.value == WhopCompany(user.value.id, data.id, data.title, data)
                    && r.0 == rows + [r.1.value]
    ensures UniqueBy(rows, CompanyUserOf) ==> UniqueBy(r.0, CompanyUserOf)
  {
    if !SignedIn(session) then (rows, Err(Unauthorized))
    else if !IsAdmin(SessionUserOf(session)) then (rows, Err(Forbidden))
    else if !Truthy(req.companyId) || !Truthy(req.userEmail) then (rows, Err(MissingFields))
    else match FindByKey(users, EmailOf, req.userEmail.value)
      case None => (rows, Err(UserNotFound))
      case Some(user) =>
        if HasKey(rows, CompanyUserOf, user.id) then (rows, Err(AlreadyConnected))
        else
          var data := retrieve(req.companyId.value);
          if !Retrieved(data) then (rows, Err(ProviderError))
          else
            var c := WhopCompany(user.id, data.value.id, data.value.title, data.value);
            assert UniqueBy(rows, CompanyUserOf) ==> UniqueBy(rows + [c], CompanyUserOf) by {
              if UniqueBy(rows, CompanyUserOf) { AppendKeepsUnique(rows, CompanyUserOf, c); }
            }
            (rows + [c], Ok(c))
  }

  /** `POST /api/admin/connect-company`. */
  method HandleConnect(companies: CompanyTable, users: seq<User>, session: Option<Session>,
                       req: ConnectRequest, retrieve: string -> Option<CompanyData>)
    returns (response: Result<WhopCompany, ConnectError>)
    requires companies.Valid()
    modifies companies
    ensures companies.Valid()
    ensures (companies.rows, response) == Link(old(companies.rows), users, session, req, retrieve)
  {
    if !SignedIn(session) {
      return Err(Unauthorized);
    }
    if !IsAdmin(session.value.user.value) {
      return Err(Forbidden);
    }
    if !Truthy(req.companyId) || !Truthy(req.userEmail) {
      return Err(MissingFields);
    }
    var user := FindByKey(users, EmailOf, req.userEmail.value);
    if user.None? {
      return Err(UserNotFound);
    }
    if HasKey(companies.rows, CompanyUserOf, user.value.id) {
      return Err(AlreadyConnected);
    }
    var companyData := retrieve(req.companyId.value);
    if companyData.None? || companyData.value.id == "" {
      return Err(ProviderError);
    }
    var whopCompany := WhopCompany(user.value.id, companyData.value.id, companyData.value.title, companyData.value);
    companies.Create(whopCompany);
    return Ok(whopCompany);
  }

  /** A request to either route that writes payout companies. */
  datatype CompanyOp =
    | SelfSetup(users: seq<User>, session: Option<Session>, provider: PayoutsSetup.CompanyRequest -> PayoutsSetup.CreateReply)
    | AdminLink(users: seq<User>, session: Option<Session>, req: ConnectRequest, retrieve: string -> Option<CompanyData>)

  function Step(rows: seq<WhopCompany>, op: CompanyOp): seq<WhopCompany>
  {
    match op
    case SelfSetup(users, session, provider) => PayoutsSetup.Setup(rows, users, session, provider).0
    case AdminLink(users, session, req, retrieve) => Link(rows, users, session, req, retrieve).0
  }

  /** The companies after the requests, in order; rows are only ever
      added, and at most one per user. */
  function Run(rows: seq<WhopCompany>, ops: seq<CompanyOp>): (r: seq<WhopCompany>)
    ensures UniqueBy(rows, CompanyUserOf) ==> UniqueBy(r, CompanyUserOf)
    ensures |rows| <= |r| && r[..|rows|] == rows
    decreases |ops|
  {
    if ops == [] then rows
    else
      var next := Step(rows, ops[0]);
      var r := Run(next, ops[1..]);
      assert r[..|rows|] == r[..|next|][..|rows|];
      r
  }

  /** However self-service setups and admin links interleave, no user
      ends up with two payout companies. */
  lemma OneCompanyPerUser(rows: seq<WhopCompany>, ops: seq<CompanyOp>, userId: string)
    requires UniqueBy(rows, CompanyUserOf)
    ensures CountKey(Run(rows, ops), CompanyUserOf, userId) <= 1
  {
    UniqueCountAtMostOne(Run(rows, ops), CompanyUserOf, userId);
  }
}
