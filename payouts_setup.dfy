/** Payout account setup (src/app/api/payouts/setup/route.ts): a signed-in
    user without a payout company gets one created at the provider, titled
    by their name or the local part of their email, and recorded for
    them. */
module PayoutsSetup {
  import opened Common
  import opened Store

  /** The body sent to the provider's `POST /companies`; the parent company
      id, a deployment setting, is not modelled. */
  datatype CompanyRequest = CompanyRequest(email: string, title: string)

  /** The provider's answer. */
  datatype CreateReply = CreateFailed(httpStatus: int) | CompanyCreated(company: CompanyData)

  datatype SetupError =
    | Unauthorized
    | AlreadySetUp
    | UserNotFound
    | ProviderError(httpStatus: int)

  /** The provider's own status for a failed creation, a client error
      otherwise: 401 only for a missing session, 404 only for a missing
      user row. */
  function HttpStatus(e: SetupError): (status: int)
    ensures e.ProviderError? ==> status == e.httpStatus
    ensures !e.ProviderError? ==> 400 <= status < 500
    ensures !e.ProviderError? ==> (status == 401 <==> e == Unauthorized)
    ensures !e.ProviderError? ==> (status == 404 <==> e == UserNotFound)
  {
    match e
    case Unauthorized => 401
    case AlreadySetUp => 400
    case UserNotFound => 404
    case ProviderError(status) => status
  }

  /** `user.name || user.email.split('@')[0]`. */
  function CompanyTitle(u: User): (title: string)
    ensures Truthy(u.name) ==> title == u.name.value
    ensures !Truthy(u.name) ==> title <= u.email && '@' !in title
    ensures !Truthy(u.name) && |title| < |u.email| ==> u.email[|title|] == '@'
  {
    OrElse(u.name, BeforeFirst(u.email, '@'))
  }

  /** The handler as a function of the companies, the users and the
      provider: rejections in the order of the checks change nothing; on
      success the provider was asked once with the user's email and title,
      and exactly one company is recorded for the session's user. */
  function Setup(rows: seq<WhopCompany>, users: seq<User>, session: Option<Session>,
                 provider: CompanyRequest -> CreateReply)
    : (r: (seq<WhopCompany>, Result<WhopCompany, SetupError>))
    ensures r.1.Err? ==> r.0 == rows
    ensures !SignedIn(session) ==> r.1 == Err(Unauthorized)
    ensures SignedIn(session) && HasKey(rows, CompanyUserOf, SessionUserOf(session).id) ==>
              r.1 == Err(AlreadySetUp)
    ensures SignedIn(session) && !HasKey(rows, CompanyUserOf, SessionUserOf(session).id)
            && !HasKey(users, UserIdOf, SessionUserOf(session).id) ==>
              r.1 == Err(UserNotFound)
    ensures SignedIn(session) && !HasKey(rows, CompanyUserOf, SessionUserOf(session).id)
            && HasKey(users, UserIdOf, SessionUserOf(session).id) ==>
              var user := FindByKey(users, UserIdOf, SessionUserOf(session).id).value;
              var reply := provider(CompanyRequest(user.email, CompanyTitle(user)));
              && (reply.CreateFailed? ==> r.1 == Err(ProviderError(reply.httpStatus)))
              && (reply.CompanyCreated? ==> r.1.Ok?)
    ensures r.1.Ok? ==>
              && SignedIn(session)
              && !HasKey(rows, CompanyUserOf, SessionUserOf(session).id)
              && var user := FindByKey(users, UserIdOf, SessionUserOf(session).id);
                 && user.Some?
                 && provider(CompanyRequest(user.value.email, CompanyTitle(user.value))).CompanyCreated?
                 && var data := provider(CompanyRequest(user.value.email, CompanyTitle(user.value))).company;
                    && r.1.value == WhopCompany(SessionUserOf(session).id, data.id, data.title, data)
                    && r.0 == rows + [r.1.value]
    ensures UniqueBy(rows, CompanyUserOf) ==> UniqueBy(r.0, CompanyUserOf)
  {
    if !SignedIn(session) then (rows, Err(Unauthorized))
    else
      var id := SessionUserOf(session).id;
      if HasKey(rows, CompanyUserOf, id) then (rows, Err(AlreadySetUp))
      else match FindByKey(users, UserIdOf, id)
        case None => (rows, Err(UserNotFound))
        case Some(user) =>
          match provider(CompanyRequest(user.email, CompanyTitle(user)))
          case CreateFailed(status) => (rows, Err(ProviderError(status)))
          case CompanyCreated(data) =>
            var c := WhopCompany(id, data.id, data.title, data);
            assert UniqueBy(rows, CompanyUserOf) ==> UniqueBy(rows + [c], CompanyUserOf) by {
              if UniqueBy(rows, CompanyUserOf) { AppendKeepsUnique(rows, CompanyUserOf, c); }
            }
            (rows + [c], Ok(c))
  }

  /** `POST /api/payouts/setup`. */
  method SetupPayouts(companies: CompanyTable, users: seq<User>, session: Option<Session>,
                      provider: CompanyRequest -> CreateReply)
    returns (response: Result<WhopCompany, SetupError>)
    requires companies.Valid()
    modifies companies
    ensures companies.Valid()
    ensures (companies.rows, response) == Setup(old(companies.rows), users, session, provider)
  {
    if !SignedIn(session) {
      return Err(Unauthorized);
    }
    var userId := session.value.user.value.id;
    var existingCompany := FindByKey(companies.rows, CompanyUserOf, userId);
    if existingCompany.Some? {
      return Err(AlreadySetUp);
    }
    var user := FindByKey(users, UserIdOf, userId);
    if user.None? {
      return Err(UserNotFound);
    }
    var whopResponse := provider(CompanyRequest(user.value.email, CompanyTitle(user.value)));
    if whopResponse.CreateFailed? {
      return Err(ProviderError(whopResponse.httpStatus));
    }
    var whopCompanyData := whopResponse.company;
    var whopCompany := WhopCompany(userId, whopCompanyData.id, whopCompanyData.title, whopCompanyData);
    companies.Create(whopCompany);
    return Ok(whopCompany);
  }

  /** When the provider refuses to create the company, the route answers
      with the provider's own HTTP status and records nothing. */
  lemma ProviderStatusForwarded(rows: seq<WhopCompany>, users: seq<User>, session: Option<Session>,
                                provider: CompanyRequest -> CreateReply)
    requires SignedIn(session) && !HasKey(rows, CompanyUserOf, SessionUserOf(session).id)
    requires HasKey(users, UserIdOf, SessionUserOf(session).id)
    requires var user := FindByKey(users, UserIdOf, SessionUserOf(session).id).value;
             provider(CompanyRequest(user.email, CompanyTitle(user))).CreateFailed?
    ensures var user := FindByKey(users, UserIdOf, SessionUserOf(session).id).value;
            var r := Setup(rows, users, session, provider);
            && r.0 == rows && r.1.Err?
            && HttpStatus(r.1.error) == provider(CompanyRequest(user.email, CompanyTitle(user))).httpStatus
  {
  }

  /** Once set up, a second request is refused and leaves the company as
      it was, whatever the provider would answer. */
  lemma SetupOnce(rows: seq<WhopCompany>, users: seq<User>, session: Option<Session>,
                  p1: CompanyRequest -> CreateReply, p2: CompanyRequest -> CreateReply)
    requires Setup(rows, users, session, p1).1.Ok?
    ensures var after := Setup(rows, users, session, p1).0;
            Setup(after, users, session, p2) == (after, Err(AlreadySetUp))
  {
    var c := Setup(rows, users, session, p1).1.value;
    AppendHasKey(rows, CompanyUserOf, c, c.userId);
  }
}
