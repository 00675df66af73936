/**
 * The create and list endpoints of main.py. Each create endpoint validates
 * its body (pydantic, before the handler runs), makes one insert into its
 * kind's collection and answers with the store's id and a fixed message;
 * each list endpoint validates its e-mail parameter, builds its filter and
 * makes one query. The store (`database.create_document`,
 * `database.get_documents`) is not part of this model: what it answers to
 * a call is the parameter `insert` or `find`. Any exception around the
 * store call becomes HTTP 500 carrying the exception's text.
 */
module Api {
  import opened Wrappers
  import opened Kinds
  import opened Filters
  import Schemas

  /** `limit: int = 50`. */
  const DefaultLimit: int := 50

  /** A validated record of any kind, as handed to the store. */
  datatype Record =
    | AccountRecord(account: Schemas.Account)
    | PlanRecord(plan: Schemas.Plan)
    | AngebotRecord(angebot: Schemas.Angebot)
    | BeratungRecord(beratung: Schemas.Beratung)
    | ServiceTicketRecord(ticket: Schemas.ServiceTicket)
    | InspirationRecord(inspiration: Schemas.Inspiration)

  function KindOf(r: Record): Kind {
    match r
    case AccountRecord(_) => Account
    case PlanRecord(_) => Plan
    case AngebotRecord(_) => Angebot
    case BeratungRecord(_) => Beratung
    case ServiceTicketRecord(_) => ServiceTicket
    case InspirationRecord(_) => Inspiration
  }

  /** `create_document(collection, payload)`. */
  datatype Insert = Insert(collection: string, record: Record)

  /** `get_documents(collection, filter, limit)`. */
  datatype Query = Query(collection: string, filter: Filter, limit: int)

  /** What the store did with the one call made to it: answered, or raised an exception with this text. */
  datatype StoreOutcome<T> = Returned(value: T) | Raised(message: string)

  /** The error responses: a request pydantic refuses, or a store failure. */
  datatype HttpError =
    | Unprocessable(errors: seq<Schemas.FieldError>)
    | ServerError(detail: string)

  /** The HTTP status of an error response: 422 for a refused request, 500 for a store failure. */
  function StatusCode(e: HttpError): (code: int)
    ensures code == 422 <==> e.Unprocessable?
    ensures code == 500 <==> e.ServerError?
  {
    match e
    case Unprocessable(_) => 422
    case ServerError(_) => 500
  }

  /** The body of a create endpoint's response: `{"id": ..., "message": ...}`. */
  datatype Created = Created(id: string, message: string)

  /** One request: the store call the handler made (none when the request was refused first) and the response. */
  datatype Exchange<C, T> = Exchange(call: Option<C>, response: Result<T, HttpError>)

  /** `except Exception as e: raise HTTPException(status_code=500, detail=str(e))`. */
  function Guard<T>(o: StoreOutcome<T>): (r: Result<T, HttpError>)
    ensures r.Ok? <==> o.Returned?
    ensures r.Ok? ==> r.value == o.value
    ensures r.Err? ==> r.error == ServerError(o.message) && StatusCode(r.error) == 500
  {
    match o
    case Returned(v) => Ok(v)
    case Raised(m) => Err(ServerError(m))
  }

  // ------------------------------------------------------------- writes

  /** The confirmation text of each create endpoint. */
  function Message(k: Kind): (m: string)
    ensures KindOfMessage(m) == Some(k)
  {
    match k
    case Account => "Account angelegt"
    case Plan => "Plan erstellt"
    case Angebot => "Angebot erstellt"
    case Beratung => "Beratungsanfrage erfasst"
    case ServiceTicket => "Service-Ticket erstellt"
    case Inspiration => "Inspiration veröffentlicht"
  }

  /** The kind whose create endpoint answers with message `m`, if any: the inverse of Message. */
  function KindOfMessage(m: string): Option<Kind> {
    if m == "Account angelegt" then Some(Account)
    else if m == "Plan erstellt" then Some(Plan)
    else if m == "Angebot erstellt" then Some(Angebot)
    else if m == "Beratungsanfrage erfasst" then Some(Beratung)
    else if m == "Service-Ticket erstellt" then Some(ServiceTicket)
    else if m == "Inspiration veröffentlicht" then Some(Inspiration)
    else None
  }

  /** Where a create of kind `k` writes, and the message it answers with. */
  function WriteTarget(k: Kind): (t: (string, string))
    ensures KindOfCollection(t.0) == Some(k) && KindOfMessage(t.1) == Some(k)
    ensures k == Account ==> t == ("account", "Account angelegt")
    ensures k == Plan ==> t == ("plan", "Plan erstellt")
    ensures k == Angebot ==> t == ("angebot", "Angebot erstellt")
    ensures k == Beratung ==> t == ("beratung", "Beratungsanfrage erfasst")
    ensures k == ServiceTicket ==> t == ("serviceticket", "Service-Ticket erstellt")
    ensures k == Inspiration ==> t == ("inspiration", "Inspiration veröffentlicht")
  {
    KindOfCollectionRoundTrip(k);
    CollectionNameValues();
    (CollectionName(k), Message(k))
  }

  /** Creates of different kinds write to different collections and answer differently. */
  lemma WriteTargetsDistinct(k1: Kind, k2: Kind)
    requires k1 != k2
    ensures WriteTarget(k1).0 != WriteTarget(k2).0
    ensures WriteTarget(k1).1 != WriteTarget(k2).1
  {
    CollectionNameInjective(k1, k2);
  }

  /**
   * A create handler once its body is valid: one insert of the record into
   * its own kind's collection, answered with the store's id and the kind's
   * message, or with 500 and the exception's text.
   */
  function Persist(rec: Record, insert: Insert -> StoreOutcome<string>): (x: Exchange<Insert, Created>)
    ensures x.call.Some? && x.call.value.record == rec
    ensures x.call.value.collection == CollectionName(KindOf(rec))
    ensures insert(x.call.value).Returned? ==>
              x.response == Ok(Created(insert(x.call.value).value, Message(KindOf(rec))))
    ensures insert(x.call.value).Raised? ==>
              x.response == Err(ServerError(insert(x.call.value).message))
  {
    var (collection, message) := WriteTarget(KindOf(rec));
    var call := Insert(collection, rec);
    match insert(call)
    case Returned(id) => Exchange(Some(call), Ok(Created(id, message)))
    case Raised(e) => Exchange(Some(call), Guard<Created>(Raised(e)))
  }

  /** A create endpoint: a body pydantic refuses never reaches the store and is answered 422. */
  function Create<R>(validated: Result<R, seq<Schemas.FieldError>>, wrap: R -> Record,
                     insert: Insert -> StoreOutcome<string>): (x: Exchange<Insert, Created>)
    ensures x.call.Some? <==> validated.Ok?
    ensures validated.Err? ==> x.response == Err(Unprocessable(validated.error))
    ensures validated.Ok? ==> x == Persist(wrap(validated.value), insert)
  {
    match validated
    case Err(es) => Exchange(None, Err(Unprocessable(es)))
    case Ok(r) => Persist(wrap(r), insert)
  }

  /** `POST /account`. */
  function CreateAccount(body: Schemas.AccountBody, isEmail: string -> bool,
                         insert: Insert -> StoreOutcome<string>): (x: Exchange<Insert, Created>)
    ensures x.call.Some? <==> Schemas.NewAccount(body, isEmail).Ok?
    ensures x.call.Some? ==> x.call.value == Insert("account", AccountRecord(Schemas.NewAccount(body, isEmail).value))
    ensures x.call.Some? && insert(x.call.value).Returned? ==>
              x.response == Ok(Created(insert(x.call.value).value, "Account angelegt"))
    ensures x.call.Some? && insert(x.call.value).Raised? ==>
              x.response == Err(ServerError(insert(x.call.value).message))
    ensures x.call.None? ==> x.response == Err(Unprocessable(Schemas.NewAccount(body, isEmail).error))
  {
    AccountCollectionName();
    Create(Schemas.NewAccount(body, isEmail), r => AccountRecord(r), insert)
  }

  /** `POST /plan`. */
  function CreatePlan(body: Schemas.PlanBody, isEmail: string -> bool,
                      insert: Insert -> StoreOutcome<string>): (x: Exchange<Insert, Created>)
    ensures x.call.Some? <==> Schemas.NewPlan(body, isEmail).Ok?
    ensures x.call.Some? ==> x.call.value == Insert("plan", PlanRecord(Schemas.NewPlan(body, isEmail).value))
    ensures x.call.Some? && insert(x.call.value).Returned? ==>
              x.response == Ok(Created(insert(x.call.value).value, "Plan erstellt"))
    ensures x.call.Some? && insert(x.call.value).Raised? ==>
              x.response == Err(ServerError(insert(x.call.value).message))
    ensures x.call.None? ==> x.response == Err(Unprocessable(Schemas.NewPlan(body, isEmail).error))
  {
    PlanCollectionName();
    Create(Schemas.NewPlan(body, isEmail), r => PlanRecord(r), insert)
  }

  /** `POST /angebot`. */
  function CreateAngebot(body: Schemas.AngebotBody,
                         insert: Insert -> StoreOutcome<string>): (x: Exchange<Insert, Created>)
    ensures x.call.Some? <==> Schemas.NewAngebot(body).Ok?
    ensures x.call.Some? ==> x.call.value == Insert("angebot", AngebotRecord(Schemas.NewAngebot(body).value))
    ensures x.call.Some? && insert(x.call.value).Returned? ==>
              x.response == Ok(Created(insert(x.call.value).value, "Angebot erstellt"))
    ensures x.call.Some? && insert(x.call.value).Raised? ==>
              x.response == Err(ServerError(insert(x.call.value).message))
    ensures x.call.None? ==> x.response == Err(Unprocessable(Schemas.NewAngebot(body).error))
  {
    AngebotCollectionName();
    Create(Schemas.NewAngebot(body), r => AngebotRecord(r), insert)
  }

  /** `POST /beratung`. */
  function CreateBeratung(body: Schemas.BeratungBody, isEmail: string -> bool,
                          insert: Insert -> StoreOutcome<string>): (x: Exchange<Insert, Created>)
    ensures x.call.Some? <==> Schemas.NewBeratung(body, isEmail).Ok?
    ensures x.call.Some? ==> x.call.value == Insert("beratung", BeratungRecord(Schemas.NewBeratung(body, isEmail).value))
    ensures x.call.Some? && insert(x.call.value).Returned? ==>
              x.response == Ok(Created(insert(x.call.value).value, "Beratungsanfrage erfasst"))
    ensures x.call.Some? && insert(x.call.value).Raised? ==>
              x.response == Err(ServerError(insert(x.call.value).message))
    ensures x.call.None? ==> x.response == Err(Unprocessable(Schemas.NewBeratung(body, isEmail).error))
  {
    BeratungCollectionName();
    Create(Schemas.NewBeratung(body, isEmail), r => BeratungRecord(r), insert)
  }

  /** `POST /service`. */
  function CreateServiceTicket(body: Schemas.ServiceTicketBody, isEmail: string -> bool,
                               insert: Insert -> StoreOutcome<string>): (x: Exchange<Insert, Created>)
    ensures x.call.Some? <==> Schemas.NewServiceTicket(body, isEmail).Ok?
    ensures x.call.Some? ==> x.call.value == Insert("serviceticket", ServiceTicketRecord(Schemas.NewServiceTicket(body, isEmail).value))
    ensures x.call.Some? && insert(x.call.value).Returned? ==>
              x.response == Ok(Created(insert(x.call.value).value, "Service-Ticket erstellt"))
    ensures x.call.Some? && insert(x.call.value).Raised? ==>
              x.response == Err(ServerError(insert(x.call.value).message))
    ensures x.call.None? ==> x.response == Err(Unprocessable(Schemas.NewServiceTicket(body, isEmail).error))
  {
    ServiceTicketCollectionName();
    Create(Schemas.NewServiceTicket(body, isEmail), r => ServiceTicketRecord(r), insert)
  }

  /** `POST /inspiration`. */
  function CreateInspiration(body: Schemas.InspirationBody,
                             insert: Insert -> StoreOutcome<string>): (x: Exchange<Insert, Created>)
    ensures x.call.Some? <==> Schemas.NewInspiration(body).Ok?
    ensures x.call.Some? ==> x.call.value == Insert("inspiration", InspirationRecord(Schemas.NewInspiration(body).value))
    ensures x.call.Some? && insert(x.call.value).Returned? ==>
              x.response == Ok(Created(insert(x.call.value).value, "Inspiration veröffentlicht"))
    ensures x.call.Some? && insert(x.call.value).Raised? ==>
              x.response == Err(ServerError(insert(x.call.value).message))
    ensures x.call.None? ==> x.response == Err(Unprocessable(Schemas.NewInspiration(body).error))
  {
    InspirationCollectionName();
    Create(Schemas.NewInspiration(body), r => InspirationRecord(r), insert)
  }

  /** A body with a malformed e-mail address is answered 422 and nothing is written. */
  lemma MalformedEmailNeverStored(body: Schemas.AccountBody, isEmail: string -> bool,
                                  insert: Insert -> StoreOutcome<string>)
    requires body.email.Some? && !isEmail(body.email.value)
    ensures CreateAccount(body, isEmail, insert).call.None?
    ensures CreateAccount(body, isEmail, insert).response.Err?
    ensures StatusCode(CreateAccount(body, isEmail, insert).response.error) == 422
    ensures Schemas.NotAnEmail("email") in CreateAccount(body, isEmail, insert).response.error.errors
  {
  }

  // -------------------------------------------------------------- reads

  /** The page size a list endpoint passes on: the caller's, unclamped, or 50. */
  function LimitOf(limit: Option<int>): (n: int)
    ensures limit.Some? ==> n == limit.value
    ensures limit.None? ==> n == DefaultLimit
  {
    limit.GetOr(DefaultLimit)
  }

  /** An `Optional[EmailStr]` query parameter: absent is fine, a supplied value must be an address. */
  function EmailParamErrors(name: string, p: Option<string>, isEmail: string -> bool): (es: seq<Schemas.FieldError>)
    ensures es == [] <==> (p.Some? ==> isEmail(p.value))
    ensures es != [] ==> es == [Schemas.NotAnEmail(name)]
  {
    if p.Some? && !isEmail(p.value) then [Schemas.NotAnEmail(name)] else []
  }

  /** A list handler: one query, answered with the store's documents or with 500. */
  function Fetch<D>(q: Query, find: Query -> StoreOutcome<seq<D>>): (x: Exchange<Query, seq<D>>)
    ensures x.call == Some(q)
    ensures find(q).Returned? ==> x.response == Ok(find(q).value)
    ensures find(q).Raised? ==> x.response == Err(ServerError(find(q).message))
  {
    Exchange(Some(q), Guard(find(q)))
  }

  /** A list endpoint whose query parameters were refused before the handler ran. */
  function Refused<D>(errors: seq<Schemas.FieldError>): (x: Exchange<Query, seq<D>>)
    ensures x.call.None?
    ensures x.response.Err? && StatusCode(x.response.error) == 422 && x.response.error.errors == errors
  {
    Exchange(None, Err(Unprocessable(errors)))
  }

  /** `GET /account?email=&limit=`. */
  function ListAccounts<D>(email: Option<string>, limit: Option<int>, isEmail: string -> bool,
                           find: Query -> StoreOutcome<seq<D>>): (x: Exchange<Query, seq<D>>)
    ensures x.call.Some? <==> (email.Some? ==> isEmail(email.value))
    ensures x.call.Some? ==> x.call.value == Query("account", AccountFilter(email), LimitOf(limit))
                             && x == Fetch(x.call.value, find)
    ensures x.call.None? ==> x.response == Err(Unprocessable([Schemas.NotAnEmail("email")]))
  {
    var errors := EmailParamErrors("email", email, isEmail);
    if errors != [] then Refused(errors)
    else
      AccountCollectionName();
      Fetch(Query(CollectionName(Account), AccountFilter(email), LimitOf(limit)), find)
  }

  /** `GET /plan?account_email=&limit=`. */
  function ListPlans<D>(accountEmail: Option<string>, limit: Option<int>, isEmail: string -> bool,
                        find: Query -> StoreOutcome<seq<D>>): (x: Exchange<Query, seq<D>>)
    ensures x.call.Some? <==> (accountEmail.Some? ==> isEmail(accountEmail.value))
    ensures x.call.Some? ==> x.call.value == Query("plan", PlanFilter(accountEmail), LimitOf(limit))
                             && x == Fetch(x.call.value, find)
    ensures x.call.None? ==> x.response == Err(Unprocessable([Schemas.NotAnEmail("account_email")]))
  {
    var errors := EmailParamErrors("account_email", accountEmail, isEmail);
    if errors != [] then Refused(errors)
    else
      PlanCollectionName();
      Fetch(Query(CollectionName(Plan), PlanFilter(accountEmail), LimitOf(limit)), find)
  }

  /** `GET /angebot?plan_id=&status=&limit=`: the filter dict is built entry by entry. */
  method ListAngebote<D>(planId: Option<string>, status: Option<string>, limit: Option<int>,
                         find: Query -> StoreOutcome<seq<D>>) returns (x: Exchange<Query, seq<D>>)
    ensures x.call == Some(Query("angebot", AngebotFilter(planId, status), LimitOf(limit)))
    ensures x == Fetch(x.call.value, find)
  {
    var f := BuildAngebotFilter(planId, status);
    AngebotCollectionName();
    x := Fetch(Query(CollectionName(Angebot), f, LimitOf(limit)), find);
  }

  /** `GET /beratung?account_email=&limit=`. */
  function ListBeratungen<D>(accountEmail: Option<string>, limit: Option<int>, isEmail: string -> bool,
                             find: Query -> StoreOutcome<seq<D>>): (x: Exchange<Query, seq<D>>)
    ensures x.call.Some? <==> (accountEmail.Some? ==> isEmail(accountEmail.value))
    ensures x.call.Some? ==> x.call.value == Query("beratung", BeratungFilter(accountEmail), LimitOf(limit))
                             && x == Fetch(x.call.value, find)
    ensures x.call.None? ==> x.response == Err(Unprocessable([Schemas.NotAnEmail("account_email")]))
  {
    var errors := EmailParamErrors("account_email", accountEmail, isEmail);
    if errors != [] then Refused(errors)
    else
      BeratungCollectionName();
      Fetch(Query(CollectionName(Beratung), BeratungFilter(accountEmail), LimitOf(limit)), find)
  }

  /** `GET /service?account_email=&status=&limit=`: the filter dict is built entry by entry. */
  method ListService<D>(accountEmail: Option<string>, status: Option<string>, limit: Option<int>,
                        isEmail: string -> bool, find: Query -> StoreOutcome<seq<D>>)
    returns (x: Exchange<Query, seq<D>>)
    ensures x.call.Some? <==> (accountEmail.Some? ==> isEmail(accountEmail.value))
    ensures x.call.Some? ==> x.call.value == Query("serviceticket", ServiceFilter(accountEmail, status), LimitOf(limit))
                             && x == Fetch(x.call.value, find)
    ensures x.call.None? ==> x.response == Err(Unprocessable([Schemas.NotAnEmail("account_email")]))
  {
    var errors := EmailParamErrors("account_email", accountEmail, isEmail);
    if errors != [] {
      x := Refused(errors);
      return;
    }
    var f := BuildServiceFilter(accountEmail, status);
    ServiceTicketCollectionName();
    x := Fetch(Query(CollectionName(ServiceTicket), f, LimitOf(limit)), find);
  }

  /** `GET /inspiration?tag=&limit=`. */
  function ListInspiration<D>(tag: Option<string>, limit: Option<int>,
                              find: Query -> StoreOutcome<seq<D>>): (x: Exchange<Query, seq<D>>)
    ensures x.call == Some(Query("inspiration", InspirationFilter(tag), LimitOf(limit)))
    ensures x == Fetch(x.call.value, find)
  {
    InspirationCollectionName();
    Fetch(Query(CollectionName(Inspiration), InspirationFilter(tag), LimitOf(limit)), find)
  }

  /** Whatever limit the caller gives, however small or large, is the one the store receives. */
  lemma LimitUnclamped<D>(email: Option<string>, accountEmail: Option<string>, tag: Option<string>, n: int,
                          isEmail: string -> bool, find: Query -> StoreOutcome<seq<D>>)
    ensures ListAccounts(email, Some(n), isEmail, find).call.Some? ==>
              ListAccounts(email, Some(n), isEmail, find).call.value.limit == n
    ensures ListPlans(accountEmail, Some(n), isEmail, find).call.Some? ==>
              ListPlans(accountEmail, Some(n), isEmail, find).call.value.limit == n
    ensures ListBeratungen(accountEmail, Some(n), isEmail, find).call.Some? ==>
              ListBeratungen(accountEmail, Some(n), isEmail, find).call.value.limit == n
    ensures ListInspiration(tag, Some(n), find).call.value.limit == n
  {
  }

  /** Without a limit every list endpoint that queries asks for 50 documents. */
  lemma LimitDefault<D>(email: Option<string>, accountEmail: Option<string>, tag: Option<string>,
                        isEmail: string -> bool, find: Query -> StoreOutcome<seq<D>>)
    ensures ListAccounts(email, None, isEmail, find).call.Some? ==>
              ListAccounts(email, None, isEmail, find).call.value.limit == 50
    ensures ListPlans(accountEmail, None, isEmail, find).call.Some? ==>
              ListPlans(accountEmail, None, isEmail, find).call.value.limit == 50
    ensures ListBeratungen(accountEmail, None, isEmail, find).call.Some? ==>
              ListBeratungen(accountEmail, None, isEmail, find).call.value.limit == 50
    ensures ListInspiration(tag, None, find).call.value.limit == 50
  {
  }
}
