# LIVARO Home API: record schemas, collection naming and query filters

This project models the core of the LIVARO Home backend, a small HTTP API
over six record kinds (Account, Plan, Angebot, Beratung, ServiceTicket,
Inspiration) kept in a MongoDB database:

- **Collection naming** (`Kinds`): a kind is stored in the collection named
  by its lower-cased class name; the six names are computed, listed and
  proved distinct, with an inverse lookup from collection name to kind.
- **Record schemas** (`Schemas`): the six pydantic classes as datatypes,
  a request body as the same fields each wrapped in `Option` (absent or
  supplied), and a constructor per class that applies the defaults,
  rejects missing required fields, negative `ge=0` numbers and malformed
  e-mail addresses, and reports every field error (collected field by
  field in declaration order; the contracts state which fields are named
  as missing, not the order). Each class has a validity predicate
  (Inspiration's holds of every inspiration, since the class declares no
  constraint) and a round-trip lemma: rebuilding a record from its own
  fields accepts exactly the valid records, unchanged.
- **Query filters** (`Filters`): the filter each list endpoint builds from
  its optional query parameters: a single exact match (accounts, plans,
  consultations), a conjunction of exact matches on whichever of two
  parameters are given (offers, service tickets) and a one-element `$in`
  containment test (inspirations). A parameter counts as given when it is
  Python-truthy, so an empty string is treated as absent (an empty
  `Optional[EmailStr]` parameter only reaches the filter if `isEmail`
  accepts it; otherwise it is refused with 422 first). The two filters
  that the handlers build entry by entry are methods proved equal to their
  pure definitions.
- **Endpoints** (`Api`): each create endpoint as the store call it makes
  (one insert into its own kind's collection, none when pydantic refuses
  the body) and the response (the store's id with the kind's fixed
  message, 422 with the field errors, or 500 with the exception's text);
  each list endpoint as the `(collection, filter, limit)` query it makes
  and the response. The limit is passed on unchanged, 50 when absent.

The document store is not modelled: what it answers to an insert or a
query is a function parameter (`insert`, `find`), so store-assigned ids
and stored documents are opaque. E-mail syntax is the parameter
`isEmail`.

Files: `wrappers.dfy` (Option, Result), `kinds.dfy`, `schemas.dfy`,
`filters.dfy`, `api.dfy`.

## Model

| member | source | states |
|---|---|---|
| Kinds.ClassName | main.py:49 | each kind's `__name__` is a non-empty run of ASCII letters starting with a capital |
| Kinds.LowerChar | main.py:49 | an ASCII upper-case letter becomes its lower-case letter, every other character is kept, and the result is never upper-case |
| Kinds.Lower | main.py:49 | lower-casing keeps the length and lower-cases each character in place |
| Kinds.LowerIdempotent | main.py:49 | lower-casing an already lower-cased string changes nothing |
| Kinds.CollectionName | main.py:48-49 | a kind's collection name has its class name's length and contains no upper-case letter |
| Kinds.CollectionNameValues | schemas.py:4-5 | the six collections are "account", "plan", "angebot", "beratung", "serviceticket" and "inspiration" |
| Kinds.AccountCollectionName | main.py:56 | `collection_name(Account)` is "account" |
| Kinds.PlanCollectionName | main.py:72 | `collection_name(Plan)` is "plan" |
| Kinds.AngebotCollectionName | main.py:88 | `collection_name(Angebot)` is "angebot" |
| Kinds.BeratungCollectionName | main.py:108 | `collection_name(Beratung)` is "beratung" |
| Kinds.ServiceTicketCollectionName | main.py:124 | `collection_name(ServiceTicket)` is "serviceticket" |
| Kinds.InspirationCollectionName | main.py:144 | `collection_name(Inspiration)` is "inspiration" |
| Kinds.KindOfCollectionRoundTrip | main.py:48-49 | looking up a kind's collection name gives back that kind |
| Kinds.KindOfCollectionExact | main.py:48-49 | a name leads to a kind if and only if it is that kind's collection name |
| Kinds.CollectionNameInjective | schemas.py:4-5 | two kinds share a collection name if and only if they are the same kind |
| Schemas.RequiredErrors | schemas.py:12-13 | a `Field(...)` field yields no error exactly when supplied, and otherwise one "missing" error naming it |
| Schemas.EmailErrors | schemas.py:14 | a required `EmailStr` field is accepted exactly when supplied and an address; otherwise one "missing" or one "not an e-mail" error |
| Schemas.BoundErrors | schemas.py:24 | an optional `ge=0` number is refused exactly when supplied and negative |
| Schemas.RequiredBoundErrors | schemas.py:29 | a required `ge=0` number is accepted exactly when supplied and non-negative; otherwise one "missing" or one "negative" error |
| Schemas.ValidAccount | schemas.py:14 | an account is valid exactly when its `EmailStr` check reports no error for its e-mail |
| Schemas.NewAccount | schemas.py:11-17 | an account is built exactly when first name, last name and a valid e-mail are supplied; it is valid, keeps the supplied fields and defaults `rolle` to "kunde" and `marketing_opt_in` to false; a refusal lists at least one error |
| Schemas.AccountRoundTrip | schemas.py:11-17 | rebuilding an account from its own fields gives it back if its e-mail is valid, and otherwise fails on the e-mail alone |
| Schemas.AccountDefaults | schemas.py:15-17 | an account given only its required fields has no phone, role "kunde" and no marketing consent |
| Schemas.AccountMissingReported | schemas.py:12-14 | an account body lacking any required field is refused, and a refusal names a field as missing exactly when it was left out |
| Schemas.ValidPlan | schemas.py:20-24 | a plan is valid exactly when its owner e-mail passes the `EmailStr` check and its budget passes the `ge=0` check |
| Schemas.NewPlan | schemas.py:19-24 | a plan is built exactly when a valid owner e-mail and a title are supplied and any budget is non-negative; it is valid, keeps the supplied fields and defaults `status` to "in_planung" |
| Schemas.PlanRoundTrip | schemas.py:19-24 | rebuilding a plan from its own fields accepts exactly the valid plans, unchanged |
| Schemas.PlanDefaults | schemas.py:22-24 | a plan given only owner and title is "in_planung" with no description and no budget |
| Schemas.PlanMissingReported | schemas.py:20-21 | a plan body lacking `account_email` or `titel` is refused, and a refusal names a field as missing exactly when it was left out |
| Schemas.PlanNegativeBudgetRefused | schemas.py:24 | a negative budget makes the body fail with a "negative" error naming the budget |
| Schemas.ValidAngebot | schemas.py:29 | an offer is valid exactly when its price passes the `ge=0` check |
| Schemas.NewAngebot | schemas.py:26-31 | an offer is built exactly when a title and a non-negative price are supplied; it keeps the supplied fields, `plan_id` included, and defaults `status` to "entwurf" |
| Schemas.AngebotRoundTrip | schemas.py:26-31 | rebuilding an offer from its own fields gives it back if its price is non-negative, and otherwise fails on the price alone |
| Schemas.AngebotDefaults | schemas.py:27-31 | an offer given only title and price is an "entwurf" with no plan and no expiry |
| Schemas.AngebotMissingReported | schemas.py:28-29 | an offer body lacking `titel` or `preis` is refused, and a refusal names a field as missing exactly when it was left out |
| Schemas.AngebotPlanIdUnchecked | schemas.py:27 | whether an offer is accepted does not depend on its plan reference: any string is taken |
| Schemas.ValidBeratung | schemas.py:34 | a consultation is valid exactly when its owner e-mail passes the `EmailStr` check |
| Schemas.NewBeratung | schemas.py:33-37 | a consultation is built exactly when a valid owner e-mail and a topic are supplied; it keeps the supplied fields |
| Schemas.BeratungRoundTrip | schemas.py:33-37 | rebuilding a consultation from its own fields gives it back if its e-mail is valid, and otherwise fails on the e-mail alone |
| Schemas.BeratungMissingReported | schemas.py:34-35 | a consultation body lacking `account_email` or `thema` is refused, and a refusal names a field as missing exactly when it was left out |
| Schemas.ValidServiceTicket | schemas.py:40 | a ticket is valid exactly when its owner e-mail passes the `EmailStr` check |
| Schemas.NewServiceTicket | schemas.py:39-44 | a ticket is built exactly when a valid owner e-mail, a category and a description are supplied; it keeps them and defaults `prioritaet` to "normal" and `status` to "offen" |
| Schemas.ServiceTicketRoundTrip | schemas.py:39-44 | rebuilding a ticket from its own fields accepts exactly the valid tickets, unchanged |
| Schemas.ServiceTicketDefaults | schemas.py:43-44 | a ticket given only its required fields is "offen" with priority "normal" |
| Schemas.ServiceTicketMissingReported | schemas.py:40-42 | a ticket body lacking any required field is refused, and a refusal names a field as missing exactly when it was left out |
| Schemas.ValidInspiration | schemas.py:46-50 | the class declares no constraint, so every inspiration is valid |
| Schemas.NewInspiration | schemas.py:46-50 | an inspiration is built exactly when a title is supplied; it is valid, keeps the supplied fields and has no tags when none are given; without a title the only error is the missing title |
| Schemas.InspirationRoundTrip | schemas.py:46-50 | every inspiration is valid and survives rebuilding from its own fields unchanged |
| Schemas.InspirationDefaults | schemas.py:48-50 | an inspiration given only its title has an empty tag list, no picture and no description |
| Filters.ExactIfPresent | main.py:64 | the filter has no key but the given one, has it exactly when the parameter is truthy, and then matches the parameter exactly |
| Filters.AccountFilter | main.py:64 | the account filter is `{"email": e}` exactly when a non-empty e-mail is given and has no other key |
| Filters.PlanFilter | main.py:80 | the plan filter is `{"account_email": e}` exactly when a non-empty address is given and has no other key |
| Filters.BeratungFilter | main.py:116 | the consultation filter is `{"account_email": e}` exactly when a non-empty address is given and has no other key |
| Filters.BothIfPresent | main.py:96-100 | over two distinct fields, each appears exactly when its parameter is truthy, with its exact value, and no other key appears |
| Filters.AngebotFilter | main.py:96-100 | the offer filter contains `plan_id` exactly when a non-empty plan id is given and `status` exactly when a non-empty status is given, each with its value, and nothing else |
| Filters.ServiceFilter | main.py:132-136 | the ticket filter contains `account_email` and `status` exactly when each is given non-empty, each with its value, and nothing else |
| Filters.InspirationFilter | main.py:152 | a non-empty tag yields exactly `{"tags": {"$in": [tag]}}`, a one-element containment list; otherwise the filter is empty |
| Filters.BuildAngebotFilter | main.py:96-100 | building the offer filter entry by entry gives exactly the offer filter |
| Filters.BuildServiceFilter | main.py:132-136 | building the ticket filter entry by entry gives exactly the ticket filter |
| Filters.EmptyIsAbsent | main.py:96-100 | for every endpoint, an empty-string parameter builds the same filter as a missing one |
| Filters.NothingGivenMatchesAll | main.py:64 | with no parameter given, every endpoint's filter is empty |
| Filters.AngebotConjunction | main.py:96-100 | with both plan id and status given, the offer filter is exactly the two exact-match entries |
| Filters.ServiceConjunction | main.py:132-136 | with both address and status given, the ticket filter is exactly the two exact-match entries |
| Filters.InspirationContainment | main.py:152 | a given tag is never an exact match: the only entry is the `$in` test on `tags` |
| Api.StatusCode | main.py:59 | a refused request is answered 422 and a store failure 500, and no other way round |
| Api.Guard | main.py:58-59 | a store answer passes through unchanged; a store exception becomes a 500 error carrying the exception's text |
| Api.Message | main.py:53-147 | each kind's confirmation text leads back to that kind alone, so the six texts are distinct |
| Api.WriteTarget | main.py:53-147 | a create writes to, and answers with: Account "account"/"Account angelegt", Plan "plan"/"Plan erstellt", Angebot "angebot"/"Angebot erstellt", Beratung "beratung"/"Beratungsanfrage erfasst", ServiceTicket "serviceticket"/"Service-Ticket erstellt", Inspiration "inspiration"/"Inspiration veröffentlicht"; collection and message both lead back to the kind |
| Api.WriteTargetsDistinct | main.py:53-147 | creates of different kinds write to different collections and answer with different messages |
| Api.Persist | main.py:55-59 | a valid record is inserted once into its own kind's collection, and the answer is the store's id with the kind's message, or 500 with the exception text |
| Api.Create | main.py:53-59 | the store is called exactly when the body is valid; a refused body is answered 422 with its field errors |
| Api.CreateAccount | main.py:53-59 | `POST /account` inserts into "account" exactly when the body is a valid account and answers the id with "Account angelegt", 500 on a store exception, 422 otherwise |
| Api.CreatePlan | main.py:69-75 | `POST /plan` inserts into "plan" exactly when the body is a valid plan and answers "Plan erstellt", 500 on a store exception, 422 otherwise |
| Api.CreateAngebot | main.py:85-91 | `POST /angebot` inserts into "angebot" exactly when the body is a valid offer and answers "Angebot erstellt", 500 on a store exception, 422 otherwise |
| Api.CreateBeratung | main.py:105-111 | `POST /beratung` inserts into "beratung" exactly when the body is a valid consultation and answers "Beratungsanfrage erfasst", 500 on a store exception, 422 otherwise |
| Api.CreateServiceTicket | main.py:121-127 | `POST /service` inserts into "serviceticket" exactly when the body is a valid ticket and answers "Service-Ticket erstellt", 500 on a store exception, 422 otherwise |
| Api.CreateInspiration | main.py:141-147 | `POST /inspiration` inserts into "inspiration" exactly when the body has a title and answers "Inspiration veröffentlicht", 500 on a store exception, 422 otherwise |
| Api.MalformedEmailNeverStored | main.py:53-56 | an account body with a malformed e-mail is answered 422 naming the e-mail and nothing is written |
| Api.LimitOf | main.py:62 | the limit passed on is the caller's, unclamped, or 50 when none is given |
| Api.EmailParamErrors | main.py:62 | an `Optional[EmailStr]` query parameter is refused exactly when it is supplied and not an address |
| Api.Refused | main.py:61-62 | a list request whose query parameters FastAPI refuses makes no query and is answered 422 with exactly those errors |
| Api.Fetch | main.py:65-67 | a list handler makes exactly the one query and answers the store's documents, or 500 with the exception text |
| Api.ListAccounts | main.py:61-67 | `GET /account` queries "account" with the account filter and the limit exactly when any e-mail given is an address; otherwise 422 and no query |
| Api.ListPlans | main.py:77-83 | `GET /plan` queries "plan" with the plan filter and the limit exactly when any address given is valid; otherwise 422 and no query |
| Api.ListAngebote | main.py:93-103 | `GET /angebot` queries "angebot" with the entry-by-entry offer filter and the limit |
| Api.ListBeratungen | main.py:113-119 | `GET /beratung` queries "beratung" with the consultation filter and the limit exactly when any address given is valid; otherwise 422 and no query |
| Api.ListService | main.py:129-139 | `GET /service` queries "serviceticket" with the entry-by-entry ticket filter and the limit exactly when any address given is valid; otherwise 422 and no query |
| Api.ListInspiration | main.py:149-155 | `GET /inspiration` queries "inspiration" with the tag filter and the limit |
| Api.LimitUnclamped | main.py:62-65 | for every filter parameter, any integer limit, negative or huge, reaches the store unchanged whenever a query is made |
| Api.LimitDefault | main.py:62 | for every filter parameter, without a limit a list endpoint that queries asks the store for 50 documents |

## Left out

- Kinds.Lower: lower-cases the ASCII letters only, where Python's `str.lower` covers all of Unicode; the six class names are ASCII, so the collection names are unaffected.
- The document store (`database.create_document`, `get_documents`, the `db` handle): its answer to each call is a function parameter, so ids, stored documents, insertion order and the effect of `limit` on the result are not modelled, and neither are the store-then-query round trips that depend on them.
- How MongoDB evaluates a filter (exact match, `$in`): only the filter's shape is modelled.
- E-mail syntax and the normalisation `EmailStr` applies: validity is the parameter `isEmail`, and a valid address is passed on unchanged.
- `budget` and `preis` are real numbers: float rounding, NaN and infinities are not modelled; only the `ge=0` bound is.
- `gueltig_bis` is an opaque timestamp: parsing a datetime, and refusing one that does not parse, is not modelled.
- pydantic coercion is not modelled: a body field is either absent or supplied with a value of its declared type; an explicit `null` for a non-optional field and a value of the wrong type are not represented. A `limit` that is not an integer (refused by FastAPI before the handler) is not represented either.
- The error text: the handlers pass `str(e)` through whole (main.py:59 and siblings); no truncation is applied, although the `/test` diagnostics truncate their own messages to 80 characters.
- The order of the keys in a filter dict: a map is unordered, and the conjunction does not depend on the order.
- The FastAPI application, CORS middleware, the `/` and `/test` endpoints and the uvicorn entry point (main.py:9-44, 157-160): framework wiring and environment diagnostics.
- The response serialization (`response_model=dict`, `List[dict]`).
