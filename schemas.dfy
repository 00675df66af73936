/**
 * The six record classes of schemas.py: their fields, the defaults a
 * request body may leave out, the fields it must supply, and the `ge=0`
 * and e-mail constraints. Building a record from a request body follows
 * pydantic: an absent field takes its default, an absent required field,
 * a negative bounded number or a malformed e-mail is a field error, and
 * every field error of the body is reported. The constructors collect the
 * errors field by field in declaration order; the contracts state which
 * fields are named, not their order.
 *
 * E-mail syntax (`EmailStr`) belongs to a library this model does not
 * contain; it is the parameter `isEmail`.
 */
module Schemas {
  import opened Wrappers

  /** A reason pydantic rejects one field of a request body. */
  datatype FieldError =
    | Missing(field: string)      // a `Field(...)` field was not supplied
    | Negative(field: string)     // a `ge=0` number below zero
    | NotAnEmail(field: string)   // an `EmailStr` value that is not an address

  /** `gueltig_bis`: a point in time, kept opaque. */
  datatype Timestamp = Timestamp(iso: string)

  // ---------------------------------------------------------------- checks

  /** Errors of a required field: missing or not. */
  function RequiredErrors<T>(name: string, v: Option<T>): (es: seq<FieldError>)
    ensures es == [] <==> v.Some?
    ensures es != [] ==> es == [Missing(name)]
  {
    if v.Some? then [] else [Missing(name)]
  }

  /** Errors of a required `EmailStr` field. */
  function EmailErrors(name: string, v: Option<string>, isEmail: string -> bool): (es: seq<FieldError>)
    ensures es == [] <==> v.Some? && isEmail(v.value)
    ensures v.None? ==> es == [Missing(name)]
    ensures v.Some? && !isEmail(v.value) ==> es == [NotAnEmail(name)]
  {
    match v
    case None => [Missing(name)]
    case Some(e) => if isEmail(e) then [] else [NotAnEmail(name)]
  }

  /** Errors of an optional `ge=0` number: only a supplied negative value is one. */
  function BoundErrors(name: string, v: Option<real>): (es: seq<FieldError>)
    ensures es == [] <==> (v.Some? ==> v.value >= 0.0)
    ensures es != [] ==> es == [Negative(name)]
  {
    if v.Some? && v.value < 0.0 then [Negative(name)] else []
  }

  /** Errors of a required `ge=0` number. */
  function RequiredBoundErrors(name: string, v: Option<real>): (es: seq<FieldError>)
    ensures es == [] <==> v.Some? && v.value >= 0.0
    ensures v.None? ==> es == [Missing(name)]
    ensures v.Some? && v.value < 0.0 ==> es == [Negative(name)]
  {
    if v.None? then [Missing(name)] else BoundErrors(name, v)
  }

  // -------------------------------------------------------------- Account

  const DefaultRolle := "kunde"

  datatype Account = Account(
    vorname: string,
    nachname: string,
    email: string,
    telefon: Option<string>,
    rolle: string,
    marketingOptIn: bool)

  /** A request body for an Account: `None` where a field was left out. */
  datatype AccountBody = AccountBody(
    vorname: Option<string>,
    nachname: Option<string>,
    email: Option<string>,
    telefon: Option<string>,
    rolle: Option<string>,
    marketingOptIn: Option<bool>)

  /** An account is valid when pydantic finds nothing wrong with its own e-mail. */
  predicate ValidAccount(a: Account, isEmail: string -> bool): (b: bool)
    ensures b <==> EmailErrors("email", Some(a.email), isEmail) == []
  {
    isEmail(a.email)
  }

  /** `Account(**body)`. */
  function NewAccount(b: AccountBody, isEmail: string -> bool): (r: Result<Account, seq<FieldError>>)
    ensures r.Ok? <==> b.vorname.Some? && b.nachname.Some? && b.email.Some? && isEmail(b.email.value)
    ensures r.Ok? ==> ValidAccount(r.value, isEmail)
    ensures r.Ok? ==> r.value.vorname == b.vorname.value && r.value.nachname == b.nachname.value
                      && r.value.email == b.email.value && r.value.telefon == b.telefon
    ensures r.Ok? ==> r.value.rolle == b.rolle.GetOr(DefaultRolle)
                      && r.value.marketingOptIn == b.marketingOptIn.GetOr(false)
    ensures r.Err? ==> r.error != []
  {
    var es := RequiredErrors("vorname", b.vorname) + RequiredErrors("nachname", b.nachname)
              + EmailErrors("email", b.email, isEmail);
    if es == [] then
      Ok(Account(b.vorname.value, b.nachname.value, b.email.value, b.telefon,
                 b.rolle.GetOr(DefaultRolle), b.marketingOptIn.GetOr(false)))
    else Err(es)
  }

  /** The body that supplies every field of `a`: what `a.model_dump()` sends back. */
  function AccountBodyOf(a: Account): AccountBody {
    AccountBody(Some(a.vorname), Some(a.nachname), Some(a.email), a.telefon, Some(a.rolle), Some(a.marketingOptIn))
  }

  /** Re-validating a valid account's fields gives the same account; an invalid one is refused. */
  lemma AccountRoundTrip(a: Account, isEmail: string -> bool)
    ensures NewAccount(AccountBodyOf(a), isEmail) == (if ValidAccount(a, isEmail) then Ok(a) else Err([NotAnEmail("email")]))
  {
    var noErrors: seq<FieldError> := [];
    assert noErrors + noErrors + [NotAnEmail("email")] == [NotAnEmail("email")];
  }

  /** An account given only its required fields: role "kunde", no marketing consent, no phone. */
  lemma AccountDefaults(vorname: string, nachname: string, email: string, isEmail: string -> bool)
    requires isEmail(email)
    ensures NewAccount(AccountBody(Some(vorname), Some(nachname), Some(email), None, None, None), isEmail)
            == Ok(Account(vorname, nachname, email, None, "kunde", false))
  {
  }

  /** A required field is reported missing exactly when it was left out. */
  lemma AccountMissingReported(b: AccountBody, isEmail: string -> bool)
    ensures b.vorname.None? || b.nachname.None? || b.email.None? ==> NewAccount(b, isEmail).Err?
    ensures NewAccount(b, isEmail).Err? ==>
              && (Missing("vorname") in NewAccount(b, isEmail).error <==> b.vorname.None?)
              && (Missing("nachname") in NewAccount(b, isEmail).error <==> b.nachname.None?)
              && (Missing("email") in NewAccount(b, isEmail).error <==> b.email.None?)
  {
  }

  // ----------------------------------------------------------------- Plan

  const DefaultPlanStatus := "in_planung"

  datatype Plan = Plan(
    accountEmail: string,
    titel: string,
    beschreibung: Option<string>,
    status: string,
    budget: Option<real>)

  datatype PlanBody = PlanBody(
    accountEmail: Option<string>,
    titel: Option<string>,
    beschreibung: Option<string>,
    status: Option<string>,
    budget: Option<real>)

  /** The owner's address is an e-mail address; a budget, when there is one, is not negative. */
  predicate ValidPlan(p: Plan, isEmail: string -> bool): (b: bool)
    ensures b <==> EmailErrors("account_email", Some(p.accountEmail), isEmail) == []
                   && BoundErrors("budget", p.budget) == []
  {
    isEmail(p.accountEmail) && (p.budget.Some? ==> p.budget.value >= 0.0)
  }

  /** `Plan(**body)`. */
  function NewPlan(b: PlanBody, isEmail: string -> bool): (r: Result<Plan, seq<FieldError>>)
    ensures r.Ok? <==> b.accountEmail.Some? && isEmail(b.accountEmail.value) && b.titel.Some?
                       && (b.budget.Some? ==> b.budget.value >= 0.0)
    ensures r.Ok? ==> ValidPlan(r.value, isEmail)
    ensures r.Ok? ==> r.value.accountEmail == b.accountEmail.value && r.value.titel == b.titel.value
                      && r.value.beschreibung == b.beschreibung && r.value.budget == b.budget
    ensures r.Ok? ==> r.value.status == b.status.GetOr(DefaultPlanStatus)
    ensures r.Err? ==> r.error != []
  {
    var es := EmailErrors("account_email", b.accountEmail, isEmail) + RequiredErrors("titel", b.titel)
              + BoundErrors("budget", b.budget);
    if es == [] then
      Ok(Plan(b.accountEmail.value, b.titel.value, b.beschreibung, b.status.GetOr(DefaultPlanStatus), b.budget))
    else Err(es)
  }

  function PlanBodyOf(p: Plan): PlanBody {
    PlanBody(Some(p.accountEmail), Some(p.titel), p.beschreibung, Some(p.status), p.budget)
  }

  /** Re-validating a plan's fields accepts exactly the valid plans, unchanged. */
  lemma PlanRoundTrip(p: Plan, isEmail: string -> bool)
    ensures ValidPlan(p, isEmail) ==> NewPlan(PlanBodyOf(p), isEmail) == Ok(p)
    ensures !ValidPlan(p, isEmail) ==> NewPlan(PlanBodyOf(p), isEmail).Err?
  {
  }

  /** A plan given only its owner and title is "in_planung", with no budget and no description. */
  lemma PlanDefaults(accountEmail: string, titel: string, isEmail: string -> bool)
    requires isEmail(accountEmail)
    ensures NewPlan(PlanBody(Some(accountEmail), Some(titel), None, None, None), isEmail)
            == Ok(Plan(accountEmail, titel, None, "in_planung", None))
  {
  }

  /** A required field is reported missing exactly when it was left out. */
  lemma PlanMissingReported(b: PlanBody, isEmail: string -> bool)
    ensures b.accountEmail.None? || b.titel.None? ==> NewPlan(b, isEmail).Err?
    ensures NewPlan(b, isEmail).Err? ==>
              && (Missing("account_email") in NewPlan(b, isEmail).error <==> b.accountEmail.None?)
              && (Missing("titel") in NewPlan(b, isEmail).error <==> b.titel.None?)
  {
  }

  /** A negative budget is refused, and the refusal names the budget. */
  lemma PlanNegativeBudgetRefused(b: PlanBody, isEmail: string -> bool)
    requires b.budget.Some? && b.budget.value < 0.0
    ensures NewPlan(b, isEmail).Err? && Negative("budget") in NewPlan(b, isEmail).error
  {
  }

  // -------------------------------------------------------------- Angebot

  const DefaultAngebotStatus := "entwurf"

  /**
   * An offer. `planId` is a free string: nothing checks that a plan with
   * that id exists.
   */
  datatype Angebot = Angebot(
    planId: Option<string>,
    titel: string,
    preis: real,
    gueltigBis: Option<Timestamp>,
    status: string)

  datatype AngebotBody = AngebotBody(
    planId: Option<string>,
    titel: Option<string>,
    preis: Option<real>,
    gueltigBis: Option<Timestamp>,
    status: Option<string>)

  /** An offer is valid when pydantic finds nothing wrong with its price. */
  predicate ValidAngebot(a: Angebot): (b: bool)
    ensures b <==> RequiredBoundErrors("preis", Some(a.preis)) == []
  {
    a.preis >= 0.0
  }

  /** `Angebot(**body)`. */
  function NewAngebot(b: AngebotBody): (r: Result<Angebot, seq<FieldError>>)
    ensures r.Ok? <==> b.titel.Some? && b.preis.Some? && b.preis.value >= 0.0
    ensures r.Ok? ==> ValidAngebot(r.value)
    ensures r.Ok? ==> r.value.planId == b.planId && r.value.titel == b.titel.value
                      && r.value.preis == b.preis.value && r.value.gueltigBis == b.gueltigBis
    ensures r.Ok? ==> r.value.status == b.status.GetOr(DefaultAngebotStatus)
    ensures r.Err? ==> r.error != []
  {
    var es := RequiredErrors("titel", b.titel) + RequiredBoundErrors("preis", b.preis);
    if es == [] then
      Ok(Angebot(b.planId, b.titel.value, b.preis.value, b.gueltigBis, b.status.GetOr(DefaultAngebotStatus)))
    else Err(es)
  }

  function AngebotBodyOf(a: Angebot): AngebotBody {
    AngebotBody(a.planId, Some(a.titel), Some(a.preis), a.gueltigBis, Some(a.status))
  }

  /** Re-validating an offer's fields accepts exactly the valid offers, unchanged. */
  lemma AngebotRoundTrip(a: Angebot)
    ensures ValidAngebot(a) ==> NewAngebot(AngebotBodyOf(a)) == Ok(a)
    ensures !ValidAngebot(a) ==> NewAngebot(AngebotBodyOf(a)) == Err([Negative("preis")])
  {
    var noErrors: seq<FieldError> := [];
    assert noErrors + [Negative("preis")] == [Negative("preis")];
  }

  /** An offer given only title and price is an "entwurf" for no particular plan. */
  lemma AngebotDefaults(titel: string, preis: real)
    requires preis >= 0.0
    ensures NewAngebot(AngebotBody(None, Some(titel), Some(preis), None, None))
            == Ok(Angebot(None, titel, preis, None, "entwurf"))
  {
  }

  /** A required field is reported missing exactly when it was left out. */
  lemma AngebotMissingReported(b: AngebotBody)
    ensures b.titel.None? || b.preis.None? ==> NewAngebot(b).Err?
    ensures NewAngebot(b).Err? ==>
              && (Missing("titel") in NewAngebot(b).error <==> b.titel.None?)
              && (Missing("preis") in NewAngebot(b).error <==> b.preis.None?)
  {
  }

  /** Any string is accepted as the plan reference, whether or not such a plan exists. */
  lemma AngebotPlanIdUnchecked(b: AngebotBody, planId: string)
    ensures NewAngebot(b.(planId := Some(planId))).Ok? == NewAngebot(b).Ok?
  {
  }

  // ------------------------------------------------------------- Beratung

  datatype Beratung = Beratung(
    accountEmail: string,
    thema: string,
    nachricht: Option<string>,
    bevorzugterTermin: Option<string>)

  datatype BeratungBody = BeratungBody(
    accountEmail: Option<string>,
    thema: Option<string>,
    nachricht: Option<string>,
    bevorzugterTermin: Option<string>)

  /** A consultation is valid when pydantic finds nothing wrong with its owner's e-mail. */
  predicate ValidBeratung(c: Beratung, isEmail: string -> bool): (b: bool)
    ensures b <==> EmailErrors("account_email", Some(c.accountEmail), isEmail) == []
  {
    isEmail(c.accountEmail)
  }

  /** `Beratung(**body)`. */
  function NewBeratung(b: BeratungBody, isEmail: string -> bool): (r: Result<Beratung, seq<FieldError>>)
    ensures r.Ok? <==> b.accountEmail.Some? && isEmail(b.accountEmail.value) && b.thema.Some?
    ensures r.Ok? ==> ValidBeratung(r.value, isEmail)
    ensures r.Ok? ==> r.value.accountEmail == b.accountEmail.value && r.value.thema == b.thema.value
                      && r.value.nachricht == b.nachricht && r.value.bevorzugterTermin == b.bevorzugterTermin
    ensures r.Err? ==> r.error != []
  {
    var es := EmailErrors("account_email", b.accountEmail, isEmail) + RequiredErrors("thema", b.thema);
    if es == [] then
      Ok(Beratung(b.accountEmail.value, b.thema.value, b.nachricht, b.bevorzugterTermin))
    else Err(es)
  }

  function BeratungBodyOf(c: Beratung): BeratungBody {
    BeratungBody(Some(c.accountEmail), Some(c.thema), c.nachricht, c.bevorzugterTermin)
  }

  /** Re-validating a consultation's fields accepts exactly the valid ones, unchanged. */
  lemma BeratungRoundTrip(c: Beratung, isEmail: string -> bool)
    ensures ValidBeratung(c, isEmail) ==> NewBeratung(BeratungBodyOf(c), isEmail) == Ok(c)
    ensures !ValidBeratung(c, isEmail) ==> NewBeratung(BeratungBodyOf(c), isEmail) == Err([NotAnEmail("account_email")])
  {
    var noErrors: seq<FieldError> := [];
    assert [NotAnEmail("account_email")] + noErrors == [NotAnEmail("account_email")];
  }

  /** A required field is reported missing exactly when it was left out. */
  lemma BeratungMissingReported(b: BeratungBody, isEmail: string -> bool)
    ensures b.accountEmail.None? || b.thema.None? ==> NewBeratung(b, isEmail).Err?
    ensures NewBeratung(b, isEmail).Err? ==>
              && (Missing("account_email") in NewBeratung(b, isEmail).error <==> b.accountEmail.None?)
              && (Missing("thema") in NewBeratung(b, isEmail).error <==> b.thema.None?)
  {
  }

  // -------------------------------------------------------- ServiceTicket

  const DefaultPrioritaet := "normal"
  const DefaultTicketStatus := "offen"

  datatype ServiceTicket = ServiceTicket(
    accountEmail: string,
    kategorie: string,
    beschreibung: string,
    prioritaet: string,
    status: string)

  datatype ServiceTicketBody = ServiceTicketBody(
    accountEmail: Option<string>,
    kategorie: Option<string>,
    beschreibung: Option<string>,
    prioritaet: Option<string>,
    status: Option<string>)

  /** A ticket is valid when pydantic finds nothing wrong with its owner's e-mail. */
  predicate ValidServiceTicket(t: ServiceTicket, isEmail: string -> bool): (b: bool)
    ensures b <==> EmailErrors("account_email", Some(t.accountEmail), isEmail) == []
  {
    isEmail(t.accountEmail)
  }

  /** `ServiceTicket(**body)`. */
  function NewServiceTicket(b: ServiceTicketBody, isEmail: string -> bool): (r: Result<ServiceTicket, seq<FieldError>>)
    ensures r.Ok? <==> b.accountEmail.Some? && isEmail(b.accountEmail.value) && b.kategorie.Some? && b.beschreibung.Some?
    ensures r.Ok? ==> ValidServiceTicket(r.value, isEmail)
    ensures r.Ok? ==> r.value.accountEmail == b.accountEmail.value && r.value.kategorie == b.kategorie.value
                      && r.value.beschreibung == b.beschreibung.value
    ensures r.Ok? ==> r.value.prioritaet == b.prioritaet.GetOr(DefaultPrioritaet)
                      && r.value.status == b.status.GetOr(DefaultTicketStatus)
    ensures r.Err? ==> r.error != []
  {
    var es := EmailErrors("account_email", b.accountEmail, isEmail) + RequiredErrors("kategorie", b.kategorie)
              + RequiredErrors("beschreibung", b.beschreibung);
    if es == [] then
      Ok(ServiceTicket(b.accountEmail.value, b.kategorie.value, b.beschreibung.value,
                       b.prioritaet.GetOr(DefaultPrioritaet), b.status.GetOr(DefaultTicketStatus)))
    else Err(es)
  }

  function ServiceTicketBodyOf(t: ServiceTicket): ServiceTicketBody {
    ServiceTicketBody(Some(t.accountEmail), Some(t.kategorie), Some(t.beschreibung), Some(t.prioritaet), Some(t.status))
  }

  /** Re-validating a ticket's fields accepts exactly the valid tickets, unchanged. */
  lemma ServiceTicketRoundTrip(t: ServiceTicket, isEmail: string -> bool)
    ensures ValidServiceTicket(t, isEmail) ==> NewServiceTicket(ServiceTicketBodyOf(t), isEmail) == Ok(t)
    ensures !ValidServiceTicket(t, isEmail) ==> NewServiceTicket(ServiceTicketBodyOf(t), isEmail).Err?
  {
  }

  /** A ticket given only its required fields is "offen" with priority "normal". */
  lemma ServiceTicketDefaults(accountEmail: string, kategorie: string, beschreibung: string, isEmail: string -> bool)
    requires isEmail(accountEmail)
    ensures NewServiceTicket(ServiceTicketBody(Some(accountEmail), Some(kategorie), Some(beschreibung), None, None), isEmail)
            == Ok(ServiceTicket(accountEmail, kategorie, beschreibung, "normal", "offen"))
  {
  }

  /** A required field is reported missing exactly when it was left out. */
  lemma ServiceTicketMissingReported(b: ServiceTicketBody, isEmail: string -> bool)
    ensures b.accountEmail.None? || b.kategorie.None? || b.beschreibung.None? ==> NewServiceTicket(b, isEmail).Err?
    ensures NewServiceTicket(b, isEmail).Err? ==>
              && (Missing("account_email") in NewServiceTicket(b, isEmail).error <==> b.accountEmail.None?)
              && (Missing("kategorie") in NewServiceTicket(b, isEmail).error <==> b.kategorie.None?)
              && (Missing("beschreibung") in NewServiceTicket(b, isEmail).error <==> b.beschreibung.None?)
  {
  }

  // ---------------------------------------------------------- Inspiration

  /**
   * An inspiration. Its tags are its own value: the `default_factory`
   * list of the source is a fresh list per instance, which value
   * semantics give for free.
   */
  datatype Inspiration = Inspiration(
    titel: string,
    tags: seq<string>,
    bildUrl: Option<string>,
    beschreibung: Option<string>)

  datatype InspirationBody = InspirationBody(
    titel: Option<string>,
    tags: Option<seq<string>>,
    bildUrl: Option<string>,
    beschreibung: Option<string>)

  /** Inspiration declares no constraint: every inspiration is valid. */
  predicate ValidInspiration(i: Inspiration): (b: bool)
    ensures b
  {
    true
  }

  /** `Inspiration(**body)`: only the title is required, and nothing is bounded. */
  function NewInspiration(b: InspirationBody): (r: Result<Inspiration, seq<FieldError>>)
    ensures r.Ok? <==> b.titel.Some?
    ensures r.Ok? ==> ValidInspiration(r.value)
    ensures r.Ok? ==> r.value.titel == b.titel.value && r.value.tags == b.tags.GetOr([])
                      && r.value.bildUrl == b.bildUrl && r.value.beschreibung == b.beschreibung
    ensures r.Err? ==> r.error == [Missing("titel")]
  {
    var es := RequiredErrors("titel", b.titel);
    if es == [] then Ok(Inspiration(b.titel.value, b.tags.GetOr([]), b.bildUrl, b.beschreibung))
    else Err(es)
  }

  function InspirationBodyOf(i: Inspiration): InspirationBody {
    InspirationBody(Some(i.titel), Some(i.tags), i.bildUrl, i.beschreibung)
  }

  /** Every inspiration is valid and survives re-validation of its fields unchanged. */
  lemma InspirationRoundTrip(i: Inspiration)
    ensures ValidInspiration(i) && NewInspiration(InspirationBodyOf(i)) == Ok(i)
  {
  }

  /** An inspiration given only its title has no tags, no picture and no description. */
  lemma InspirationDefaults(titel: string)
    ensures NewInspiration(InspirationBody(Some(titel), None, None, None)) == Ok(Inspiration(titel, [], None, None))
  {
  }
}
