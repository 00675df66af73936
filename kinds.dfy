/**
 * The six record kinds and the collection each is stored in
 * (main.py `collection_name`): the collection is the kind's class name,
 * lower-cased.
 */
module Kinds {
  import opened Wrappers

  /** The six record classes of schemas.py. */
  datatype Kind = Account | Plan | Angebot | Beratung | ServiceTicket | Inspiration

  /** The Python class name of each kind (`model_cls.__name__`). */
  function ClassName(k: Kind): (name: string)
    ensures |name| > 0 && IsUpper(name[0])
    ensures forall i :: 0 <= i < |name| ==> IsUpper(name[i]) || 'a' <= name[i] <= 'z'
  {
    match k
    case Account => "Account"
    case Plan => "Plan"
    case Angebot => "Angebot"
    case Beratung => "Beratung"
    case ServiceTicket => "ServiceTicket"
    case Inspiration => "Inspiration"
  }

  predicate IsUpper(c: char) {
    'A' <= c <= 'Z'
  }

  /** `str.lower()` on one character of the ASCII range. */
  function LowerChar(c: char): (d: char)
    ensures !IsUpper(d)
    ensures IsUpper(c) ==> 'a' <= d <= 'z' && d as int - c as int == 'a' as int - 'A' as int
    ensures !IsUpper(c) ==> d == c
  {
    if IsUpper(c) then (c as int - 'A' as int + 'a' as int) as char else c
  }

  /** `str.lower()`: every character lower-cased, length and order kept. */
  function Lower(s: string): (r: string)
    ensures |r| == |s|
    ensures forall i :: 0 <= i < |s| ==> r[i] == LowerChar(s[i])
  {
    seq(|s|, i requires 0 <= i < |s| => LowerChar(s[i]))
  }

  /** Lower-casing twice is lower-casing once. */
  lemma LowerIdempotent(s: string)
    ensures Lower(Lower(s)) == Lower(s)
  {
    var once := Lower(s);
    assert forall i :: 0 <= i < |once| ==> Lower(once)[i] == once[i];
  }

  /** The collection a kind's documents live in (main.py `collection_name`). */
  function CollectionName(k: Kind): (name: string)
    ensures |name| == |ClassName(k)|
    ensures forall i :: 0 <= i < |name| ==> !IsUpper(name[i])
  {
    Lower(ClassName(k))
  }

  /** Lower-casing is determined character by character. */
  lemma LowerIs(s: string, t: string)
    requires |s| == |t|
    requires forall i :: 0 <= i < |s| ==> LowerChar(s[i]) == t[i]
    ensures Lower(s) == t
  {
  }

  /** The six collection names, as the database sees them. */
  lemma CollectionNameValues()
    ensures CollectionName(Account) == "account"
    ensures CollectionName(Plan) == "plan"
    ensures CollectionName(Angebot) == "angebot"
    ensures CollectionName(Beratung) == "beratung"
    ensures CollectionName(ServiceTicket) == "serviceticket"
    ensures CollectionName(Inspiration) == "inspiration"
  {
    AccountCollectionName();
    PlanCollectionName();
    AngebotCollectionName();
    BeratungCollectionName();
    ServiceTicketCollectionName();
    InspirationCollectionName();
  }

  lemma AccountCollectionName()
    ensures CollectionName(Account) == "account"
  {
    LowerIs("Account", "account");
  }

  lemma PlanCollectionName()
    ensures CollectionName(Plan) == "plan"
  {
    LowerIs("Plan", "plan");
  }

  lemma AngebotCollectionName()
    ensures CollectionName(Angebot) == "angebot"
  {
    LowerIs("Angebot", "angebot");
  }

  lemma BeratungCollectionName()
    ensures CollectionName(Beratung) == "beratung"
  {
    LowerIs("Beratung", "beratung");
  }

  lemma ServiceTicketCollectionName()
    ensures CollectionName(ServiceTicket) == "serviceticket"
  {
    LowerIs("ServiceTicket", "serviceticket");
  }

  lemma InspirationCollectionName()
    ensures CollectionName(Inspiration) == "inspiration"
  {
    LowerIs("Inspiration", "inspiration");
  }

  /** The kind whose documents a collection holds, if any: the inverse of CollectionName. */
  function KindOfCollection(name: string): Option<Kind> {
    if name == "account" then Some(Account)
    else if name == "plan" then Some(Plan)
    else if name == "angebot" then Some(Angebot)
    else if name == "beratung" then Some(Beratung)
    else if name == "serviceticket" then Some(ServiceTicket)
    else if name == "inspiration" then Some(Inspiration)
    else None
  }

  /** Every kind's collection leads back to that kind. */
  lemma KindOfCollectionRoundTrip(k: Kind)
    ensures KindOfCollection(CollectionName(k)) == Some(k)
  {
    match k
    case Account => AccountCollectionName();
    case Plan => PlanCollectionName();
    case Angebot => AngebotCollectionName();
    case Beratung => BeratungCollectionName();
    case ServiceTicket => ServiceTicketCollectionName();
    case Inspiration => InspirationCollectionName();
  }

  /** A name leads to a kind exactly when it is that kind's collection. */
  lemma KindOfCollectionExact(k: Kind, name: string)
    ensures KindOfCollection(name) == Some(k) <==> name == CollectionName(k)
  {
    KindOfCollectionRoundTrip(k);
    if KindOfCollection(name) == Some(k) {
      match k
      case Account => AccountCollectionName();
      case Plan => PlanCollectionName();
      case Angebot => AngebotCollectionName();
      case Beratung => BeratungCollectionName();
      case ServiceTicket => ServiceTicketCollectionName();
      case Inspiration => InspirationCollectionName();
    }
  }

  /** No two kinds share a collection. */
  lemma CollectionNameInjective(k1: Kind, k2: Kind)
    ensures CollectionName(k1) == CollectionName(k2) <==> k1 == k2
  {
    KindOfCollectionRoundTrip(k1);
    KindOfCollectionRoundTrip(k2);
  }
}
