/**
 * The query filters the list endpoints of main.py hand to the store.
 * A filter maps a field name to an exact-match value or to a containment
 * test (`{"$in": [...]}`); only the filter's shape is modelled here, not
 * how the store evaluates it.
 *
 * A query parameter counts as given when it is Python-truthy: supplied
 * and not the empty string.
 */
module Filters {
  import opened Wrappers

  datatype FilterVal =
    | Eq(value: string)          // `{field: value}`
    | In(values: seq<string>)    // `{field: {"$in": values}}`

  type Filter = map<string, FilterVal>

  /** `if p:` on an `Optional[str]`. */
  predicate Present(p: Option<string>) {
    p.Some? && p.value != ""
  }

  /** `{key: p} if p else {}`: one exact-match entry, or none. */
  function ExactIfPresent(key: string, p: Option<string>): (f: Filter)
    ensures f.Keys <= {key}
    ensures key in f <==> Present(p)
    ensures key in f ==> f[key] == Eq(p.value)
  {
    if Present(p) then map[key := Eq(p.value)] else map[]
  }

  /** Filter of `list_accounts` (main.py:64). */
  function AccountFilter(email: Option<string>): (f: Filter)
    ensures f.Keys <= {"email"}
    ensures "email" in f <==> Present(email)
    ensures "email" in f ==> f["email"] == Eq(email.value)
  {
    ExactIfPresent("email", email)
  }

  /** Filter of `list_plans` (main.py:80). */
  function PlanFilter(accountEmail: Option<string>): (f: Filter)
    ensures f.Keys <= {"account_email"}
    ensures "account_email" in f <==> Present(accountEmail)
    ensures "account_email" in f ==> f["account_email"] == Eq(accountEmail.value)
  {
    ExactIfPresent("account_email", accountEmail)
  }

  /** Filter of `list_beratungen` (main.py:116). */
  function BeratungFilter(accountEmail: Option<string>): (f: Filter)
    ensures f.Keys <= {"account_email"}
    ensures "account_email" in f <==> Present(accountEmail)
    ensures "account_email" in f ==> f["account_email"] == Eq(accountEmail.value)
  {
    ExactIfPresent("account_email", accountEmail)
  }

  /**
   * Exact match on whichever of two distinct fields is given: both present
   * means both must match (a conjunction).
   */
  function BothIfPresent(key1: string, p1: Option<string>, key2: string, p2: Option<string>): (f: Filter)
    requires key1 != key2
    ensures f.Keys <= {key1, key2}
    ensures key1 in f <==> Present(p1)
    ensures key2 in f <==> Present(p2)
    ensures key1 in f ==> f[key1] == Eq(p1.value)
    ensures key2 in f ==> f[key2] == Eq(p2.value)
  {
    ExactIfPresent(key1, p1) + ExactIfPresent(key2, p2)
  }

  /** Filter of `list_angebote` (main.py:96-100). */
  function AngebotFilter(planId: Option<string>, status: Option<string>): (f: Filter)
    ensures f.Keys <= {"plan_id", "status"}
    ensures "plan_id" in f <==> Present(planId)
    ensures "status" in f <==> Present(status)
    ensures "plan_id" in f ==> f["plan_id"] == Eq(planId.value)
    ensures "status" in f ==> f["status"] == Eq(status.value)
  {
    BothIfPresent("plan_id", planId, "status", status)
  }

  /** Filter of `list_service` (main.py:132-136). */
  function ServiceFilter(accountEmail: Option<string>, status: Option<string>): (f: Filter)
    ensures f.Keys <= {"account_email", "status"}
    ensures "account_email" in f <==> Present(accountEmail)
    ensures "status" in f <==> Present(status)
    ensures "account_email" in f ==> f["account_email"] == Eq(accountEmail.value)
    ensures "status" in f ==> f["status"] == Eq(status.value)
  {
    BothIfPresent("account_email", accountEmail, "status", status)
  }

  /** Filter of `list_inspiration` (main.py:152): the tag must be among the record's tags. */
  function InspirationFilter(tag: Option<string>): (f: Filter)
    ensures f.Keys <= {"tags"}
    ensures "tags" in f <==> Present(tag)
    ensures "tags" in f ==> f["tags"] == In([tag.value])
  {
    if Present(tag) then map["tags" := In([tag.value])] else map[]
  }

  /** `list_angebote`'s dict, built entry by entry as the handler does. */
  method BuildAngebotFilter(planId: Option<string>, status: Option<string>) returns (f: Filter)
    ensures f == AngebotFilter(planId, status)
  {
    f := map[];
    if Present(planId) {
      f := f["plan_id" := Eq(planId.value)];
    }
    if Present(status) {
      f := f["status" := Eq(status.value)];
    }
  }

  /** `list_service`'s dict, built entry by entry as the handler does. */
  method BuildServiceFilter(accountEmail: Option<string>, status: Option<string>) returns (f: Filter)
    ensures f == ServiceFilter(accountEmail, status)
  {
    f := map[];
    if Present(accountEmail) {
      f := f["account_email" := Eq(accountEmail.value)];
    }
    if Present(status) {
      f := f["status" := Eq(status.value)];
    }
  }

  /** An empty string parameter builds the same filter as a missing one, for every endpoint. */
  lemma EmptyIsAbsent(p: Option<string>, q: Option<string>)
    ensures AccountFilter(Some("")) == AccountFilter(None)
    ensures PlanFilter(Some("")) == PlanFilter(None)
    ensures BeratungFilter(Some("")) == BeratungFilter(None)
    ensures AngebotFilter(Some(""), q) == AngebotFilter(None, q)
    ensures AngebotFilter(p, Some("")) == AngebotFilter(p, None)
    ensures ServiceFilter(Some(""), q) == ServiceFilter(None, q)
    ensures ServiceFilter(p, Some("")) == ServiceFilter(p, None)
    ensures InspirationFilter(Some("")) == InspirationFilter(None)
  {
  }

  /** With no parameter given, every filter is empty: the whole collection matches. */
  lemma NothingGivenMatchesAll()
    ensures AccountFilter(None) == map[] && PlanFilter(None) == map[] && BeratungFilter(None) == map[]
    ensures AngebotFilter(None, None) == map[] && ServiceFilter(None, None) == map[]
    ensures InspirationFilter(None) == map[]
  {
  }

  /** Given both, an offer filter requires both: exactly the two exact-match entries. */
  lemma AngebotConjunction(planId: string, status: string)
    requires planId != "" && status != ""
    ensures AngebotFilter(Some(planId), Some(status)) == map["plan_id" := Eq(planId), "status" := Eq(status)]
    ensures |AngebotFilter(Some(planId), Some(status))| == 2
  {
    var f := AngebotFilter(Some(planId), Some(status));
    assert f.Keys == {"plan_id", "status"};
  }

  /** Given both, a ticket filter requires both: exactly the two exact-match entries. */
  lemma ServiceConjunction(accountEmail: string, status: string)
    requires accountEmail != "" && status != ""
    ensures ServiceFilter(Some(accountEmail), Some(status)) == map["account_email" := Eq(accountEmail), "status" := Eq(status)]
    ensures |ServiceFilter(Some(accountEmail), Some(status))| == 2
  {
    var f := ServiceFilter(Some(accountEmail), Some(status));
    assert f.Keys == {"account_email", "status"};
  }

  /** A given tag is looked for as a one-element `$in` list, never as an exact match. */
  lemma InspirationContainment(tag: string)
    requires tag != ""
    ensures InspirationFilter(Some(tag)) == map["tags" := In([tag])]
    ensures forall key | key in InspirationFilter(Some(tag)) :: !InspirationFilter(Some(tag))[key].Eq?
  {
  }
}
