/**
 * The typed query model of leto (leto/query/__init__.py) and the base
 * resolver's deduplication of matcher output.
 */
module Queries {
  import opened Wrappers
  import opened Model

  /** The seven query classes; none adds a field or a method of its own. */
  datatype Variant = Match | What | Who | HowMany | Which | Where | Predict

  /**
   * A query: its class tag, the fields the dataclass declares
   * (`entities`, `relations`, `attributes`, `aggregate`, `groupby`), and the
   * fields its consumers read (`terms`, `entity`, `relation`), which the
   * parsers attach. `entities` holds entity names.
   */
  datatype Query = Query(
    variant: Variant,
    entities: seq<string>,
    relations: seq<string>,
    attributes: seq<string>,
    aggregate: Option<string>,
    groupby: Option<string>,
    terms: seq<string>,
    entity: string,
    relation: string)

  /** Building a query; `aggregate` and `groupby` are optional and default to "". */
  function MakeQuery(
    variant: Variant,
    entities: seq<string>, relations: seq<string>, attributes: seq<string>,
    terms: seq<string>, entity: string, relation: string,
    aggregate: Option<string> := Some(""), groupby: Option<string> := Some("")): (q: Query)
    ensures q.variant == variant
    ensures q.entities == entities && q.relations == relations && q.attributes == attributes
    ensures q.aggregate == aggregate && q.groupby == groupby
    ensures q.terms == terms && q.entity == entity && q.relation == relation
  {
    Query(variant, entities, relations, attributes, aggregate, groupby, terms, entity, relation)
  }

  /** The tuple of declared fields that the dataclass-generated `__eq__` compares. */
  function DeclaredFields(q: Query): (seq<string>, seq<string>, seq<string>, Option<string>, Option<string>)
  {
    (q.entities, q.relations, q.attributes, q.aggregate, q.groupby)
  }

  /**
   * Dataclass `__eq__`: the same class, then the tuples of declared fields
   * compared. Queries of two variants are never equal; equal queries agree on
   * every declared field.
   */
  predicate QueryEq(a: Query, b: Query)
    ensures a == b ==> QueryEq(a, b)
    ensures a.variant != b.variant ==> !QueryEq(a, b)
    ensures QueryEq(a, b) ==> a.entities == b.entities && a.relations == b.relations && a.attributes == b.attributes
    ensures QueryEq(a, b) ==> a.aggregate == b.aggregate && a.groupby == b.groupby
  {
    a.variant == b.variant && DeclaredFields(a) == DeclaredFields(b)
  }

  /** Omitted `aggregate` and `groupby` are the empty string. */
  lemma DefaultsAreEmpty(v: Variant, es: seq<string>, rs: seq<string>, ats: seq<string>, ts: seq<string>, e: string, r: string)
    ensures MakeQuery(v, es, rs, ats, ts, e, r).aggregate == Some("")
    ensures MakeQuery(v, es, rs, ats, ts, e, r).groupby == Some("")
  {
  }

  /**
   * Query equality is field by field within one variant; queries of different
   * variants are never equal, and the consumer-read fields take no part.
   */
  lemma QueryEqFieldwise(a: Query, b: Query)
    ensures QueryEq(a, b) <==>
      a.variant == b.variant && a.entities == b.entities && a.relations == b.relations &&
      a.attributes == b.attributes && a.aggregate == b.aggregate && a.groupby == b.groupby
    ensures a.variant != b.variant ==> !QueryEq(a, b)
  {
  }

  /** Query equality is an equivalence relation. */
  lemma QueryEqIsEquivalence()
    ensures forall a :: QueryEq(a, a)
    ensures forall a, b :: QueryEq(a, b) ==> QueryEq(b, a)
    ensures forall a, b, c :: QueryEq(a, b) && QueryEq(b, c) ==> QueryEq(a, c)
  {
  }

  // ----- deduplication of matcher output -----

  /** The identities occurring in a list of relations. */
  function KeySet(xs: seq<Relation>): set<string>
  {
    if xs == [] then {} else KeySet(xs[..|xs| - 1]) + {RenderRelation(xs[|xs| - 1])}
  }

  /** An identity occurs in the list exactly when some entry renders to it. */
  lemma {:induction false} KeySetMembership(xs: seq<Relation>, k: string)
    ensures k in KeySet(xs) <==> exists x :: x in xs && RenderRelation(x) == k
  {
    if xs != [] {
      var init, last := xs[..|xs| - 1], xs[|xs| - 1];
      assert xs == init + [last];
      KeySetMembership(init, k);
    }
  }

  /** No two entries of the list are equal relations. */
  predicate DistinctKeys(xs: seq<Relation>)
  {
    forall i, j :: 0 <= i < j < |xs| ==> RenderRelation(xs[i]) != RenderRelation(xs[j])
  }

  /** Python's `r in xs` on a list of relations. */
  predicate Contains(xs: seq<Relation>, r: Relation)
  {
    exists x :: x in xs && RelationEq(x, r)
  }

  /**
   * `QueryResolver.resolve`: `list(set(self._resolve(query)))` applied to the
   * matcher output `matched`. Building the set keeps the first of each run of
   * equal relations; the list is given here in order of first occurrence, one
   * of the orders the set may be listed in.
   */
  function Resolve(matched: seq<Relation>): (r: seq<Relation>)
    ensures DistinctKeys(r)
    ensures KeySet(r) == KeySet(matched)
    ensures forall x :: x in r ==> x in matched
  {
    if matched == [] then []
    else
      var init, last := matched[..|matched| - 1], matched[|matched| - 1];
      var rest := Resolve(init);
      KeySetSnoc(init, last);
      if RenderRelation(last) in KeySet(rest) then rest
      else
        KeySetSnoc(rest, last);
        DistinctKeysSnoc(rest, last);
        rest + [last]
  }

  /** Appending one relation adds its identity. */
  lemma KeySetSnoc(xs: seq<Relation>, y: Relation)
    ensures KeySet(xs + [y]) == KeySet(xs) + {RenderRelation(y)}
  {
    assert (xs + [y])[..|xs|] == xs;
  }

  /** Appending a relation whose identity is new keeps the list free of equal entries. */
  lemma DistinctKeysSnoc(xs: seq<Relation>, y: Relation)
    requires DistinctKeys(xs) && RenderRelation(y) !in KeySet(xs)
    ensures DistinctKeys(xs + [y])
  {
    KeySetMembership(xs, RenderRelation(y));
    forall i | 0 <= i < |xs| ensures RenderRelation(xs[i]) != RenderRelation(y) {
      assert xs[i] in xs;
    }
  }

  /** Dropping the last entry of a list free of equal entries leaves one, and the dropped identity is not in it. */
  lemma DistinctKeysInit(xs: seq<Relation>)
    requires xs != [] && DistinctKeys(xs)
    ensures DistinctKeys(xs[..|xs| - 1])
    ensures RenderRelation(xs[|xs| - 1]) !in KeySet(xs[..|xs| - 1])
  {
    var init, last := xs[..|xs| - 1], xs[|xs| - 1];
    KeySetMembership(init, RenderRelation(last));
    forall x | x in init ensures RenderRelation(x) != RenderRelation(last) {
      var i :| 0 <= i < |init| && init[i] == x;
      assert xs[i] == x;
    }
  }

  /** A list with distinct identities has as many identities as entries. */
  lemma {:induction false} DistinctKeysCount(xs: seq<Relation>)
    requires DistinctKeys(xs)
    ensures |KeySet(xs)| == |xs|
  {
    if xs != [] {
      var init, last := xs[..|xs| - 1], xs[|xs| - 1];
      DistinctKeysInit(xs);
      DistinctKeysCount(init);
    }
  }

  /** A list never has more identities than entries. */
  lemma {:induction false} KeySetBound(xs: seq<Relation>)
    ensures |KeySet(xs)| <= |xs|
  {
    if xs != [] {
      var init, last := xs[..|xs| - 1], xs[|xs| - 1];
      assert xs == init + [last];
      KeySetBound(init);
      assert KeySet(xs) == KeySet(init) + {RenderRelation(last)};
    }
  }

  /** A relation is in `resolve`'s result exactly when it is in the matcher output. */
  lemma ResolvePreservesMembership(matched: seq<Relation>, y: Relation)
    ensures Contains(Resolve(matched), y) <==> Contains(matched, y)
  {
    var r := Resolve(matched);
    if Contains(matched, y) {
      var x :| x in matched && RelationEq(x, y);
      KeySetMembership(matched, RenderRelation(x));
      KeySetMembership(r, RenderRelation(x));
      var z :| z in r && RenderRelation(z) == RenderRelation(x);
      assert RelationEq(z, y);
    }
  }

  /**
   * `resolve` returns one entry per identity in the matcher output, which is
   * never more than the matcher produced.
   */
  lemma ResolveLength(matched: seq<Relation>)
    ensures |Resolve(matched)| == |KeySet(matched)| <= |matched|
  {
    DistinctKeysCount(Resolve(matched));
    KeySetBound(matched);
  }

  /**
   * `resolve` ignores duplicates and order in the matcher output: two outputs
   * with the same identities resolve to the same identities and the same length.
   */
  lemma ResolveIgnoresOrderAndRepeats(xs: seq<Relation>, ys: seq<Relation>)
    requires KeySet(xs) == KeySet(ys)
    ensures KeySet(Resolve(xs)) == KeySet(Resolve(ys))
    ensures |Resolve(xs)| == |Resolve(ys)|
  {
    ResolveLength(xs);
    ResolveLength(ys);
  }

  /** The last relation is kept exactly when its identity is new. */
  lemma ResolveLastStep(matched: seq<Relation>)
    requires matched != []
    ensures var init, last := matched[..|matched| - 1], matched[|matched| - 1];
      Resolve(matched) == if RenderRelation(last) in KeySet(Resolve(init)) then Resolve(init) else Resolve(init) + [last]
  {
  }

  /**
   * On a duplicate-free matcher output `resolve` keeps every relation exactly
   * once; in the first-occurrence order the model lists the set in, that is
   * the input itself.
   */
  lemma {:induction false} ResolveOfDistinct(matched: seq<Relation>)
    requires DistinctKeys(matched)
    ensures multiset(Resolve(matched)) == multiset(matched)
    ensures Resolve(matched) == matched
  {
    if matched != [] {
      var init, last := matched[..|matched| - 1], matched[|matched| - 1];
      DistinctKeysInit(matched);
      ResolveOfDistinct(init);
      ResolveLastStep(matched);
    }
  }

  // ----- deduplication as written -----

  /** `QueryResolver` declares `_resolve` abstract; only `resolve` has a body. */
  const QueryResolverAbstract: set<string> := {"_resolve"}

  /**
   * `list(set(xs))` as the classes are written: the first relation that enters
   * the set cannot be hashed, so any non-empty matcher output raises.
   */
  function ResolveAsWritten(matched: seq<Relation>): (r: Result<seq<Relation>, PyError>)
    ensures r.Err? <==> matched != []
    ensures r.Ok? ==> r.value == []
  {
    assert matched != [] ==> matched[0] in matched && !HashableAsWritten(RelationObj(matched[0]));
    if exists x :: x in matched && !HashableAsWritten(RelationObj(x)) then Err(UnhashableType)
    else Ok(Resolve(matched))
  }

  /** As written, `resolve` raises on every non-empty matcher output and returns [] on the empty one. */
  lemma ResolveAsWrittenRaises(matched: seq<Relation>)
    ensures matched != [] <==> ResolveAsWritten(matched) == Err(UnhashableType)
    ensures matched == [] ==> ResolveAsWritten(matched) == Ok([])
  {
  }
}
