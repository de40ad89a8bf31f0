/**
 * The renderer-applicability half of leto's result renderers
 * (leto/visualization/__init__.py): each visualizer either declines with the
 * `Empty` sentinel or offers a candidate with a title and a score.
 */
module Visualizers {
  import opened Wrappers
  import opened Model
  import opened Queries

  /** What a candidate's deferred render closure draws, standing in for the closure itself. */
  datatype Drawing =
    | TupleList(tuples: seq<Relation>)
    | MapPoints(points: seq<Entity>)
    | Chart(columns: map<string, seq<Option<Value>>>)

  /** `Visualization(title, score, run)` or the sentinel `Visualization.Empty()`. */
  datatype Visualization = Candidate(title: string, score: int, run: Drawing) | Empty

  /** `score`: the sentinel's class attribute is 0. */
  function Score(v: Visualization): (s: int)
    ensures !IsValid(v) ==> s == 0
  {
    match v
    case Candidate(_, s, _) => s
    case Empty => 0
  }

  /** `title`: the sentinel's class attribute is `None`; every real visualization has a title. */
  function Title(v: Visualization): (t: Option<string>)
    ensures t.Some? <==> IsValid(v)
  {
    match v
    case Candidate(t, _, _) => Some(t)
    case Empty => None
  }

  /** `valid()`: true for every real visualization, false for the sentinel. */
  predicate IsValid(v: Visualization)
    ensures IsValid(v) <==> v != Empty
  {
    match v
    case Candidate(_, _, _) => true
    case Empty => false
  }

  /** The sentinel scores 0, has no title and is not valid; everything else is valid. */
  lemma SentinelIsInvalid(v: Visualization)
    ensures v == Empty ==> Score(v) == 0 && Title(v) == None && !IsValid(v)
    ensures v != Empty ==> IsValid(v) && Title(v).Some?
  {
  }

  const TuplesTitle: string := "\U{1F4CB} Returned tuples"
  const MapTitle: string := "\U{1F5FA}\U{FE0F} Map"
  const ChartTitle: string := "\U{1F4CA} chart"

  // ----- DummyVisualizer -----

  /**
   * `DummyVisualizer.visualize`: always a valid candidate listing the tuples,
   * with score 0, so a score of 0 alone does not mean "not applicable".
   */
  function DummyVisualize(q: Query, response: seq<Relation>): (v: Visualization)
    ensures IsValid(v) && Score(v) == 0 && Title(v) == Some(TuplesTitle)
    ensures v.run == TupleList(response)
  {
    Candidate(TuplesTitle, 0, TupleList(response))
  }

  // ----- MapVisualizer -----

  /** The endpoint carries a longitude. */
  predicate HasLon(e: Entity)
  {
    "lon" in e.attrs
  }

  /** The entities of the list that carry a longitude, in order. */
  function WithLon(es: seq<Entity>): (w: seq<Entity>)
    ensures |w| <= |es|
    ensures forall i :: 0 <= i < |w| ==> HasLon(w[i])
  {
    if es == [] then [] else WithLon(es[..|es| - 1]) + (if HasLon(es[|es| - 1]) then [es[|es| - 1]] else [])
  }

  /** `[tuple.entity_from, tuple.entity_to]`. */
  function Endpoints(r: Relation): seq<Entity>
  {
    [r.entityFrom, r.entityTo]
  }

  /**
   * The `mapeable` entries: for each relation in order, its from and then its
   * to endpoint, when it carries `lon`. At most two entries per relation, and
   * every entry carries `lon`.
   */
  function Mappable(rs: seq<Relation>): (m: seq<Entity>)
    ensures |m| <= 2 * |rs|
    ensures forall i :: 0 <= i < |m| ==> HasLon(m[i])
  {
    if rs == [] then [] else Mappable(rs[..|rs| - 1]) + WithLon(Endpoints(rs[|rs| - 1]))
  }

  /** Indices of the relations whose from endpoint carries `lon`. */
  function LonFrom(rs: seq<Relation>): set<nat>
  {
    set i: nat | i < |rs| && HasLon(rs[i].entityFrom)
  }

  /** Indices of the relations whose to endpoint carries `lon`. */
  function LonTo(rs: seq<Relation>): set<nat>
  {
    set i: nat | i < |rs| && HasLon(rs[i].entityTo)
  }

  /** The entries a single relation contributes: its from endpoint, then its to endpoint, each when it carries `lon`. */
  lemma EndpointsWithLon(r: Relation)
    ensures WithLon(Endpoints(r)) ==
      (if HasLon(r.entityFrom) then [r.entityFrom] else []) + (if HasLon(r.entityTo) then [r.entityTo] else [])
  {
    var ends := Endpoints(r);
    assert ends[..1] == [r.entityFrom] && [r.entityFrom][..0] == [];
    assert WithLon([r.entityFrom]) == if HasLon(r.entityFrom) then [r.entityFrom] else [];
    assert WithLon(ends) == WithLon(ends[..1]) + (if HasLon(r.entityTo) then [r.entityTo] else []);
  }

  /** The entries follow the response order: the entries of a concatenation are concatenated. */
  lemma {:induction false} MappableAppend(a: seq<Relation>, b: seq<Relation>)
    ensures Mappable(a + b) == Mappable(a) + Mappable(b)
    decreases |b|
  {
    if b == [] {
      assert a + b == a;
    } else {
      var init, last := b[..|b| - 1], b[|b| - 1];
      var ab := a + b;
      assert ab[..|ab| - 1] == a + init && ab[|ab| - 1] == last;
      assert Mappable(ab) == Mappable(a + init) + WithLon(Endpoints(last));
      MappableAppend(a, init);
      assert Mappable(b) == Mappable(init) + WithLon(Endpoints(last));
    }
  }

  /** Every entry is an endpoint of some response relation and carries `lon`. */
  lemma {:induction false} MappableSound(rs: seq<Relation>)
    ensures forall e :: e in Mappable(rs) ==> HasLon(e) && exists r :: r in rs && (e == r.entityFrom || e == r.entityTo)
  {
    if rs != [] {
      var init, last := rs[..|rs| - 1], rs[|rs| - 1];
      MappableSound(init);
      EndpointsWithLon(last);
      forall e | e in Mappable(rs) ensures HasLon(e) && exists r :: r in rs && (e == r.entityFrom || e == r.entityTo) {
        if e in Mappable(init) {
          var r :| r in init && (e == r.entityFrom || e == r.entityTo);
          assert r in rs;
        } else {
          assert last in rs;
        }
      }
    }
  }

  /** Extending the response by one relation adds its index to the sets of the endpoints carrying `lon`. */
  lemma LonIndicesStep(rs: seq<Relation>)
    requires rs != []
    ensures var n := |rs| - 1;
      && LonFrom(rs) == LonFrom(rs[..n]) + (if HasLon(rs[n].entityFrom) then {n} else {})
      && LonTo(rs) == LonTo(rs[..n]) + (if HasLon(rs[n].entityTo) then {n} else {})
      && n !in LonFrom(rs[..n]) && n !in LonTo(rs[..n])
  {
    var n := |rs| - 1;
    var init := rs[..n];
    forall i: nat | i < n ensures rs[i] == init[i] { }
  }

  /** The number of entries is the number of endpoints carrying `lon`, repeats included. */
  lemma {:induction false} MappableCount(rs: seq<Relation>)
    ensures |Mappable(rs)| == |LonFrom(rs)| + |LonTo(rs)|
  {
    if rs == [] {
      assert LonFrom(rs) == {} && LonTo(rs) == {};
    } else {
      var n := |rs| - 1;
      var init, last := rs[..n], rs[n];
      MappableCount(init);
      EndpointsWithLon(last);
      LonIndicesStep(rs);
    }
  }

  /** No entry is collected exactly when no endpoint of the response carries `lon`. */
  lemma MappableEmptyIff(rs: seq<Relation>)
    ensures Mappable(rs) == [] <==> forall r :: r in rs ==> !HasLon(r.entityFrom) && !HasLon(r.entityTo)
  {
    MappableCount(rs);
    if Mappable(rs) == [] {
      forall r | r in rs ensures !HasLon(r.entityFrom) && !HasLon(r.entityTo) {
        var i :| 0 <= i < |rs| && rs[i] == r;
        assert i !in LonFrom(rs) && i !in LonTo(rs);
      }
    } else if LonFrom(rs) != {} {
      var i :| i in LonFrom(rs);
      assert rs[i] in rs;
    } else {
      var i :| i in LonTo(rs);
      assert rs[i] in rs;
    }
  }

  /**
   * `MapVisualizer.visualize`: the sentinel unless the query is a Where query
   * and some endpoint carries `lon`; otherwise a map candidate whose score is
   * the number of collected entries, repeats included.
   */
  method MapVisualize(q: Query, response: seq<Relation>) returns (v: Visualization)
    ensures q.variant != Where ==> v == Empty
    ensures q.variant == Where ==>
      v == (if Mappable(response) == [] then Empty
            else Candidate(MapTitle, |Mappable(response)|, MapPoints(Mappable(response))))
    ensures q.variant == Where ==>
      (v == Empty <==> forall r :: r in response ==> !HasLon(r.entityFrom) && !HasLon(r.entityTo))
    ensures v != Empty ==> Score(v) == |LonFrom(response)| + |LonTo(response)| >= 1
  {
    if q.variant != Where {
      return Empty;
    }
    var mapeable: seq<Entity> := [];
    var i := 0;
    while i < |response|
      invariant 0 <= i <= |response|
      invariant mapeable == Mappable(response[..i])
    {
      var ends := Endpoints(response[i]);
      var j := 0;
      while j < |ends|
        invariant 0 <= j <= |ends|
        invariant mapeable == Mappable(response[..i]) + WithLon(ends[..j])
      {
        assert ends[..j + 1][..j] == ends[..j];
        if HasLon(ends[j]) {
          mapeable := mapeable + [ends[j]];
        }
        j := j + 1;
      }
      assert ends[..j] == ends;
      assert response[..i + 1][..i] == response[..i];
      i := i + 1;
    }
    assert response[..i] == response;
    MappableEmptyIff(response);
    MappableCount(response);
    if mapeable == [] {
      return Empty;
    }
    v := Candidate(MapTitle, |mapeable|, MapPoints(mapeable));
  }

  // ----- CountVisualizer -----

  const IsA: string := "is_a"

  /** An `is_a` relation into one of the query's entity names. */
  predicate IsMember(r: Relation, names: seq<string>)
  {
    r.edgeLabel == IsA && r.entityTo.name in names
  }

  /** The attribute names among `fields` that are query terms. */
  function Matching(fields: set<string>, terms: seq<string>): set<string>
  {
    set a | a in fields && a in terms
  }

  /**
   * `interest_attributes`, as a multiset: for each membership relation, every
   * attribute of its from-entity that is a term, once per relation. Only
   * terms occur, none more often than there are relations.
   */
  function Interest(rs: seq<Relation>, names: seq<string>, terms: seq<string>): (m: multiset<string>)
    ensures forall a :: a in m ==> a in terms
    ensures forall a :: m[a] <= |rs|
  {
    if rs == [] then multiset{}
    else
      var last := rs[|rs| - 1];
      Interest(rs[..|rs| - 1], names, terms) + (if IsMember(last, names) then multiset(Matching(Fields(last.entityFrom), terms)) else multiset{})
  }

  /** A response relation that makes the count chart applicable. */
  predicate Qualifies(r: Relation, names: seq<string>, terms: seq<string>)
  {
    IsMember(r, names) && exists a :: a in Fields(r.entityFrom) && a in terms
  }

  /**
   * There is an interest attribute exactly when some response relation is an
   * `is_a` into a query entity whose from-entity has an attribute among the terms.
   */
  lemma {:induction false} InterestNonEmptyIff(rs: seq<Relation>, names: seq<string>, terms: seq<string>)
    ensures Interest(rs, names, terms) != multiset{} <==> exists r :: r in rs && Qualifies(r, names, terms)
  {
    if rs != [] {
      var init, last := rs[..|rs| - 1], rs[|rs| - 1];
      InterestNonEmptyIff(init, names, terms);
      assert rs == init + [last];
      if Qualifies(last, names, terms) {
        var a :| a in Fields(last.entityFrom) && a in terms;
        assert a in Matching(Fields(last.entityFrom), terms);
      }
      if IsMember(last, names) && Matching(Fields(last.entityFrom), terms) != {} {
        var a :| a in Matching(Fields(last.entityFrom), terms);
        assert Qualifies(last, names, terms);
      }
    }
  }

  /** `[R.entity_from.get(att) for R in response]`. */
  function Column(rs: seq<Relation>, att: string): (c: seq<Option<Value>>)
    ensures |c| == |rs|
    ensures forall k :: 0 <= k < |rs| ==> c[k] == GetAttr(rs[k].entityFrom, att)
  {
    seq(|rs|, k requires 0 <= k < |rs| => GetAttr(rs[k].entityFrom, att))
  }

  /**
   * The `data` dictionary: the "name" column and one column per interest
   * attribute; every column has one row per response relation.
   */
  function ChartColumns(rs: seq<Relation>, atts: set<string>): (d: map<string, seq<Option<Value>>>)
    ensures d.Keys == {"name"} + atts
    ensures forall a :: a in d ==> |d[a]| == |rs|
    ensures forall k :: 0 <= k < |rs| ==> d["name"][k] == Some(Text(rs[k].entityFrom.name))
  {
    map a | a in {"name"} + atts :: Column(rs, a)
  }

  /** Adding an attribute to the table adds its column and changes no other. */
  lemma ChartColumnsAdd(rs: seq<Relation>, atts: set<string>, att: string)
    ensures ChartColumns(rs, atts + {att}) == ChartColumns(rs, atts)[att := Column(rs, att)]
  {
  }

  /** The distinct elements of a multiset. */
  function Support(m: multiset<string>): set<string>
  {
    set a | a in m
  }

  /** The inner loop over the keys of `R.entity_from.__dict__`: the names among `fields` that are terms. */
  method MatchingFields(fields: set<string>, terms: seq<string>) returns (found: multiset<string>)
    ensures found == multiset(Matching(fields, terms))
  {
    found := multiset{};
    var pending := fields;
    while pending != {}
      invariant pending <= fields
      invariant found == multiset(Matching(fields, terms) - pending)
      decreases pending
    {
      var att :| att in pending;
      ghost var done := Matching(fields, terms) - pending;
      pending := pending - {att};
      if att in terms {
        assert Matching(fields, terms) - pending == done + {att};
        assert att !in done;
        found := found + multiset{att};
      } else {
        assert Matching(fields, terms) - pending == done;
      }
    }
  }

  /** The outer loop building `interest_attributes` over the response. */
  method CollectInterest(response: seq<Relation>, entities: seq<string>, terms: seq<string>) returns (interest: multiset<string>)
    ensures interest == Interest(response, entities, terms)
  {
    interest := multiset{};
    var i := 0;
    while i < |response|
      invariant 0 <= i <= |response|
      invariant interest == Interest(response[..i], entities, terms)
    {
      var r := response[i];
      assert response[..i + 1][..i] == response[..i];
      if r.edgeLabel == IsA && r.entityTo.name in entities {
        var found := MatchingFields(Fields(r.entityFrom), terms);
        interest := interest + found;
      }
      i := i + 1;
    }
    assert response[..i] == response;
  }

  /** Filling the `data` dictionary: the "name" column, then one column per interest attribute. */
  method BuildColumns(response: seq<Relation>, interest: multiset<string>) returns (data: map<string, seq<Option<Value>>>)
    ensures data == ChartColumns(response, Support(interest))
  {
    data := map["name" := Column(response, "name")];
    assert data == ChartColumns(response, {});
    var pending := interest;
    while pending != multiset{}
      invariant pending <= interest
      invariant data == ChartColumns(response, Support(interest - pending))
      decreases |pending|
    {
      var att :| att in pending;
      ghost var done := Support(interest - pending);
      pending := pending - multiset{att};
      assert Support(interest - pending) == done + {att};
      ChartColumnsAdd(response, done, att);
      data := data[att := Column(response, att)];
    }
    assert interest - pending == interest;
  }

  /**
   * `CountVisualizer.visualize`: the sentinel unless the query is a HowMany
   * query and some interest attribute was found; otherwise a chart candidate
   * whose score is the number of response relations (one row per relation,
   * not per match).
   */
  method CountVisualize(q: Query, response: seq<Relation>) returns (v: Visualization)
    ensures q.variant != HowMany ==> v == Empty
    ensures q.variant == HowMany ==> (v == Empty <==> Interest(response, q.entities, q.terms) == multiset{})
    ensures v != Empty ==>
      v == Candidate(ChartTitle, |response|, Chart(ChartColumns(response, Support(Interest(response, q.entities, q.terms)))))
    ensures q.variant == HowMany ==>
      (v != Empty <==> exists r :: r in response && Qualifies(r, q.entities, q.terms))
  {
    if q.variant != HowMany {
      return Empty;
    }
    InterestNonEmptyIff(response, q.entities, q.terms);
    var interest := CollectInterest(response, q.entities, q.terms);
    if interest == multiset{} {
      return Empty;
    }
    var data := BuildColumns(response, interest);
    v := Candidate(ChartTitle, |response|, Chart(data));
  }
}
