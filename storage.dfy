/**
 * The in-memory triple store of leto (leto/storage/dummy.py): a set of
 * relations kept free of equal relations, and the resolver that answers
 * Match, What and Who queries by filtering that set.
 */
module Storage {
  import opened Wrappers
  import opened Model
  import opened Queries

  /** The identities of the relations in a set. */
  function Keys(s: set<Relation>): set<string>
  {
    set x | x in s :: RenderRelation(x)
  }

  /** No two members of the set are equal relations: the set semantics the store relies on. */
  predicate UniqueKeys(s: set<Relation>)
  {
    forall a, b :: a in s && b in s && RenderRelation(a) == RenderRelation(b) ==> a == b
  }

  /** Python's `r in s`: some member is equal to `r`. */
  predicate Holds(s: set<Relation>, r: Relation)
  {
    exists x :: x in s && RelationEq(x, r)
  }

  /**
   * `set.add(r)`: when an equal relation is already present the set is left as
   * it is (the stored relation and its attributes stay, the new one is
   * dropped); otherwise `r` joins it.
   */
  function Stored(s: set<Relation>, r: Relation): (t: set<Relation>)
    ensures Holds(t, r)
    ensures s <= t && t - s <= {r}
    ensures UniqueKeys(s) ==> UniqueKeys(t)
  {
    if Holds(s, r) then s
    else
      assert r in s + {r} && RelationEq(r, r);
      s + {r}
  }

  /**
   * Storing each relation of `rs` in turn, from the front: nothing stored
   * before is lost, nothing but them is added, and the set stays free of
   * equal members.
   */
  function StoreAll(s: set<Relation>, rs: seq<Relation>): (t: set<Relation>)
    ensures s <= t
    ensures forall x :: x in t ==> x in s || x in rs
    ensures UniqueKeys(s) ==> UniqueKeys(t)
  {
    if rs == [] then s
    else
      assert forall x :: x in rs[..|rs| - 1] ==> x in rs;
      Stored(StoreAll(s, rs[..|rs| - 1]), rs[|rs| - 1])
  }

  /** Taking one member out of a set without equal members takes out exactly its identity. */
  lemma KeysRemove(s: set<Relation>, x: Relation)
    requires UniqueKeys(s) && x in s
    ensures UniqueKeys(s - {x})
    ensures Keys(s) == Keys(s - {x}) + {RenderRelation(x)}
    ensures RenderRelation(x) !in Keys(s - {x})
  {
  }

  /** In a set without equal members there are as many identities as members. */
  lemma UniqueKeysCount(s: set<Relation>)
    requires UniqueKeys(s)
    ensures |Keys(s)| == |s|
    decreases s
  {
    if s != {} {
      var x :| x in s;
      KeysRemove(s, x);
      UniqueKeysCount(s - {x});
    }
  }

  /** After storing `r` the store holds a relation equal to it. */
  lemma StoredHolds(s: set<Relation>, r: Relation)
    ensures Holds(Stored(s, r), r)
  {
  }

  /** Storing never removes nor alters a stored relation, and keeps the set free of equal members. */
  lemma StoredKeepsOld(s: set<Relation>, r: Relation)
    requires UniqueKeys(s)
    ensures s <= Stored(s, r)
    ensures UniqueKeys(Stored(s, r))
    ensures Keys(Stored(s, r)) == Keys(s) + {RenderRelation(r)}
  {
    if Holds(s, r) {
      var x :| x in s && RelationEq(x, r);
      assert RenderRelation(r) in Keys(s);
    }
  }

  /**
   * Storing a relation equal to a stored one leaves the size as it is;
   * storing a new one adds exactly one.
   */
  lemma StoredSize(s: set<Relation>, r: Relation)
    requires UniqueKeys(s)
    ensures Holds(s, r) ==> |Stored(s, r)| == |s|
    ensures !Holds(s, r) ==> |Stored(s, r)| == |s| + 1
  {
    if !Holds(s, r) {
      assert r !in s by {
        if r in s { assert RelationEq(r, r); }
      }
    }
  }

  /** After a run of stores the identities are the old ones plus those of every stored relation. */
  lemma {:induction false} StoreAllKeys(s: set<Relation>, rs: seq<Relation>)
    requires UniqueKeys(s)
    ensures UniqueKeys(StoreAll(s, rs))
    ensures Keys(StoreAll(s, rs)) == Keys(s) + KeySet(rs)
  {
    if rs != [] {
      var init, last := rs[..|rs| - 1], rs[|rs| - 1];
      StoreAllKeys(s, init);
      StoredKeepsOld(StoreAll(s, init), last);
    }
  }

  /**
   * Starting empty, the size after a run of stores is the number of distinct
   * identities among the stored relations: each triple counts once, whatever
   * its attributes.
   */
  lemma StoreAllCountsIdentities(rs: seq<Relation>)
    ensures |StoreAll({}, rs)| == |KeySet(rs)|
  {
    StoreAllKeys({}, rs);
    UniqueKeysCount(StoreAll({}, rs));
    assert Keys({}) == {};
  }

  /** A non-empty list whose entries all render to `k` has the single identity `k`. */
  lemma {:induction false} KeySetOfOneTriple(rs: seq<Relation>, k: string)
    requires |rs| > 0
    requires forall i :: 0 <= i < |rs| ==> RenderRelation(rs[i]) == k
    ensures KeySet(rs) == {k}
  {
    var init := rs[..|rs| - 1];
    if init != [] {
      forall i | 0 <= i < |init| ensures RenderRelation(init[i]) == k {
        assert init[i] == rs[i];
      }
      KeySetOfOneTriple(init, k);
    }
  }

  /** Storing the same triple any positive number of times, with any attributes, gives size 1. */
  lemma SameTripleCountedOnce(rs: seq<Relation>, k: string)
    requires |rs| > 0
    requires forall i :: 0 <= i < |rs| ==> RenderRelation(rs[i]) == k
    ensures |StoreAll({}, rs)| == 1
  {
    StoreAllCountsIdentities(rs);
    KeySetOfOneTriple(rs, k);
  }

  /** `DummyStorage`: the relations stored so far, with no two equal. */
  class DummyStorage {
    var storage: set<Relation>

    ghost predicate Valid()
      reads this
    {
      UniqueKeys(storage)
    }

    /**
     * `DummyStorage()`: starts empty, then `_load` replaces the set by the
     * snapshot when one exists.
     */
    constructor (snapshot: Option<set<Relation>>)
      requires snapshot.Some? ==> UniqueKeys(snapshot.value)
      ensures Valid()
      ensures storage == (if snapshot.Some? then snapshot.value else {})
    {
      storage := if snapshot.Some? then snapshot.value else {};
    }

    /** `store(relation)`: adds the relation unless an equal one is present. */
    method Store(r: Relation)
      requires Valid()
      modifies this
      ensures Valid()
      ensures storage == Stored(old(storage), r)
      ensures Holds(storage, r) && old(storage) <= storage
      ensures |storage| == if Holds(old(storage), r) then old(|storage|) else old(|storage|) + 1
    {
      StoredKeepsOld(storage, r);
      StoredHolds(storage, r);
      StoredSize(storage, r);
      if !Holds(storage, r) {
        storage := storage + {r};
      }
    }

    /** `size`: the number of stored facts, counted by identity. */
    function Size(): (n: nat)
      reads this
      requires Valid()
      ensures n == |Keys(storage)|
    {
      UniqueKeysCount(storage);
      |storage|
    }

    /** `get_query_resolver()`: a resolver bound to this store. */
    method GetQueryResolver() returns (resolver: DummyQueryResolver)
      ensures fresh(resolver) && resolver.storage == this
    {
      resolver := new DummyQueryResolver(this);
    }
  }

  /**
   * `DummyQueryResolver`: filters the relations of its store. The matchers
   * iterate the stored set and so may be asked of any query.
   */
  class DummyQueryResolver {
    const storage: DummyStorage

    constructor (storage: DummyStorage)
      ensures this.storage == storage
    {
      this.storage := storage;
    }

    /** `query_match`: relations whose from-name, label or to-name is one of the terms. */
    function QueryMatch(q: Query): (r: set<Relation>)
      reads storage
      ensures r <= storage.storage
      ensures forall x :: x in r <==>
        (x in storage.storage && (x.entityFrom.name in q.terms || x.edgeLabel in q.terms || x.entityTo.name in q.terms))
      ensures UniqueKeys(storage.storage) ==> UniqueKeys(r)
    {
      set x | x in storage.storage && (x.entityFrom.name in q.terms || x.edgeLabel in q.terms || x.entityTo.name in q.terms)
    }

    /** `query_what`: relations leaving `q.entity` with label `q.relation`. */
    function QueryWhat(q: Query): (r: set<Relation>)
      reads storage
      ensures r <= storage.storage
      ensures forall x :: x in r <==> x in storage.storage && x.entityFrom.name == q.entity && x.edgeLabel == q.relation
      ensures UniqueKeys(storage.storage) ==> UniqueKeys(r)
    {
      set x | x in storage.storage && x.entityFrom.name == q.entity && x.edgeLabel == q.relation
    }

    /** `query_who`: relations arriving at `q.entity` with label `q.relation`. */
    function QueryWho(q: Query): (r: set<Relation>)
      reads storage
      ensures r <= storage.storage
      ensures forall x :: x in r <==> x in storage.storage && x.entityTo.name == q.entity && x.edgeLabel == q.relation
      ensures UniqueKeys(storage.storage) ==> UniqueKeys(r)
    {
      set x | x in storage.storage && x.entityTo.name == q.entity && x.edgeLabel == q.relation
    }

    /**
     * `resolve`: Match, What and Who go to their matchers; every other variant
     * falls through to `None`.
     */
    function Resolve(q: Query): (r: Option<set<Relation>>)
      reads storage
      ensures r.Some? <==> q.variant == Match || q.variant == What || q.variant == Who
      ensures q.variant == Match ==> r == Some(QueryMatch(q))
      ensures q.variant == What ==> r == Some(QueryWhat(q))
      ensures q.variant == Who ==> r == Some(QueryWho(q))
    {
      match q.variant
      case Match => Some(QueryMatch(q))
      case What => Some(QueryWhat(q))
      case Who => Some(QueryWho(q))
      case _ => None
    }

    /** Every answer is a subset of the store with no two equal relations. */
    lemma ResolveIsDuplicateFreeSubset(q: Query)
      requires storage.Valid()
      ensures Resolve(q).Some? ==> Resolve(q).value <= storage.storage && UniqueKeys(Resolve(q).value)
    {
    }

    /**
     * Match is OR over terms: the answer for the terms `t1 + t2` is the union
     * of the answers for `t1` and for `t2`.
     */
    lemma MatchIsUnion(q: Query, t1: seq<string>, t2: seq<string>)
      ensures QueryMatch(q.(terms := t1 + t2)) == QueryMatch(q.(terms := t1)) + QueryMatch(q.(terms := t2))
    {
    }

    /**
     * What and Who are directional: for a stored `(A) -[l]-> (B)` with A and B
     * named differently, asking What of A and l returns it, Who of A and l does
     * not, and the other way round for B.
     */
    lemma DirectionalAsymmetry(q: Query, r: Relation)
      requires r in storage.storage && r.entityFrom.name != r.entityTo.name
      requires q.relation == r.edgeLabel
      ensures q.entity == r.entityFrom.name ==> r in QueryWhat(q) && r !in QueryWho(q)
      ensures q.entity == r.entityTo.name ==> r in QueryWho(q) && r !in QueryWhat(q)
    {
    }

    /**
     * The base class's deduplication, skipped because `resolve` is overridden,
     * would change nothing: any listing of a matcher's answer without repeated
     * entries is already duplicate-free, so it keeps every entry once (and, in
     * the model's first-occurrence order, the listing itself).
     */
    lemma BaseDedupIsRedundant(q: Query, listing: seq<Relation>)
      requires storage.Valid() && Resolve(q).Some?
      requires |listing| == |Resolve(q).value|
      requires forall i, j :: 0 <= i < j < |listing| ==> listing[i] != listing[j]
      requires forall x :: x in listing ==> x in Resolve(q).value
      ensures multiset(Queries.Resolve(listing)) == multiset(listing)
      ensures Queries.Resolve(listing) == listing
    {
      assert DistinctKeys(listing) by {
        forall i, j | 0 <= i < j < |listing| ensures RenderRelation(listing[i]) != RenderRelation(listing[j]) {
          assert listing[i] in listing && listing[j] in listing;
        }
      }
      ResolveOfDistinct(listing);
    }
  }

  // ----- storing as written -----

  /** `self.storage.add(relation)` as the classes are written: the relation cannot be hashed. */
  function StoreAsWritten(s: set<Relation>, r: Relation): (res: Result<set<Relation>, PyError>)
    ensures res == Err(UnhashableType)
  {
    if HashableAsWritten(RelationObj(r)) then Ok(Stored(s, r)) else Err(UnhashableType)
  }

  /** As written, every `store` raises before anything is added. */
  lemma StoreAsWrittenRaises(s: set<Relation>, r: Relation)
    ensures StoreAsWritten(s, r) == Err(UnhashableType)
  {
  }

  // ----- instantiating the resolver as written -----

  /** The abstract members of the `Storage` interface (leto/storage/__init__.py:5-12). */
  const StorageAbstract: set<string> := {"store", "size"}

  /** The body of `DummyStorage`: it defines both abstract members. */
  const DummyStorageClass: ClassDef :=
    ClassDef({"__init__", "store", "size", "_save", "_load", "get_query_resolver"}, StorageAbstract)

  /** The body of `DummyQueryResolver`: it overrides `resolve`, not `_resolve`. */
  const DummyQueryResolverClass: ClassDef :=
    ClassDef({"__init__", "query_match", "query_what", "query_who", "resolve"}, QueryResolverAbstract)

  /** `DummyQueryResolver(self)` as the classes are written: `_resolve` is still abstract. */
  function GetQueryResolverAsWritten(): (res: Result<(), PyError>)
    ensures res == Err(AbstractClass)
  {
    assert "_resolve" in DummyQueryResolverClass.inheritedAbstract && "_resolve" !in DummyQueryResolverClass.defines;
    Instantiate(DummyQueryResolverClass)
  }

  /**
   * As written, `get_query_resolver` always raises, while the store itself can
   * be built; defining `_resolve` in the resolver's body would make it instantiable.
   */
  lemma GetQueryResolverAsWrittenRaises()
    ensures GetQueryResolverAsWritten() == Err(AbstractClass)
    ensures Instantiate(DummyStorageClass) == Ok(())
    ensures Instantiate(DummyQueryResolverClass.(defines := DummyQueryResolverClass.defines + {"_resolve"})) == Ok(())
  {
  }
}
