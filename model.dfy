/**
 * The fact model of leto (leto/model.py): entities, relations, and the
 * identity both of them take from their rendered string.
 */
module Model {
  import opened Wrappers

  /** The value of an extra keyword attribute (a latitude, a date, a source, ...); opaque to the core. */
  datatype Value = Text(text: string) | Number(number: real) | Flag(flag: bool)

  /** A named, typed node; `attrs` holds the extra keyword arguments given to the constructor. */
  datatype Entity = Entity(name: string, kind: string, attrs: map<string, Value>)

  /** A labelled, directed edge between two entities, with its own extra attributes. */
  datatype Relation = Relation(edgeLabel: string, entityFrom: Entity, entityTo: Entity, attrs: map<string, Value>)

  /** Any object an entity or a relation may be compared with: `__eq__` accepts every object. */
  datatype Obj = EntityObj(entity: Entity) | RelationObj(relation: Relation) | StrObj(str: string)

  /**
   * `Entity.__str__`: "name:type". The name comes first and the type last; when
   * the name holds no colon, the first colon of the string is the separator.
   */
  function RenderEntity(e: Entity): (s: string)
    ensures |s| == |e.name| + 1 + |e.kind| && s[|e.name|] == ':'
  {
    e.name + ":" + e.kind
  }

  /**
   * `Relation.__str__`: "(from) -[label]-> (to)", a parenthesised string that
   * opens with the source's rendering and closes with the target's.
   */
  function RenderRelation(r: Relation): (s: string)
    ensures |s| == |RenderEntity(r.entityFrom)| + |r.edgeLabel| + |RenderEntity(r.entityTo)| + 11
    ensures s[0] == '(' && s[|s| - 1] == ')'
  {
    "(" + RenderEntity(r.entityFrom) + ") -[" + r.edgeLabel + "]-> (" + RenderEntity(r.entityTo) + ")"
  }

  /**
   * The pieces of "name:type" sit where they belong: the name before the
   * separator, the type after it; a colon-free name puts the first colon there.
   */
  lemma RenderEntityParts(e: Entity)
    ensures var s := RenderEntity(e);
      s[..|e.name|] == e.name && s[|e.name| + 1..] == e.kind
    ensures ':' !in e.name ==> forall i :: 0 <= i < |e.name| ==> RenderEntity(e)[i] != ':'
  {
  }

  /** The source's rendering opens "(from) -[label]-> (to)" and the target's closes it. */
  lemma RenderRelationParts(r: Relation)
    ensures var s, f := RenderRelation(r), RenderEntity(r.entityFrom);
      s[1..1 + |f|] == f && s[|f| + 5..|f| + 5 + |r.edgeLabel|] == r.edgeLabel
    ensures var s, n := RenderRelation(r), |RenderEntity(r.entityFrom)| + |r.edgeLabel| + 10;
      s[n..|s| - 1] == RenderEntity(r.entityTo)
  {
  }

  /** Python's `str(o)` on the objects the core compares. */
  function Str(o: Obj): string
  {
    match o
    case EntityObj(e) => RenderEntity(e)
    case RelationObj(r) => RenderRelation(r)
    case StrObj(s) => s
  }

  /**
   * `Entity.__eq__` and `Relation.__eq__`: `str(self) == str(o)`. A plain string
   * compared with an entity falls back to the entity's reflected `__eq__`, so the
   * same test decides both orders.
   */
  predicate Equal(a: Obj, b: Obj)
    ensures a == b ==> Equal(a, b)
    ensures Equal(a, b) ==> |Str(a)| == |Str(b)|
    ensures a.EntityObj? && b.StrObj? ==> (Equal(a, b) <==> b.str == RenderEntity(a.entity))
  {
    Str(a) == Str(b)
  }

  /**
   * Entity equality: same name and type suffice, equal entities have renderings
   * of one length, and two equal entities with one name share their type.
   */
  predicate EntityEq(a: Entity, b: Entity)
    ensures a.name == b.name && a.kind == b.kind ==> EntityEq(a, b)
    ensures EntityEq(a, b) ==> |a.name| + |a.kind| == |b.name| + |b.kind|
    ensures EntityEq(a, b) && a.name == b.name ==> a.kind == b.kind
  {
    RenderEntityParts(a);
    RenderEntityParts(b);
    Equal(EntityObj(a), EntityObj(b))
  }

  /**
   * Relation equality: same label and equal endpoints suffice, and two equal
   * relations with one label and one source rendering share their target's rendering.
   */
  predicate RelationEq(a: Relation, b: Relation)
    ensures a.edgeLabel == b.edgeLabel && EntityEq(a.entityFrom, b.entityFrom) && EntityEq(a.entityTo, b.entityTo)
      ==> RelationEq(a, b)
    ensures RelationEq(a, b) && a.edgeLabel == b.edgeLabel && EntityEq(a.entityFrom, b.entityFrom)
      ==> RenderEntity(a.entityTo) == RenderEntity(b.entityTo)
  {
    RenderRelationParts(a);
    RenderRelationParts(b);
    Equal(RelationObj(a), RelationObj(b))
  }

  /** The keyword names that the entity constructor binds to its own parameters. */
  const EntityParameters: set<string> := {"name", "type"}

  /** The keyword names that the relation constructor binds to its own parameters. */
  const RelationParameters: set<string> := {"label", "entity_from", "entity_to"}

  /**
   * The keywords an object's `__init__` cannot take into `**kwargs` and store:
   * `self` repeats the first parameter, and `setattr` refuses the three data
   * descriptors every plain class has, since no attribute value is a class
   * (`__class__`) or a dictionary (`__dict__`), and `__weakref__` is read-only.
   */
  const ObjectKeywordsRefused: set<string> := {"self", "__class__", "__dict__", "__weakref__"}

  /** The names that never reach `**kwargs` of an entity or are refused by its `setattr`. */
  const EntityKeywordsRefused: set<string> := EntityParameters + ObjectKeywordsRefused

  /** The names that never reach `**kwargs` of a relation or are refused by its `setattr`. */
  const RelationKeywordsRefused: set<string> := RelationParameters + ObjectKeywordsRefused

  /**
   * The attribute lookup the consumers intend by `entity.get(k)`: a lookup in
   * the instance fields, not Python's full `getattr`, which would also find
   * class attributes such as `__init__`. The two parameters are always present
   * as text, any other key is present exactly when it was an extra keyword.
   */
  function GetAttr(e: Entity, k: string): (v: Option<Value>)
    ensures k in EntityParameters ==> v.Some? && v.value.Text?
    ensures k !in EntityParameters ==> (v.Some? <==> k in e.attrs)
    ensures k !in EntityParameters && k in e.attrs ==> v == Some(e.attrs[k])
  {
    if k == "name" then Some(Text(e.name))
    else if k == "type" then Some(Text(e.kind))
    else if k in e.attrs then Some(e.attrs[k])
    else None
  }

  /** The keys of the entity's instance `__dict__`: exactly the keys the lookup finds. */
  function Fields(e: Entity): (f: set<string>)
    ensures EntityParameters <= f && e.attrs.Keys <= f
    ensures forall k :: k in f <==> GetAttr(e, k).Some?
  {
    EntityParameters + e.attrs.Keys
  }

  /**
   * `Entity(name, type, **kwargs)`. Python refuses a keyword that repeats a
   * parameter name, and `setattr` refuses the read-only or typed descriptors,
   * so `kwargs` holds none of `EntityKeywordsRefused`.
   */
  function NewEntity(name: string, kind: string, kwargs: map<string, Value>): (e: Entity)
    requires kwargs.Keys !! EntityKeywordsRefused
    ensures e.name == name && e.kind == kind
    ensures GetAttr(e, "name") == Some(Text(name)) && GetAttr(e, "type") == Some(Text(kind))
    ensures forall k :: k in kwargs ==> GetAttr(e, k) == Some(kwargs[k])
    ensures forall k :: k !in kwargs && k !in EntityParameters ==> GetAttr(e, k) == None
    ensures Fields(e) == EntityParameters + kwargs.Keys
  {
    Entity(name, kind, kwargs)
  }

  /**
   * `Relation(label, entity_from, entity_to, **kwargs)`; `kwargs` never holds
   * "self" or a parameter name.
   */
  function NewRelation(edgeLabel: string, from: Entity, to: Entity, kwargs: map<string, Value>): (r: Relation)
    requires kwargs.Keys !! RelationKeywordsRefused
    ensures r.edgeLabel == edgeLabel && r.entityFrom == from && r.entityTo == to
    ensures r.attrs == kwargs
  {
    Relation(edgeLabel, from, to, kwargs)
  }

  // ----- identity of entities -----

  /** Two entities are equal exactly when their "name:type" renderings are. */
  lemma EntityEqIsRendering(a: Entity, b: Entity)
    ensures EntityEq(a, b) <==> a.name + ":" + a.kind == b.name + ":" + b.kind
  {
  }

  /** Extra keyword attributes never take part in entity equality. */
  lemma EntityEqIgnoresAttributes(a: Entity, b: Entity, ma: map<string, Value>, mb: map<string, Value>)
    ensures EntityEq(a, b) <==> EntityEq(a.(attrs := ma), b.(attrs := mb))
  {
  }

  /** Same name and same type give equal entities, whatever their attributes. */
  lemma SameNameAndKindEqual(a: Entity, b: Entity)
    requires a.name == b.name && a.kind == b.kind
    ensures EntityEq(a, b)
  {
  }

  /** Identity is the rendered string and not the pair of fields: "a:b"/"c" equals "a"/"b:c". */
  lemma EntityIdentityIsTheString()
    ensures var a, b := Entity("a:b", "c", map[]), Entity("a", "b:c", map[]);
      EntityEq(a, b) && a.name != b.name && a.kind != b.kind
  {
    assert "a:b" + ":" + "c" == "a" + ":" + "b:c";
  }

  /** An entity compares equal, in both orders, to the plain string of its rendering and to no other string. */
  lemma EntityEqualsItsString(e: Entity, s: string)
    ensures Equal(EntityObj(e), StrObj(s)) <==> s == e.name + ":" + e.kind
    ensures Equal(StrObj(s), EntityObj(e)) <==> Equal(EntityObj(e), StrObj(s))
  {
  }

  /** Entity equality is an equivalence relation. */
  lemma EntityEqIsEquivalence()
    ensures forall a :: EntityEq(a, a)
    ensures forall a, b :: EntityEq(a, b) ==> EntityEq(b, a)
    ensures forall a, b, c :: EntityEq(a, b) && EntityEq(b, c) ==> EntityEq(a, c)
  {
  }

  // ----- identity of relations -----

  /** Extra attributes never take part in relation equality. */
  lemma RelationEqIgnoresAttributes(a: Relation, b: Relation, ma: map<string, Value>, mb: map<string, Value>)
    ensures RelationEq(a, b) <==> RelationEq(a.(attrs := ma), b.(attrs := mb))
  {
  }

  /**
   * Relations with the same label whose endpoints are pairwise equal entities
   * (in particular: same names and types) are equal.
   */
  lemma RelationEqFromParts(a: Relation, b: Relation)
    requires a.edgeLabel == b.edgeLabel
    requires EntityEq(a.entityFrom, b.entityFrom) && EntityEq(a.entityTo, b.entityTo)
    ensures RelationEq(a, b)
  {
  }

  /**
   * The converse fails: identity is the whole string, so two relations with
   * different labels and different targets can still be equal.
   */
  lemma RelationIdentityIsTheString()
    ensures var a := Relation("l", Entity("a", "b", map[]), Entity("p]-> (q", "t", map[]), map[]);
            var b := Relation("l]-> (p", Entity("a", "b", map[]), Entity("q", "t", map[]), map[]);
      RelationEq(a, b) && a.edgeLabel != b.edgeLabel && a.entityTo != b.entityTo
  {
    var a := Relation("l", Entity("a", "b", map[]), Entity("p]-> (q", "t", map[]), map[]);
    var b := Relation("l]-> (p", Entity("a", "b", map[]), Entity("q", "t", map[]), map[]);
    var arrow := "]-> (";
    assert RenderEntity(a.entityTo) == "p" + arrow + "q:t";
    assert b.edgeLabel == "l" + arrow + "p";
  }

  /** A relation compares equal, in both orders, to the plain string of its rendering and to no other string. */
  lemma RelationEqualsItsString(r: Relation, s: string)
    ensures Equal(RelationObj(r), StrObj(s)) <==> s == RenderRelation(r)
    ensures Equal(StrObj(s), RelationObj(r)) <==> Equal(RelationObj(r), StrObj(s))
  {
  }

  /** Relation equality is an equivalence relation. */
  lemma RelationEqIsEquivalence()
    ensures forall a :: RelationEq(a, a)
    ensures forall a, b :: RelationEq(a, b) ==> RelationEq(b, a)
    ensures forall a, b, c :: RelationEq(a, b) && RelationEq(b, c) ==> RelationEq(a, c)
  {
  }

  // ----- the Python class rules the code as written runs into -----

  /** The exceptions raised where the code as written breaks. */
  datatype PyError =
    | UnhashableType  // an object whose class has `__hash__ = None` enters a set
    | AbstractClass   // an ABC subclass with an abstract method left is instantiated

  /** A class as the data model sees it: the names its body defines and the abstract methods its bases declare. */
  datatype ClassDef = ClassDef(defines: set<string>, inheritedAbstract: set<string>)

  /**
   * A class that defines `__eq__` without `__hash__` gets `__hash__ = None`;
   * any other class keeps a hash, its own or the inherited one.
   */
  predicate InstancesHashable(c: ClassDef)
  {
    "__hash__" in c.defines || "__eq__" !in c.defines
  }

  /**
   * Calling an ABC subclass: refused while some abstract method of its bases is
   * not defined in its body; otherwise the instance is built.
   */
  function Instantiate(c: ClassDef): (r: Result<(), PyError>)
    ensures r.Ok? <==> c.inheritedAbstract <= c.defines
    ensures r.Err? ==> r.error == AbstractClass
  {
    var missing := c.inheritedAbstract - c.defines;
    assert forall m :: m in c.inheritedAbstract ==> m in missing || m in c.defines;
    if missing == {} then Ok(())
    else
      assert |missing| != 0;
      Err(AbstractClass)
  }

  /** The body of `Entity` (leto/model.py:4-21); it has no abstract base. */
  const EntityClass: ClassDef := ClassDef({"__init__", "__str__", "__repr__", "__eq__"}, {})

  /** The body of `Relation` (leto/model.py:24-43); it has no abstract base. */
  const RelationClass: ClassDef := ClassDef({"__init__", "__str__", "__repr__", "__eq__"}, {})

  /** Whether `hash(o)` succeeds as the classes are written; a plain string always hashes. */
  predicate HashableAsWritten(o: Obj)
  {
    match o
    case EntityObj(_) => InstancesHashable(EntityClass)
    case RelationObj(_) => InstancesHashable(RelationClass)
    case StrObj(_) => true
  }

  /**
   * No entity and no relation can be hashed as the classes are written, and
   * defining `__hash__` in their bodies would make both hashable.
   */
  lemma FactsUnhashableAsWritten(e: Entity, r: Relation)
    ensures !HashableAsWritten(EntityObj(e)) && !HashableAsWritten(RelationObj(r))
    ensures InstancesHashable(EntityClass.(defines := EntityClass.defines + {"__hash__"}))
    ensures InstancesHashable(RelationClass.(defines := RelationClass.defines + {"__hash__"}))
  {
  }
}
