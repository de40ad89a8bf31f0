# leto triple-store kernel in Dafny

This project models the core of leto, a knowledge-graph question answerer. It covers four parts:

- the fact model: entities, relations, and the identity both take from their rendered strings;
- the typed query record and the base resolver's deduplication;
- the in-memory store `DummyStorage` and its resolver `DummyQueryResolver`;
- the applicability-and-score half of the result visualizers.

Modules follow the source files:

| module | source file |
|---|---|
| `Model` | `leto/model.py` |
| `Queries` | `leto/query/__init__.py` |
| `Storage` | `leto/storage/dummy.py` |
| `Visualizers` | `leto/visualization/__init__.py` |
| `Wrappers` | `Option` and `Result` only |

Some Dafny names differ from the Python ones. `label` and `type` are reserved words in Dafny, so the entity's `type` is written `kind` and the relation's `label` is written `edgeLabel`; `entity_from` and `entity_to` become `entityFrom` and `entityTo`.

How the model reads the code:

- **Identity is the rendered string.** An entity renders as `"name:type"` and a relation as `"(from) -[label]-> (to)"`. `Equal` compares renderings, as `__eq__` does, including against plain strings (`Obj` is the sum of the three kinds of object compared). Extra keyword attributes are a `map<string, Value>` and never enter the rendering.
- **Hashing.** `Entity` and `Relation` define `__eq__` but not `__hash__`. Python therefore makes them unhashable. As written, `set.add` in `store` and `set(...)` in `QueryResolver.resolve` raise `TypeError` (see Findings). The model gives the evidently intended set semantics, keyed by rendering:
  - the store keeps a `set<Relation>` in which no two members are equal relations;
  - storing a relation equal to one already present keeps the stored one, as `set.add` keeps the old element (first writer wins).
- **Resolver dispatch.** `DummyQueryResolver` overrides `resolve` instead of implementing `_resolve`. Two things follow:
  - `_resolve` stays abstract (leto/query/__init__.py:52-54), so as written `DummyQueryResolver(self)` in `get_query_resolver` raises `TypeError` (see Findings). `Model.Instantiate` states the ABC rule over the names a class body defines. The model's `GetQueryResolver` builds the resolver the code evidently intends.
  - The base-class deduplication would never run. The model has both: the base deduplication is `Queries.Resolve`, the matchers are shown duplicate-free directly, and `BaseDedupIsRedundant` shows that the skipped deduplication would keep every entry once.
- **Other variants return no result.** Variants other than Match, What and Who fall through to Python's `None`. The model returns `None` too; it does not fail fast.
- **Field names.** The consumers read `query.terms`, `query.entity` and `query.relation`, and CountVisualizer reads entity names, but the dataclass declares other fields. The Dafny `Query` carries both sets of fields. It holds entity names, and the dataclass equality (`QueryEq`) compares only the declared fields.
- **Attribute reads.** `e.attr("lon")` is read as "the key `lon` is in the attribute map". `entity.get(att)` is read as a lookup in the instance fields (`GetAttr`), not Python's full `getattr`; it returns the name and type for "name" and "type". The keys of `__dict__` are `Fields(e)`: "name", "type" and every extra keyword.
- **Calls that fail as written.** `Entity` defines neither an `attr` nor a `get` method, so `e.attr("lon")` (leto/visualization/__init__.py:60) and `R.entity_from.get(att)` (leto/visualization/__init__.py:98) raise `AttributeError`. Likewise `x.name` (leto/visualization/__init__.py:88) raises on the plain strings that the dataclass declares as the query's entities (leto/query/__init__.py:9). `MapVisualize` and `CountVisualize` model the evidently intended behaviour: a key test, an attribute lookup, and a comparison with the entity names.
- **Render closures.** Each closure a visualizer builds is replaced by the data it captures (`Drawing`): the tuples, the map entries, or the chart columns.

## Model

| member | source | states |
|---|---|---|
| `Model.NewEntity` | leto/model.py:8-12 | for keywords other than `self`, `name` and `type` (which the call refuses) and `__class__`, `__dict__` and `__weakref__` (which `setattr` refuses), the constructor sets `name` and `type` to its arguments; every extra keyword can be read back as an attribute with its value and nothing else can; the instance fields are the two parameters plus the keywords |
| `Model.NewRelation` | leto/model.py:29-34 | for keywords other than `self` and the three parameter names (which the call refuses) and `__class__`, `__dict__` and `__weakref__` (which `setattr` refuses), the constructor sets label, from and to, and the extra keywords become the attribute bag |
| `Model.RenderEntity` | leto/model.py:14-15 | the rendering is one character longer than name and type together, with the separator `:` right after the name |
| `Model.RenderEntityParts` | leto/model.py:14-15 | the name is the part before the separator and the type the part after it; a colon-free name puts the first colon at the separator |
| `Model.RenderRelation` | leto/model.py:36-37 | the rendering is parenthesised, and its length is the two endpoint renderings plus the label plus the 11 fixed characters |
| `Model.RenderRelationParts` | leto/model.py:36-37 | the source's rendering follows the opening parenthesis, the label follows ") -[", and the target's rendering closes the string |
| `Model.Equal` | leto/model.py:20-21 | every object equals itself; equal objects render to strings of one length; an entity equals a plain string iff the string is its rendering |
| `Model.EntityEq` | leto/model.py:20-21 | same name and type imply equal; equal entities have name and type of one total length; two equal entities with one name have one type |
| `Model.RelationEq` | leto/model.py:42-43 | same label and equal endpoints imply equal; two equal relations with one label and equal sources have targets with one rendering |
| `Model.GetAttr` | leto/model.py:8-12 | the intended instance-field lookup behind `entity.get(k)`, not Python's full `getattr` (which also finds class attributes): "name" and "type" are always found, as text; any other key is found iff it was an extra keyword, with that keyword's value |
| `Model.Fields` | leto/model.py:8-12 | the instance fields hold both parameters and every extra keyword, and are exactly the keys `getattr` finds |
| `Model.EntityEqIsRendering` | leto/model.py:14-21 | two entities are equal iff their "name:type" strings are equal |
| `Model.EntityEqIgnoresAttributes` | leto/model.py:8-21 | replacing the extra attributes of either entity never changes whether they are equal |
| `Model.SameNameAndKindEqual` | leto/model.py:14-21 | same name and same type imply equal |
| `Model.EntityIdentityIsTheString` | leto/model.py:14-21 | `Entity("a:b","c")` equals `Entity("a","b:c")` although both fields differ |
| `Model.EntityEqualsItsString` | leto/model.py:20-21 | an entity equals a plain string iff the string is its rendering, in either order of comparison |
| `Model.EntityEqIsEquivalence` | leto/model.py:20-21 | entity equality is reflexive, symmetric and transitive |
| `Model.RelationEqIgnoresAttributes` | leto/model.py:29-43 | replacing extra attributes never changes whether two relations are equal |
| `Model.RelationEqFromParts` | leto/model.py:36-43 | equal labels and pairwise-equal endpoints imply equal relations |
| `Model.RelationIdentityIsTheString` | leto/model.py:36-43 | two relations with different labels and different targets can still be equal, because identity is the whole string |
| `Model.RelationEqualsItsString` | leto/model.py:42-43 | a relation equals a plain string iff the string is its rendering, in either order |
| `Model.RelationEqIsEquivalence` | leto/model.py:42-43 | relation equality is reflexive, symmetric and transitive |
| `Model.FactsUnhashableAsWritten` | leto/model.py:4-43 | derived from the class bodies by the rule "`__eq__` without `__hash__` makes `__hash__` None": as written neither an entity nor a relation can be hashed, and defining `__hash__` would make both hashable |
| `Model.Instantiate` | leto/query/__init__.py:51-54 | an ABC subclass can be built iff its body defines every abstract method of its bases; otherwise the call fails with the abstract-class error |
| `Queries.MakeQuery` | leto/query/__init__.py:7-13 | a built query has the given variant and field values |
| `Queries.DefaultsAreEmpty` | leto/query/__init__.py:12-13 | omitted `aggregate` and `groupby` are the empty string |
| `Queries.QueryEq` | leto/query/__init__.py:7-13 | a query equals itself; queries of different variants are never equal; equal queries agree on every declared field |
| `Queries.QueryEqFieldwise` | leto/query/__init__.py:7-47 | query equality holds iff the variant and every declared field agree; queries of different variants are never equal; the consumer-read fields take no part |
| `Queries.QueryEqIsEquivalence` | leto/query/__init__.py:7-13 | query equality is an equivalence relation |
| `Queries.Resolve` | leto/query/__init__.py:56-57 | the result has no two equal relations, has exactly the identities of the matcher output, and contains only relations from it |
| `Queries.ResolvePreservesMembership` | leto/query/__init__.py:56-57 | a relation is in `resolve`'s result iff it is in the matcher output (membership by equality) |
| `Queries.ResolveLength` | leto/query/__init__.py:57 | the result has one entry per distinct identity, and no more entries than the matcher output |
| `Queries.ResolveIgnoresOrderAndRepeats` | leto/query/__init__.py:57 | matcher outputs with the same identities, in any order and with any repeats, resolve to the same identities and the same length |
| `Queries.ResolveOfDistinct` | leto/query/__init__.py:56-57 | on a duplicate-free matcher output `resolve` keeps every relation exactly once (equal multisets); in the model's first-occurrence order the result is the input itself |
| `Queries.ResolveAsWritten` | leto/query/__init__.py:57 | as written, the dedup fails iff the matcher output is non-empty, and succeeds only with the empty list |
| `Queries.ResolveAsWrittenRaises` | leto/query/__init__.py:57 | as written, `resolve` raises iff the matcher output is non-empty, and returns [] on the empty one |
| `Storage.Stored` | leto/storage/dummy.py:16-17 | after `set.add(r)` a relation equal to `r` is held, nothing is removed, nothing but `r` is added, and a set free of equal members stays so |
| `Storage.StoreAll` | leto/storage/dummy.py:16-17 | a run of stores removes nothing, adds only relations of the run, and keeps the set free of equal members |
| `Storage.UniqueKeysCount` | leto/storage/dummy.py:20-22 | in a store with no two equal relations, the size equals the number of distinct identities |
| `Storage.StoredHolds` | leto/storage/dummy.py:16-17 | after `store(r)` some stored relation equals `r` |
| `Storage.StoredKeepsOld` | leto/storage/dummy.py:16-17 | `store` keeps every stored relation (the old set is a subset of the new one), keeps the set free of equal members, and adds exactly the identity of `r` |
| `Storage.StoredSize` | leto/storage/dummy.py:16-22 | storing a relation equal to a stored one leaves the size unchanged; storing a new one adds exactly 1 |
| `Storage.StoreAllKeys` | leto/storage/dummy.py:16-17 | after a run of stores the set has no two equal members, and its identities are the old ones plus those stored |
| `Storage.StoreAllCountsIdentities` | leto/storage/dummy.py:16-22 | starting empty, the size after any run of stores is the number of distinct identities stored |
| `Storage.SameTripleCountedOnce` | leto/storage/dummy.py:16-22 | storing one triple any positive number of times, with any attributes, gives size 1 |
| `Storage.DummyStorage.constructor` | leto/storage/dummy.py:12-33 | a new store starts empty, or holds the snapshot `_load` finds, and satisfies the store invariant |
| `Storage.DummyStorage.Store` | leto/storage/dummy.py:16-17 | the new set is `old + {r}` unless an equal relation was already present; `r` is then held; nothing stored is lost; the size grows by 1 iff `r` was new |
| `Storage.DummyStorage.Size` | leto/storage/dummy.py:20-22 | `size` is the number of distinct stored identities |
| `Storage.DummyStorage.GetQueryResolver` | leto/storage/dummy.py:35-36 | the intended behaviour: returns a new resolver bound to this store |
| `Storage.DummyQueryResolver.constructor` | leto/storage/dummy.py:40-41 | the resolver is bound to the given store |
| `Storage.DummyQueryResolver.QueryMatch` | leto/storage/dummy.py:43-48 | yields exactly the stored relations whose from-name, label or to-name is a term; the answer is a subset of the store with no two equal members |
| `Storage.DummyQueryResolver.QueryWhat` | leto/storage/dummy.py:50-53 | yields exactly the stored relations with from-name `entity` and label `relation`; duplicate-free subset |
| `Storage.DummyQueryResolver.QueryWho` | leto/storage/dummy.py:55-58 | yields exactly the stored relations with to-name `entity` and label `relation`; duplicate-free subset |
| `Storage.DummyQueryResolver.Resolve` | leto/storage/dummy.py:60-68 | Match, What and Who go to their matchers; every other variant yields `None` |
| `Storage.DummyQueryResolver.ResolveIsDuplicateFreeSubset` | leto/storage/dummy.py:46-68 | every answer is a subset of the store with no two equal relations |
| `Storage.DummyQueryResolver.MatchIsUnion` | leto/storage/dummy.py:43-48 | OR semantics: the Match answer for terms `t1 + t2` is the union of the answers for `t1` and for `t2` |
| `Storage.DummyQueryResolver.DirectionalAsymmetry` | leto/storage/dummy.py:50-58 | for a stored `(A) -[l]-> (B)` with A and B named differently, What(A, l) returns it and Who(A, l) does not, and the reverse holds for B |
| `Storage.DummyQueryResolver.BaseDedupIsRedundant` | leto/storage/dummy.py:60-68 | the skipped base-class deduplication would keep every entry of a repeat-free listing of a matcher's answer exactly once; in the model's order it returns the listing itself |
| `Storage.GetQueryResolverAsWritten` | leto/storage/dummy.py:36 | as written, building the resolver always fails with the abstract-class error |
| `Storage.GetQueryResolverAsWrittenRaises` | leto/storage/dummy.py:11-41 | as written `get_query_resolver` always fails, while `DummyStorage` itself can be built; defining `_resolve` would make the resolver instantiable |
| `Storage.StoreAsWritten` | leto/storage/dummy.py:17 | as written, `store` always fails with the unhashable-type error |
| `Storage.StoreAsWrittenRaises` | leto/storage/dummy.py:17 | as written, every `store` raises before anything is added |
| `Visualizers.Score` | leto/visualization/__init__.py:11-25 | an invalid visualization (the sentinel) scores 0 |
| `Visualizers.Title` | leto/visualization/__init__.py:11-26 | a visualization has a title iff it is valid; the sentinel's is `None` |
| `Visualizers.IsValid` | leto/visualization/__init__.py:21-29 | `valid()` is false exactly for the sentinel |
| `Visualizers.SentinelIsInvalid` | leto/visualization/__init__.py:11-29 | `Empty` has score 0, title `None` and is not valid; every real visualization is valid and has a title |
| `Visualizers.DummyVisualize` | leto/visualization/__init__.py:38-44 | always a valid candidate with score 0, titled "📋 Returned tuples", listing the response |
| `Visualizers.WithLon` | leto/visualization/__init__.py:59-60 | the kept endpoints are no more than the given ones, and each carries `lon` |
| `Visualizers.Mappable` | leto/visualization/__init__.py:56-63 | at most two entries per response relation, and every entry carries `lon` |
| `Visualizers.MappableAppend` | leto/visualization/__init__.py:58-63 | entries follow response order: the entries of a concatenation are the concatenated entries |
| `Visualizers.MappableSound` | leto/visualization/__init__.py:58-63 | every collected entry carries `lon` and is an endpoint of a response relation |
| `Visualizers.MappableCount` | leto/visualization/__init__.py:58-63 | the number of entries is the number of from-endpoints plus to-endpoints carrying `lon`, repeats included |
| `Visualizers.MappableEmptyIff` | leto/visualization/__init__.py:58-66 | nothing is collected iff no endpoint of the response carries `lon` |
| `Visualizers.MapVisualize` | leto/visualization/__init__.py:51-74 | not a Where query gives `Empty`; otherwise `Empty` iff no endpoint carries `lon`, and else a map candidate over the collected entries whose score is their number (at least 1) |
| `Visualizers.Interest` | leto/visualization/__init__.py:85-91 | every interest attribute is a query term, and no attribute occurs more often than there are response relations |
| `Visualizers.InterestNonEmptyIff` | leto/visualization/__init__.py:87-94 | an interest attribute is found iff some response relation is an `is_a` into a query entity name whose from-entity has an attribute among the terms |
| `Visualizers.MatchingFields` | leto/visualization/__init__.py:89-91 | the inner loop collects exactly the from-entity's attribute names that are terms, each once |
| `Visualizers.CollectInterest` | leto/visualization/__init__.py:85-91 | the outer loop builds exactly the interest attributes of the response |
| `Visualizers.Column` | leto/visualization/__init__.py:98 | a column has one cell per response relation: the from-entity's attribute value |
| `Visualizers.ChartColumns` | leto/visualization/__init__.py:96-98 | the data table has the "name" column plus one per interest attribute; every column has one row per response relation; the "name" column holds the from-names |
| `Visualizers.BuildColumns` | leto/visualization/__init__.py:96-98 | filling the dictionary yields exactly that table, repeated attributes included |
| `Visualizers.CountVisualize` | leto/visualization/__init__.py:77-125 | not a HowMany query gives `Empty`; otherwise it is a candidate iff some relation qualifies; a candidate's score is the number of response relations (rows, not matches) |

## Left out

- File persistence (`_save`, and the pickle read in `_load`, leto/storage/dummy.py:24-33): this is file I/O at a fixed path. The constructor takes the optional snapshot that `_load` would find.
- The abstract `Storage` interface and `get_storages` (leto/storage/__init__.py): the interface has no behaviour, and its contract is folded into `DummyStorage`. The graph-database backend it imports is not part of this model.
- The natural-language parsers, `QueryParser` and `get_parsers` (leto/query/__init__.py:60-69): the rule parsers live in `leto.query.rules`, which is not part of this model.
- Resolution of HowMany, Which, Where and Predict queries: no shown code resolves them. The model returns `None` for them, as the code does.
- The base `Query` class itself (an `abc.ABC` with no abstract method, so it can be instantiated): only the seven variants are modelled.
- The UI (leto/ui.py) and the loaders (leto/loaders/__init__.py): they are wiring and reflection-based discovery.
- `GraphVisualizer`: an empty class with no behaviour.
- Renderer ranking and selection: no shown code orders the visualizers.
- `Visualization.visualize`, the render closures, pandas, plotly and streamlit calls: treated as opaque. `Drawing` records only the data each closure captures.
- `Queries.Resolve`: `list(set(xs))` lists the set in hash order, and string hashes are randomised per process. The model picks first-occurrence order. `ResolveOfDistinct` and `BaseDedupIsRedundant` state the order-free fact as equal multisets; their list equalities hold only for the model's order.
- Laziness of the matchers: Python's generators read the store when iterated; the model's matchers read it when called.
- `MapVisualize`: each entry is the endpoint entity, not the row `(name, float(lat), float(lon))`. A missing `lat` or a non-numeric value would raise in the source; the model does not model that, because float conversion is outside it.
- `HasLon`: tests that the `lon` key is present, not that its value is truthy.
- `CountVisualize`: the interest attributes are a multiset, because extra attributes are an unordered map. The column order and the `to_numeric` conversion of the columns are not modelled.
- Scores are integers; the source types `score` as `float`, but every score it computes is a count or 0.
- `Storage.DummyStorage.constructor`: requires the snapshot to have no two equal relations. A pickled Python set under the intended hashing has that property.

## Findings

| source | as written | input that shows it | evidently intended | confidence | as-written member | corrected member |
|---|---|---|---|---|---|---|
| leto/storage/dummy.py:17 | `self.storage.add(relation)` hashes a `Relation`. Its class defines `__eq__` without `__hash__` (leto/model.py:42-43), so Python makes it unhashable and `add` raises `TypeError`. | `store(Relation("l", Entity("a","b"), Entity("c","d")))` on any store | set semantics keyed by the rendered identity: an equal relation is a no-op, a new one is added | not executed; high (Python data model) | `Storage.StoreAsWrittenRaises` | `Storage.DummyStorage.Store` |
| leto/storage/dummy.py:36 | `DummyQueryResolver(self)` instantiates a subclass of the ABC `QueryResolver` that defines `resolve` but never the abstract `_resolve` (leto/query/__init__.py:52-54), so `ABCMeta` refuses it with `TypeError`. | `DummyStorage().get_query_resolver()` | a resolver bound to the store, with `_resolve` defined or the abstract marker dropped | not executed; high (Python abc module) | `Storage.GetQueryResolverAsWrittenRaises` | `Storage.DummyStorage.GetQueryResolver` |
| leto/query/__init__.py:57 | `set(self._resolve(query))` hashes each relation and raises `TypeError` on the first one. | any non-empty matcher output | a duplicate-free list with the same relations, up to equality | not executed; high (Python data model) | `Queries.ResolveAsWrittenRaises` | `Queries.Resolve` |
