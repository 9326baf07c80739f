# structdb-restapi client core in Dafny

This project models the client of the structure-and-property database REST
API (`structdbrest`). It covers four parts:

- **Composition patterns** (`Composition`, `CompositionExamples`):
  `process_composition_query` turns a pattern such as `"Al2Cu"`, `"Si-%"` or
  `"*Cu"` into the SQL-like query string the server expects, plus a number of
  atom types (`-1` when unknown). The regular-expression `findall` is modelled
  as a scanner, the key-sorted step as a stable insertion sort, and
  `str.replace("%%", "%")` as a single left-to-right pass.
- **Entity classes** (`DataClasses`): the six data classes (`Property`,
  `StructureEntry`, `GenericEntry`, `PropertyType`, `ComparisonType`,
  `CalculatorType`) as one `Entity` class whose attribute dictionary is
  updated in place. It also models their `__repr__`, the `VALUE`/`value`
  properties, and Python's `str` of the scalar values they print.
- **Request parameters and `del_none`** (`QueryParams`, `NoneRemoval`): the
  `param_*` dictionaries the five `query_*` methods send, and the recursive
  deletion of `None` values.
- **The client** (`Rester`): `StructDBLightRester` with its entity cache.
  The cache is shared across queries and maps a class name to an id to the
  single object built for it. The model covers:
  - the caching decorator (get-or-create);
  - `make_entry` and the six `make_*` constructors, which resolve tokens
    `{"__entry_type": ..., "id": ...}` against the response's `cache_dump`;
  - the `cache_state` manifest sent with every request;
  - `_query_db_entry_` on a decoded response.

The client's state is the cache. `Rester.EntriesCache` is a class whose
`entries` field the methods of `Rester.Client` reassign. A caller may supply
the cache and then shares it with the client. The recursion of the
materialiser is proved to terminate under a ghost rank on the records of the
dump: every record a token leads to has a strictly smaller rank. The proofs
also show six things:

- the cache only grows;
- every slot a call fills belongs to the record of its token or to a
  record that record leads to; a query with string or dictionary data
  fills none, and a query with list data fills only slots that the items
  up to the failing one lead to, so a record that only later items lead
  to is never cached;
- a call never fills the slot of the token it is building, so storing the
  new object afterwards does not overwrite anything;
- each object a call stores, and so each object a query returns on a cache
  miss, has exactly one attribute per field of its record, each the resolved
  field value, with child maps rebuilt key by key;
- a call succeeds whenever the token's record, and every record it leads
  to, is accepted by its `make_*` constructor (`Rester.Resolvable`); a query
  returns its entries whenever every `data_dump` item is resolvable, and
  always for string or dictionary data;
- when an item fails, it is the first item that does not resolve against
  the final cache, the objects made for the items before it stay cached,
  and an error its own token or record raises (`Rester.EarlyError`) becomes
  None when it is a KeyError and escapes otherwise.

Three behaviours of the code worth noting:

- the number of atom types counts element tokens with repeats:
  `"AlAl"` gives 2;
- characters the pattern cannot match are skipped one at a time, and later
  matches still count: `"Al12"` gives `"Al-1"`;
- the cache stores an object only after it is fully built, so a cycle of
  records reached through slots that are not yet cached recurses until
  Python's recursion limit. The model requires a rank on every record of
  the dump, which also excludes some inputs Python handles (see "Left out").

## Model

| member | source | states |
|---|---|---|
| Composition.ElementMatch | src/structdbrest/query.py:17 | one element match consumes at least one character, yields an upper-case letter with an optional lower-case letter and at most one digit-or-`%` quantity, and never swallows another upper-case letter or `*` |
| Composition.FindAllWellFormed | src/structdbrest/query.py:17 | every pair `findall` yields is either the wildcard pair ("", "") or an element pair of the regular expression's shape |
| Composition.FindAllElementCount | src/structdbrest/query.py:92 | the scan yields exactly one element pair per upper-case letter of the pattern |
| Composition.FindAllWildcard | src/structdbrest/query.py:92 | the scan yields a wildcard pair if and only if the pattern contains `*` |
| Composition.KeyLeTotal | src/structdbrest/query.py:94 | any two sort keys are comparable under Python's string order |
| Composition.KeyLeReflexive | src/structdbrest/query.py:94 | every key is ordered before-or-equal to itself |
| Composition.KeyLeAntisymmetric | src/structdbrest/query.py:94 | two keys ordered both ways are equal, so the order is Python's lexicographic order on strings |
| Composition.KeyLeTransitive | src/structdbrest/query.py:94 | the key order is transitive, so `sorted` has a well-defined result |
| Composition.SortByElement | src/structdbrest/query.py:94 | the sorted pairs are ordered by element and are a permutation of the scanned pairs |
| Composition.SortIsStable | src/structdbrest/query.py:94 | pairs with the same element keep their relative order, as Python's stable `sorted` promises |
| Composition.WildcardsFirst | src/structdbrest/query.py:94 | in a sorted sequence every pair before a wildcard pair is a wildcard pair too (the empty key sorts first) |
| Composition.SortKeepsWildcard | src/structdbrest/query.py:94 | sorting neither adds nor removes a wildcard pair |
| Composition.SortKeepsElementCount | src/structdbrest/query.py:94 | sorting keeps the number of element pairs |
| Composition.CollapsePercent | src/structdbrest/query.py:116 | the replacement pass never lengthens the string |
| Composition.CollapseWithoutDouble | src/structdbrest/query.py:116 | the replacement leaves a string without "%%" unchanged |
| Composition.CollapseSplit | src/structdbrest/query.py:116 | the replacement distributes over a concatenation whose seam is not "%%" |
| Composition.Join | src/structdbrest/query.py:112 | `sep.join` of no items is the empty string, and the first item is a prefix of the joined string |
| Composition.JoinPair | src/structdbrest/query.py:112 | two items are joined by exactly one separator |
| Composition.SpaceJoinNoDouble | src/structdbrest/query.py:112 | space-joined element items never contain "%%", so the plain query is not altered by the replacement |
| Composition.WildcardQueryShape | src/structdbrest/query.py:115-116 | the wildcard query after the replacement starts and ends with `%` and holds no "%%" |
| Composition.CompileQuery | src/structdbrest/query.py:89-117 | the method computes exactly the specification `Compiled`: the bare "%" case, the scan, the sort, the loop and the final replacement |
| Composition.Compiled | src/structdbrest/query.py:89-117 | the count is never below -1, and it is -1 if and only if the pattern is "%" or contains `*` |
| Composition.CollectItems | src/structdbrest/query.py:95-109 | the loop yields the `el-quant` item of every element pair in order (quantity defaulting to "1"), counts them, and flags a wildcard pair exactly when there is one |
| Composition.WildcardPattern | src/structdbrest/query.py:108-116 | a pattern with `*` (other than "%") gives -1 atom types and the `%`-join of the element-sorted `el-quant` items wrapped in `%`, after the replacement, which starts and ends with `%` and holds no "%%" |
| Composition.PlainPattern | src/structdbrest/query.py:92-112 | a pattern without `*` gives as many atom types as upper-case letters and the space join of the sorted `el-quant` items |
| CompositionExamples.ExampleAlCu | src/structdbrest/query.py:89-117 | "Al2Cu1" and "Cu1Al2" both compile to ("Al-2 Cu-1", 2) |
| CompositionExamples.ExampleSiPercent | src/structdbrest/query.py:89-117 | "Si-%" compiles to ("Si-%", 1) |
| CompositionExamples.ExampleOneDigitQuantity | src/structdbrest/query.py:17 | a second digit is skipped: "Al12" compiles to ("Al-1", 1) |
| CompositionExamples.ExampleRepeatedElement | src/structdbrest/query.py:105-107 | a repeated element counts twice: "AlAl" compiles to ("Al-1 Al-1", 2) |
| CompositionExamples.ExampleWildcard | src/structdbrest/query.py:89-117 | "*Cu" compiles to ("%Cu-1%", -1) and "%" to ("%", -1) |
| DataClasses.KindNamed | src/structdbrest/query.py:150-163 | the kind of a class name is found exactly when one of the six classes bears that name, and it is that class |
| DataClasses.Truthy | src/structdbrest/query.py:272-273 | a value is falsy exactly when it is None, False, 0, "", an empty list or an empty dictionary; entities are truthy |
| DataClasses.IntToString | src/structdbrest/query.py:167 | `str` of an integer is non-empty and starts with '-' exactly for a negative number (its digits are fixed by `IntToStringRoundTrip`) |
| DataClasses.IntToStringRoundTrip | src/structdbrest/query.py:167 | `int(str(i)) == i`: the printed id parses back to itself |
| DataClasses.IntToStringInjective | src/structdbrest/query.py:167 | distinct integers have distinct `str` |
| DataClasses.Display | src/structdbrest/data_classes.py:46-47 | `str` of a scalar: an integer prints as text that parses back to it, a string as itself, a boolean as `True` or `False` |
| Rester.BuiltPropertyValue | src/structdbrest/data_classes.py:33-39 | `VALUE` and `value` of a Property built from a record succeed exactly when the record has a `_VALUE` field and yield that field resolved; otherwise AttributeError |
| DataClasses.Repr | src/structdbrest/data_classes.py:41-110 | a Property always prints, as `<Property #id:TYPE.NAME:COMPOSITION:NAME>` when all four are found; another class raises AttributeError exactly when its id or its COMPOSITION/NAME is missing, and otherwise prints `<Class #id:COMPOSITION>` (StructureEntry, GenericEntry, a None id as -1) or `<Class #id:NAME>` |
| DataClasses.PropertyReprFallback | src/structdbrest/data_classes.py:41-49 | a Property prints its bare class name exactly when TYPE, TYPE.NAME, id, COMPOSITION or NAME is missing |
| DataClasses.NoneIdPrintsAsMinusOne | src/structdbrest/data_classes.py:89-95 | a StructureEntry or GenericEntry with a None id prints like one with id -1 |
| DataClasses.PropertyReprExample | src/structdbrest/data_classes.py:41-47 | a Property with id 7, TYPE None, COMPOSITION "Al-1", NAME "E0" prints "<Property #7::Al-1:E0>" |
| QueryParams.OrEmpty | src/structdbrest/query.py:272-273 | the sent value is never None, is truthy exactly when the filter is, and is either the filter itself or "" |
| QueryParams.OrEmptyIfNone | src/structdbrest/query.py:300-302 | the sent value is never None and is either the argument or ""; every value other than None, 0 and False included, is sent as given |
| QueryParams.ComparatorsParams | src/structdbrest/query.py:271-274 | exactly `param_type` and `param_name`, each the filter or "" when falsy, never None |
| QueryParams.GenericsParams | src/structdbrest/query.py:280-283 | exactly the two prototype parameters, each the filter or "" when falsy, never None |
| QueryParams.PropertiesParams | src/structdbrest/query.py:294-304 | exactly the nine `param_*` names of `query_properties`, no offset |
| QueryParams.PropertiesFilter | src/structdbrest/query.py:295-302 | no filter parameter of `query_properties` is ever sent as None |
| QueryParams.PropertiesFiltersSent | src/structdbrest/query.py:295-301 | the six text filters are sent as given when truthy and as "" otherwise |
| QueryParams.PropertiesIdsSent | src/structdbrest/query.py:300-302 | the property id and the visibility flag are replaced by "" only when None |
| QueryParams.PropertiesLimitSent | src/structdbrest/query.py:303 | the limit is sent as given, even None, and is the only parameter that can be None |
| QueryParams.PropertyTypesParams | src/structdbrest/query.py:310-312 | exactly `param_propertytype_name`, the filter or "" |
| QueryParams.CalculatorTypesParams | src/structdbrest/query.py:318-320 | exactly `param_calculator_type_name`, the filter or "" |
| QueryParams.PropertiesDefaults | src/structdbrest/query.py:288-304 | the default arguments send empty filters, visibility True and limit 100 |
| QueryParams.FalsyIdIsKept | src/structdbrest/query.py:295-302 | a property id 0 and visibility False are sent as given, while a falsy type filter becomes "" |
| NoneRemoval.DelNone | src/structdbrest/query.py:75-86 | the loop over a snapshot of the keys, with recursion into dictionaries, yields the pruned dictionary `Pruned(d)` |
| NoneRemoval.PrunedKeys | src/structdbrest/query.py:81-85 | the surviving keys are exactly those whose value was not None, and non-dictionary values are kept unchanged |
| NoneRemoval.PrunedHasNoNone | src/structdbrest/query.py:75-86 | no None is left at any nesting level |
| NoneRemoval.PrunedFixpoint | src/structdbrest/query.py:75-86 | a dictionary is left unchanged if and only if it holds no None at any level |
| NoneRemoval.PrunedIdempotent | src/structdbrest/query.py:75-86 | a second `del_none` deletes nothing more |
| Rester.IdOf | src/structdbrest/query.py:59-61 | an id value is a cache key exactly when it is hashable (int, str, bool), and the key gives the value back |
| Rester.IdRoundTrip | src/structdbrest/query.py:235-236 | an id sent back in the manifest reads back as the same id |
| Rester.RecordKey | src/structdbrest/query.py:167 | `str(id)`: an integer id gives text that parses back to it, a string id is its own key |
| Rester.IntRecordKeysDiffer | src/structdbrest/query.py:167-168 | distinct integer ids look up distinct records of `cache_dump` |
| Rester.IntAndStringIdShareRecord | src/structdbrest/query.py:59-65 | the ids 1 and "1" are two cache slots but both build from record "1" |
| Rester.TokenKind | src/structdbrest/query.py:150-163 | `make_entry` dispatches a dictionary to a class only when its `__entry_type` is that class's name |
| Rester.TokenId | src/structdbrest/query.py:59 | `get("id")` is None exactly when the id is missing or None, and otherwise the id itself |
| Rester.CacheKey | src/structdbrest/query.py:57-61 | a cache slot exists only for a dictionary whose `__entry_type` is a string and whose id is hashable, and it is named by them |
| Rester.LookupRecord | src/structdbrest/query.py:167-168 | `cache_dump[kind][str(id)]` succeeds exactly when both subscripts exist; KeyError exactly for a missing key of a dictionary, TypeError otherwise |
| Rester.RecordError | src/structdbrest/query.py:167-170 | the constructor raises before setting a field exactly when the record is missing, is not a dictionary, or is a Property record without TYPE_ID; a KeyError comes from a missing key or the missing TYPE_ID |
| Rester.EarlyError | src/structdbrest/query.py:57-70 | only a token can raise before its fields are resolved, and a token with a None id raises the decorator's ValueError |
| Rester.IsReadOnly | src/structdbrest/data_classes.py:33-39 | only `VALUE` and `value` of a Property are read-only; they are neither child maps nor `_VALUE` |
| Rester.WithName | src/structdbrest/query.py:61 | the `defaultdict` access adds the class name, mapped to no entries when it was new, and leaves every existing class's entries as they were |
| Rester.ResolvedUnique | src/structdbrest/query.py:59-66 | against one cache a token resolves to at most one object |
| Rester.ResolvedGrows | src/structdbrest/query.py:61-62 | a resolved token stays resolved to the same object once the cache grows |
| Rester.FieldsGrow | src/structdbrest/query.py:176-183 | attributes already set stay correctly resolved as later fields extend the cache |
| Rester.Store | src/structdbrest/query.py:65 | after the store the slot holds the new object, no class name is added, and storing in a free slot only extends the cache |
| Rester.NotNewUnlessBelow | src/structdbrest/query.py:64-65 | the calls made while building a token never fill that token's own slot |
| Rester.BuildLeavesOwnSlot | src/structdbrest/query.py:63-65 | building the record of a free slot leaves that slot free, and every slot it fills belongs to the record or a record it reaches |
| Rester.ExtendsTrans | src/structdbrest/query.py:61-65 | successive cache growths compose into one |
| Rester.NewWithinTrans | src/structdbrest/query.py:176-183 | slots filled by successive calls, each within a set of records, are together within that set |
| Rester.NonTokensReachNothing | src/structdbrest/query.py:259-262 | items none of which is a token lead to no record |
| Rester.TokenReachBelow | src/structdbrest/query.py:149-185 | every record a token leads to is ranked below the bound, so the records `make_entry` may fill are all lower than the one being built |
| Rester.NewBuiltTrans | src/structdbrest/query.py:64-66 | successive calls that each store only objects built from their records together store only such objects |
| Rester.NewBuiltStore | src/structdbrest/query.py:64-65 | storing the object built from a key's record under that free key keeps every new object built from its record |
| Rester.IdValuesListIds | src/structdbrest/query.py:236 | a list naming each cached id once is sent as each id value once and nothing else |
| Rester.ManifestValueLists | src/structdbrest/query.py:234-237 | the `cache_state` value has one entry per class name, listing each of its cached ids once |
| Rester.EarlyErrorNotResolvable | src/structdbrest/query.py:57-70 | a token that raises before its fields are resolved is not resolvable, so the success condition never covers it |
| Rester.Failure | src/structdbrest/query.py:253-268 | the `except KeyError` gives None exactly for a KeyError; every other error escapes as itself |
| Rester.NoneIdRaises | src/structdbrest/query.py:59-70 | a `data_dump` holding a Property token with a None id makes the query raise ValueError, not return None |
| Rester.MissingTypeIdGivesNone | src/structdbrest/query.py:170 | an uncached Property token whose record has no TYPE_ID makes the query return None, and never entries |
| Rester.LaterItemNotCached | src/structdbrest/query.py:253-268 | a Property token without a record ahead of a StructureEntry token with an accepted record gives None, and the StructureEntry object is never cached: the loop stops at the first failing item |
| Rester.EntriesAccepted | src/structdbrest/query.py:166-170 | a query returns entries only if every list item that was not cached before it had a record its constructor accepts: present, a dictionary, and for a Property one holding TYPE_ID |
| Rester.TrimTrailingSlash | src/structdbrest/query.py:131-132 | exactly one trailing slash is dropped, and the rest is a prefix of the URL |
| Rester.TrimUndoesSlash | src/structdbrest/query.py:131-132 | "host/" and "host" name the same server |
| Rester.SetToSeq | src/structdbrest/query.py:236 | `list(keys)` lists each key once and nothing else, in an order the contract leaves arbitrary |
| Rester.EntriesCache.constructor | src/structdbrest/query.py:134 | a new cache is empty |
| Rester.Client.constructor | src/structdbrest/query.py:129-147 | the URL loses one trailing slash; a missing or empty cache is replaced by a fresh empty one, a non-empty one is shared |
| Rester.Client.MakeEntry | src/structdbrest/query.py:149-164 | non-tokens come back unchanged; a token without id raises ValueError, with an unhashable id TypeError; a cached token returns the cached object; an uncached token whose record is rejected raises the constructor's error; a resolvable token always succeeds; any success resolves the token, and a failure leaves its slot empty; a miss returns a fresh object, and every object stored is built from a record its constructor accepts; the cache only grows; every slot it fills belongs to the token's record or a record it leads to (`TokenReach`), so a non-token fills none |
| Rester.Client.GetOrCreate | src/structdbrest/query.py:50-70 | ValueError without a token or id and the cache unchanged; TypeError for an unhashable id after the `defaultdict` access; a hit returns the cached object; a miss builds a fresh object of the class from its record, stores it and returns it; a resolvable token always succeeds; a failed miss leaves the slot empty; a miss whose record is rejected raises the constructor's error; for a token of its own class, every slot filled belongs to a record the token leads to |
| Rester.Client.LookupOrCreate | src/structdbrest/query.py:61-66 | a cached slot returns its object and changes nothing; a free slot is filled by a fresh object built from its record; an accepted record always succeeds; a free slot whose record is rejected raises the constructor's error; every slot filled, the `defaultdict` access included, belongs to the slot's record or a record it leads to |
| Rester.Client.Create | src/structdbrest/query.py:63-66 | on a miss the built object is stored under its class and id afterwards, without overwriting any entry; an accepted record always succeeds, and a failure leaves the slot empty; a rejected record raises its error; every slot filled belongs to the slot's record or a record its fields lead to |
| Rester.Client.Build | src/structdbrest/query.py:166-231 | a missing record raises its lookup error; a non-dictionary record TypeError (Property) or AttributeError; a Property record without TYPE_ID KeyError; success yields a fresh object whose attributes are exactly the record's fields, resolved; an accepted record always succeeds; a rejected record raises exactly `RecordError`; every slot filled belongs to a record the record's fields lead to |
| Rester.Client.SetAttributes | src/structdbrest/query.py:176-183 | when no field raises, every record field becomes one attribute: the resolved value, or for CHILDREN/STRUCTURES a dictionary of resolved children; when every field is settable and resolvable, no field raises; every slot filled belongs to a record one of the fields leads to |
| Rester.Client.ResolveField | src/structdbrest/query.py:176-183 | one `setattr`: a CHILDREN/STRUCTURES value that is not a dictionary raises AttributeError; a read-only property never succeeds, and once its value resolves it raises AttributeError; any other resolvable field yields its resolved value; every slot filled belongs to a record the field's value leads to |
| Rester.Client.ResolveValues | src/structdbrest/query.py:180-183 | the child dictionary keeps its keys and resolves each value; it succeeds whenever every child is resolvable; every slot filled belongs to a record one of the children leads to |
| Rester.Client.CacheState | src/structdbrest/query.py:234-236 | one list per class name of the cache, each cached id exactly once |
| Rester.Client.Payload | src/structdbrest/query.py:234-238 | the posted body is the query's parameters plus the cache manifest and the token |
| Rester.Client.MakeEntries | src/structdbrest/query.py:258-262 | one resolved item per `data_dump` item, in order; on a failure the items before it stay resolved, the failing item is a token that is not resolvable and whose slot is empty, and an error its own token or record raises is the error returned; every object stored is built from its record; every slot filled belongs to a record the items made, or the failing item, lead to; items after the failing one fill nothing |
| Rester.Client.QueryDbEntry | src/structdbrest/query.py:233-268 | posts to url+endpoint the parameters with manifest and token; a response without `data_dump`/`cache_dump` gives None; a non-iterable data gives TypeError; otherwise one resolved entry per item in order, always for string or dictionary data and whenever every list item is resolvable; on a failure the first unresolved item's own error is None if a KeyError and raised otherwise, and the items before it stay cached; every object stored is built from a record its constructor accepts; the cache only grows; string or dictionary data fills no slot, and list data fills only slots of records the items up to and including the failing one lead to |
| Rester.Client.QueryComparators | src/structdbrest/query.py:270-277 | posts the comparator parameters to the comparison-types endpoint, with the outcome of `_query_db_entry_` |
| Rester.Client.QueryGenerics | src/structdbrest/query.py:279-286 | posts the generic parameters to the generics endpoint, with the outcome of `_query_db_entry_` |
| Rester.Client.QueryProperties | src/structdbrest/query.py:288-307 | posts the nine property parameters to the properties endpoint, with the outcome of `_query_db_entry_` |
| Rester.Client.QueryPropertyTypes | src/structdbrest/query.py:309-315 | posts the property-type parameter to the property-types endpoint, with the outcome of `_query_db_entry_` |
| Rester.Client.QueryCalculatorTypes | src/structdbrest/query.py:317-323 | posts the calculator-type parameter to the calculator-types endpoint, with the outcome of `_query_db_entry_` |

## Left out

- The HTTP transport (`requests.post`, `verify=False`), the status-code check and the timing (query.py:240-252): the decoded response is a parameter. A non-200 status raising ValueError is not modelled.
- JSON encoding and decoding: values are the `Value` datatype. Floats are not modelled, so float ids and float fields are outside the model.
- The `verbose` printing and the "Empty or invalid response" message; only the returned None is modelled.
- `StructureEntry.get_atoms`: it builds an ASE `Atoms` object with numpy, a foreign library.
- The decorator's copy of a plain, non-`defaultdict` cache (query.py:45-48). Each of the six decorators copies the top level of a supplied plain dictionary: the per-class dictionaries it already holds are shared, so new ids of those classes still reach `self.entries_cache` and the manifest, but a class name it lacks gets a dictionary only that decorator sees, whose ids never reach the manifest. The model treats every supplied cache as the one shared `EntriesCache`.
- The decorator's AttributeError when called without `entry_json` (query.py:51-56): every caller passes it.
- Rester.IdOf: `True` and `1` (and `False` and `0`) are the same key in a Python dictionary; the model keeps `IdBool` and `IdInt` apart.
- Rester.Client.GetOrCreate: requires a string `__entry_type`. Its only caller, `make_entry`, dispatches strings only, because other values never equal a class name.
- Rester.Client.MakeEntry: requires a ghost rank on every dictionary record of `cache_dump`, each ranked above the records its tokens lead to. A cycle reached through slots that are not yet cached makes Python recurse until its recursion limit, and the rank rules that out. It also excludes inputs Python handles: a cycle among records no `data_dump` item reaches, and a cycle cut by a cache hit (a record that refers to a token whose slot is already cached returns at query.py:61-62).
- Rester.Client.QueryDbEntry: its success condition `Rester.Resolvable` asks for an item's record even when the item's slot is already cached. `MakeEntry` still returns the cached object on a hit (query.py:61-62), but the query-level promise that resolvable items give entries does not cover a list whose item is cached while its record would be rejected. When the failing item raises only while one of its fields is resolved, the outcome is stated only as None or an escaping error other than KeyError.
- Rester.Client.QueryDbEntry: requires the same rank for the response's `cache_dump` and `data_dump`, and does not model a RecursionError.
- Rester.Client.QueryDbEntry: for string or dictionary data it states that no slot is filled, not that the cache dictionary stays identical: a class name added with no ids is not excluded at the query level, although `MakeEntry` states an unchanged cache for every non-token.
- Rester.Client.SetAttributes: collects the resolved attributes and sets them together after the loop, where `make_*` sets each as it goes. The half-built object is reachable from nowhere until it is returned, so the difference cannot be observed; on a failure the model leaves the discarded object without attributes.
- Rester.Client.MakeEntries: the error returned is pinned only when the failing item's own token or record is rejected (`EarlyError`). An error raised deeper, while a field's token is resolved, is stated only as some error; which field fails first depends on dictionary order.
- Dictionary iteration order: fields, child maps and cache classes are visited in an arbitrary order, and every contract holds for every order. Which error wins when two fields would fail is not pinned down.
- DataClasses.Repr: requires the printed attributes (and the type name) to be scalars; the `str` of an entity, list or dictionary attribute is not modelled.
- `setattr` of names Python treats specially (dunder attributes, class attributes) is not modelled; the `VALUE`/`value` read-only properties are.
- The `len(pair) != 2` break (query.py:99-100) cannot be taken, since `findall` with two groups always yields pairs.
- The token is modelled as a string, and the response content as already decoded UTF-8.
- NoneRemoval.DelNone: returns the pruned dictionary as a value; the in-place mutation of the caller's dictionary, and of nested dictionaries shared elsewhere, is not modelled.
- The empty dictionary `CHILDREN`/`STRUCTURES` briefly hold before they are filled is not observable and is not modelled.
