/** `StructDBLightRester` of src/structdbrest/query.py without its HTTP
    transport: the entity cache (`db_entry_cache_decorator`), the
    materialiser that turns the tokens of a response into entity objects
    (`make_entry` and the six `make_*` constructors), the request payload
    and the handling of a decoded response (`_query_db_entry_`), and the
    `query_*` entry points. The decoded response is an input; the request
    the client would post is an output. */
module Rester {
  import opened DataClasses
  import opened QueryParams

  /** The key under which the server names the class of a token. */
  const EntryTypeKey: string := "__entry_type"

  const ApiVersion: string := "/api/v1.0/"
  const ComparatorUrl: string := ApiVersion + "comparisontypes"
  const PropertiesUrl: string := ApiVersion + "properties"
  const GenericUrl: string := ApiVersion + "generics"
  const PropertyTypeUrl: string := ApiVersion + "propertytypes"
  const CalculatorTypeUrl: string := ApiVersion + "calculatortypes"

  // ---------------------------------------------------------------------
  // Ids and tokens

  /** A hashable id value, the inner key of the entity cache. */
  datatype Id = IdInt(i: int) | IdStr(s: string) | IdBool(b: bool)

  /** The id as the value it was read from; `list(keys)` sends it back as it is. */
  function IdValue(id: Id): Value {
    match id
    case IdInt(i) => Int(i)
    case IdStr(s) => Str(s)
    case IdBool(b) => Bool(b)
  }

  /** The cache key of an id value: none for None, and none for a list or
      a dictionary, which Python cannot hash. */
  function IdOf(v: Value): (r: Option<Id>)
    ensures r.Some? <==> v.Int? || v.Str? || v.Bool?
    ensures r.Some? ==> IdValue(r.value) == v
  {
    match v
    case Int(i) => Some(IdInt(i))
    case Str(s) => Some(IdStr(s))
    case Bool(b) => Some(IdBool(b))
    case _ => None
  }

  /** Reading an id back from the value it was read from gives the same id. */
  lemma IdRoundTrip(id: Id)
    ensures IdOf(IdValue(id)) == Some(id)
  {
  }

  /** `str(id)`: the key of the id's record in the response's `cache_dump`. */
  function RecordKey(id: Id): (r: string)
    ensures id.IdInt? ==> IntText(r) && ParseInt(r) == id.i
    ensures id.IdStr? ==> r == id.s
  {
    Display(IdValue(id))
  }

  /** Distinct integer ids name distinct records. */
  lemma IntRecordKeysDiffer(a: int, b: int)
    requires a != b
    ensures RecordKey(IdInt(a)) != RecordKey(IdInt(b))
  {
    if RecordKey(IdInt(a)) == RecordKey(IdInt(b)) {
      IntToStringInjective(a, b);
    }
  }

  /** The integer id 1 and the string id "1" occupy two cache slots but
      are built from the same record, `cache_dump[kind]["1"]`. */
  lemma IntAndStringIdShareRecord()
    ensures IdInt(1) != IdStr("1") && RecordKey(IdInt(1)) == RecordKey(IdStr("1")) == "1"
  {
    assert NatToString(1) == "1";
  }

  /** The class name a dictionary carries under `__entry_type`, when it is a string. */
  function TokenType(v: Value): Option<string> {
    if v.Dict? && EntryTypeKey in v.entries && v.entries[EntryTypeKey].Str?
    then Some(v.entries[EntryTypeKey].s) else None
  }

  /** The class `make_entry` dispatches a value to: one of the six known
      class names under `__entry_type`, or none. */
  function TokenKind(v: Value): (k: Option<Kind>)
    ensures k.Some? ==> TokenType(v) == Some(k.value.Name())
  {
    if TokenType(v).Some? then KindNamed(TokenType(v).value) else None
  }

  /** `entry_json.get("id")`. */
  function TokenId(v: Value): (r: Value)
    requires v.Dict?
    ensures r == Null <==> "id" !in v.entries || v.entries["id"] == Null
    ensures r != Null ==> r == v.entries["id"]
  {
    if "id" in v.entries then v.entries["id"] else Null
  }

  /** The cache slot of a token: its class name and its hashable id. */
  datatype Key = Key(name: string, id: Id)

  function CacheKey(v: Value): (k: Option<Key>)
    ensures k.Some? ==> v.Dict? && TokenType(v) == Some(k.value.name) && IdOf(TokenId(v)) == Some(k.value.id)
  {
    if TokenType(v).Some? && IdOf(TokenId(v)).Some? then Some(Key(TokenType(v).value, IdOf(TokenId(v)).value)) else None
  }

  // ---------------------------------------------------------------------
  // Records of the cache dump

  /** A record of the response's `cache_dump`: its class and its `str(id)`. */
  datatype Ref = Ref(kind: Kind, key: string)

  /** `cache_dump[kind][key]`, when both subscripts succeed. */
  function RecordOf(dump: Value, r: Ref): Option<Value> {
    if dump.Dict? && r.kind.Name() in dump.entries && dump.entries[r.kind.Name()].Dict?
       && r.key in dump.entries[r.kind.Name()].entries
    then Some(dump.entries[r.kind.Name()].entries[r.key]) else None
  }

  /** `cache_dump[kind][key]` with Python's errors: subscripting anything but
      a dictionary with a string raises TypeError, a missing key KeyError. */
  function LookupRecord(dump: Value, r: Ref): (res: Result<Value>)
    ensures res.Ok? <==> RecordOf(dump, r).Some?
    ensures res.Ok? ==> res.value == RecordOf(dump, r).value
    ensures res.Err? ==> (res.error == KeyError || res.error == TypeError)
    ensures res == Err(KeyError) <==>
      dump.Dict? && (r.kind.Name() !in dump.entries ||
                     (dump.entries[r.kind.Name()].Dict? && r.key !in dump.entries[r.kind.Name()].entries))
  {
    if !dump.Dict? then Err(TypeError)
    else if r.kind.Name() !in dump.entries then Err(KeyError)
    else if !dump.entries[r.kind.Name()].Dict? then Err(TypeError)
    else if r.key !in dump.entries[r.kind.Name()].entries then Err(KeyError)
    else Ok(dump.entries[r.kind.Name()].entries[r.key])
  }

  lemma RecordIsJson(dump: Value, r: Ref)
    requires IsJson(dump) && RecordOf(dump, r).Some?
    ensures IsJson(RecordOf(dump, r).value)
  {
    assert IsJson(dump.entries[r.kind.Name()]);
  }

  /** The error a `make_*` constructor raises before it sets any field:
      the lookup's error, TypeError (Property) or AttributeError for a
      record that is not a dictionary, and KeyError for a Property record
      without TYPE_ID. */
  function RecordError(r: Ref, dump: Value): (e: Option<Error>)
    ensures e.None? <==> RecordOf(dump, r).Some? && RecordOf(dump, r).value.Dict?
                         && (r.kind == Property ==> "TYPE_ID" in RecordOf(dump, r).value.entries)
    ensures e == Some(KeyError) ==> r.kind == Property || LookupRecord(dump, r) == Err(KeyError)
  {
    var look := LookupRecord(dump, r);
    if look.Err? then Some(look.error)
    else if !look.value.Dict? then Some(if r.kind == Property then TypeError else AttributeError)
    else if r.kind == Property && "TYPE_ID" !in look.value.entries then Some(KeyError)
    else None
  }

  /** The error `make_entry` of an uncached token raises before any of its
      fields is resolved: ValueError from the decorator for a None id,
      TypeError for an id Python cannot hash, then the constructor's
      `RecordError`. None when v is not a token or its record is accepted. */
  function EarlyError(v: Value, dump: Value): (e: Option<Error>)
    ensures e.Some? ==> TokenKind(v).Some?
    ensures TokenKind(v).Some? && TokenId(v) == Null ==> e == Some(ValueError)
  {
    match TokenKind(v)
    case None => None
    case Some(kind) =>
      if TokenId(v) == Null then Some(ValueError)
      else if CacheKey(v).None? then Some(TypeError)
      else RecordError(Ref(kind, RecordKey(CacheKey(v).value.id)), dump)
  }

  /** The fields of a Property whose values are dictionaries of tokens,
      rebuilt key by key rather than resolved as a whole. */
  predicate IsChildMap(kind: Kind, f: string) {
    kind == Property && (f == "CHILDREN" || f == "STRUCTURES")
  }

  /** The read-only properties of `Property`: `setattr` of these raises
      AttributeError. */
  predicate IsReadOnly(kind: Kind, f: string)
    ensures IsReadOnly(kind, f) ==> kind == Property && !IsChildMap(kind, f) && f != "_VALUE"
  {
    kind == Property && (f == "VALUE" || f == "value")
  }

  // ---------------------------------------------------------------------
  // Acyclicity: the records a token leads to have strictly smaller ranks.
  // The cache stores an entity only after it is built, so a cyclic
  // reference graph makes the Python code recurse without end; the model
  // asks for a rank on the records instead.

  ghost predicate RecordBelow(kind: Kind, v: Value, rank: map<Ref, nat>, b: nat)
    requires v.Dict?
  {
    var id := IdOf(TokenId(v));
    id.Some? && Ref(kind, RecordKey(id.value)) in rank ==> rank[Ref(kind, RecordKey(id.value))] < b
  }

  ghost predicate Below(v: Value, rank: map<Ref, nat>, b: nat) {
    TokenKind(v).Some? ==> RecordBelow(TokenKind(v).value, v, rank, b)
  }

  ghost predicate FieldBelow(kind: Kind, f: string, v: Value, rank: map<Ref, nat>, b: nat) {
    if IsChildMap(kind, f) then (v.Dict? ==> forall c | c in v.entries :: Below(v.entries[c], rank, b))
    else Below(v, rank, b)
  }

  /** Every dictionary record has a rank above the tokens among its fields. */
  ghost predicate Ranked(dump: Value, rank: map<Ref, nat>) {
    forall r: Ref :: RankedAt(dump, rank, r)
  }

  /** The record r, if it is a dictionary, is ranked above the tokens among
      its fields. */
  ghost predicate RankedAt(dump: Value, rank: map<Ref, nat>, r: Ref) {
    RecordOf(dump, r).Some? && RecordOf(dump, r).value.Dict? ==>
      r in rank &&
      forall f | f in RecordOf(dump, r).value.entries ::
        FieldBelow(r.kind, f, RecordOf(dump, r).value.entries[f], rank, rank[r])
  }

  // ---------------------------------------------------------------------
  // When the materialiser succeeds, whatever the cache holds

  /** `make_entry` of v raises nothing: v is not a token, or it is a token
      with a hashable id whose record is accepted. A cached token succeeds
      even when its record would not; this condition asks for the record
      regardless. */
  ghost predicate Resolvable(v: Value, dump: Value, rank: map<Ref, nat>, b: nat)
    decreases b, 1
  {
    TokenKind(v).None? ||
    (IdOf(TokenId(v)).Some? &&
     RecordResolvable(Ref(TokenKind(v).value, RecordKey(IdOf(TokenId(v)).value)), dump, rank, b))
  }

  /** The `make_*` constructor of r.kind accepts the record: it exists and
      is a dictionary, a Property record has a TYPE_ID, and every field can
      be set. */
  ghost predicate RecordResolvable(r: Ref, dump: Value, rank: map<Ref, nat>, b: nat)
    decreases b, 0
  {
    && r in rank && rank[r] < b
    && RecordOf(dump, r).Some? && RecordOf(dump, r).value.Dict?
    && (r.kind == Property ==> "TYPE_ID" in RecordOf(dump, r).value.entries)
    && FieldsResolvable(r.kind, RecordOf(dump, r).value.entries, dump, rank, rank[r])
  }

  /** Every field of a record can be set: it is not a read-only property
      and its value resolves. */
  ghost predicate FieldsResolvable(kind: Kind, rec: map<string, Value>, dump: Value, rank: map<Ref, nat>, b: nat)
    decreases b, 3
  {
    forall f | f in rec :: !IsReadOnly(kind, f) && FieldResolvable(kind, f, rec[f], dump, rank, b)
  }

  /** A child map must be a dictionary whose values all resolve; any other
      field value must resolve. */
  ghost predicate FieldResolvable(kind: Kind, f: string, v: Value, dump: Value, rank: map<Ref, nat>, b: nat)
    decreases b, 2
  {
    if IsChildMap(kind, f) then v.Dict? && forall ch | ch in v.entries :: Resolvable(v.entries[ch], dump, rank, b)
    else Resolvable(v, dump, rank, b)
  }

  /** A token that raises before its fields are resolved is not resolvable. */
  lemma EarlyErrorNotResolvable(v: Value, dump: Value, rank: map<Ref, nat>, b: nat)
    requires EarlyError(v, dump).Some?
    ensures !Resolvable(v, dump, rank, b)
  {
    var kind := TokenKind(v).value;
    if IdOf(TokenId(v)).Some? {
      assert CacheKey(v).Some?;
      var r := Ref(kind, RecordKey(IdOf(TokenId(v)).value));
      assert RecordError(r, dump).Some?;
    }
  }

  // ---------------------------------------------------------------------
  // The cache and what the materialiser promises about it

  /** class name -> id -> entity. */
  type Cache = map<string, map<Id, Entity>>

  predicate Cached(c: Cache, k: Key) {
    k.name in c && k.id in c[k.name]
  }

  /** The cache only grows: no entry is removed or replaced. */
  predicate Extends(c0: Cache, c1: Cache) {
    forall t | t in c0 :: t in c1 && forall i | i in c0[t] :: i in c1[t] && c1[t][i] == c0[t][i]
  }

  /** Every entry added between c0 and c1 is named after one of the six
      classes and belongs to a record ranked below b. */
  ghost predicate NewBelow(c0: Cache, c1: Cache, rank: map<Ref, nat>, b: nat) {
    forall t, i {:trigger EntryBelow(t, i, rank, b)} | t in c1 && i in c1[t] && !(t in c0 && i in c0[t]) :: EntryBelow(t, i, rank, b)
  }

  /** The slot (t, i) belongs to a record of class t ranked below b. */
  ghost predicate EntryBelow(t: string, i: Id, rank: map<Ref, nat>, b: nat) {
    KindNamed(t).Some? && Ref(KindNamed(t).value, RecordKey(i)) in rank
    && rank[Ref(KindNamed(t).value, RecordKey(i))] < b
  }

  /** `defaultdict` access: the class name gets an empty map if it had none. */
  function WithName(c: Cache, t: string): (r: Cache)
    ensures Extends(c, r) && t in r && r.Keys == c.Keys + {t}
    ensures t !in c ==> r[t] == map[]
    ensures forall t' | t' in c :: r[t'] == c[t']
  {
    if t in c then c else c[t := map[]]
  }

  /** What `make_entry` turns v into against cache c: a token of a known
      class becomes the object cached under its class and id; anything else
      is passed through. */
  predicate Resolved(v: Value, out: Value, c: Cache) {
    match TokenKind(v)
    case None => out == v
    case Some(_) => CacheKey(v).Some? && Cached(c, CacheKey(v).value) && out == Obj(c[CacheKey(v).value.name][CacheKey(v).value.id])
  }

  /** v resolves against c to some object: it is not a token, or its
      slot is cached. */
  predicate Resolves(v: Value, c: Cache) {
    TokenKind(v).Some? ==> CacheKey(v).Some? && Cached(c, CacheKey(v).value)
  }

  /** The value an entity attribute gets from record field f: a child map
      is rebuilt with the same keys and resolved values. */
  predicate ResolvedField(kind: Kind, f: string, v: Value, out: Value, c: Cache) {
    if IsChildMap(kind, f) then
      v.Dict? && out.Dict? && out.entries.Keys == v.entries.Keys &&
      forall ch | ch in v.entries :: Resolved(v.entries[ch], out.entries[ch], c)
    else Resolved(v, out, c)
  }

  /** The entity has exactly one attribute per record field, each the
      resolved field value. */
  predicate Built(e: Entity, rec: map<string, Value>, c: Cache)
    reads e
  {
    e.attrs.Keys == rec.Keys &&
    forall f | f in rec :: ResolvedField(e.kind, f, rec[f], e.attrs[f], c)
  }

  /** A token resolves to at most one object against a given cache: the
      cache holds one object per class name and id. */
  lemma ResolvedUnique(v: Value, o1: Value, o2: Value, c: Cache)
    requires Resolved(v, o1, c) && Resolved(v, o2, c)
    ensures o1 == o2
  {
  }

  lemma ResolvedGrows(v: Value, out: Value, c0: Cache, c1: Cache)
    requires Resolved(v, out, c0) && Extends(c0, c1)
    ensures Resolved(v, out, c1)
  {
  }

  lemma ResolvedFieldGrows(kind: Kind, f: string, v: Value, out: Value, c0: Cache, c1: Cache)
    requires ResolvedField(kind, f, v, out, c0) && Extends(c0, c1)
    ensures ResolvedField(kind, f, v, out, c1)
  {
    if IsChildMap(kind, f) {
      forall ch | ch in v.entries
        ensures Resolved(v.entries[ch], out.entries[ch], c1)
      {
        ResolvedGrows(v.entries[ch], out.entries[ch], c0, c1);
      }
    } else {
      ResolvedGrows(v, out, c0, c1);
    }
  }

  /** Attributes resolved against a cache stay resolved once it grows. */
  lemma FieldsGrow(kind: Kind, rec: map<string, Value>, attrs: map<string, Value>, c0: Cache, c1: Cache)
    requires Extends(c0, c1)
    requires forall f | f in attrs :: f in rec && ResolvedField(kind, f, rec[f], attrs[f], c0)
    ensures forall f | f in attrs :: ResolvedField(kind, f, rec[f], attrs[f], c1)
  {
    forall f | f in attrs
      ensures ResolvedField(kind, f, rec[f], attrs[f], c1)
    {
      ResolvedFieldGrows(kind, f, rec[f], attrs[f], c0, c1);
    }
  }

  lemma ResolvedValuesGrow(m: map<string, Value>, out: map<string, Value>, c0: Cache, c1: Cache)
    requires Extends(c0, c1) && out.Keys <= m.Keys
    requires forall c | c in out :: Resolved(m[c], out[c], c0)
    ensures forall c | c in out :: Resolved(m[c], out[c], c1)
  {
    forall c | c in out
      ensures Resolved(m[c], out[c], c1)
    {
      ResolvedGrows(m[c], out[c], c0, c1);
    }
  }

  lemma ResolvedItemsGrow(src: seq<Value>, items: seq<Value>, c0: Cache, c1: Cache)
    requires Extends(c0, c1) && |items| <= |src|
    requires forall j | 0 <= j < |items| :: Resolved(src[j], items[j], c0)
    ensures forall j | 0 <= j < |items| :: Resolved(src[j], items[j], c1)
  {
    forall j | 0 <= j < |items|
      ensures Resolved(src[j], items[j], c1)
    {
      ResolvedGrows(src[j], items[j], c0, c1);
    }
  }

  /** `entries_cache[name][id] = obj`. */
  function Store(c: Cache, k: Key, e: Entity): (r: Cache)
    requires k.name in c
    ensures r.Keys == c.Keys && Cached(r, k) && r[k.name][k.id] == e
    ensures !Cached(c, k) ==> Extends(c, r)
  {
    c[k.name := c[k.name][k.id := e]]
  }

  /** Storing under a key that was empty at the start extends the cache. */
  lemma StoreExtends(c0: Cache, c1: Cache, k: Key, e: Entity)
    requires Extends(c0, c1) && k.name in c1 && !Cached(c0, k)
    ensures Extends(c0, Store(c1, k, e))
  {
  }

  lemma ExtendsTrans(c0: Cache, c1: Cache, c2: Cache)
    requires Extends(c0, c1) && Extends(c1, c2)
    ensures Extends(c0, c2)
  {
  }

  /** A token whose slot the calls between c0 and c1 filled belongs to a
      record ranked below b: a call never fills the slot of the token it
      is building. */
  lemma NotNewUnlessBelow(c0: Cache, c1: Cache, rank: map<Ref, nat>, b: nat, kind: Kind, id: Id)
    requires NewBelow(c0, c1, rank, b) && !Cached(c0, Key(kind.Name(), id))
    requires Ref(kind, RecordKey(id)) in rank ==> rank[Ref(kind, RecordKey(id))] >= b
    ensures !Cached(c1, Key(kind.Name(), id))
  {
    assert KindNamed(kind.Name()) == Some(kind);
    assert Cached(c1, Key(kind.Name(), id)) ==> EntryBelow(kind.Name(), id, rank, b);
  }

  // ---------------------------------------------------------------------
  // Every object a query stores is built from its record

  /** The entities stored between c0 and c1. */
  ghost function NewEntities(c0: Cache, c1: Cache): set<Entity> {
    set t, i | t in c1 && i in c1[t] && !(t in c0 && i in c0[t]) :: c1[t][i]
  }

  /** A dictionary record the `make_*` constructor of kind accepts: a
      Property record has a TYPE_ID, and no field is a read-only property. */
  predicate AcceptedRecord(kind: Kind, rec: map<string, Value>) {
    && (kind == Property ==> "TYPE_ID" in rec)
    && forall f | f in rec :: !IsReadOnly(kind, f)
  }

  /** The entity cached at (t, i) is of class t and was built from the
      record `cache_dump[t][str(i)]`, which its constructor accepts, its
      fields resolved against c. */
  ghost predicate BuiltEntry(t: string, i: Id, c: Cache, dump: Value)
    requires t in c && i in c[t]
    reads c[t][i]
  {
    && KindNamed(t).Some? && c[t][i].kind == KindNamed(t).value
    && RecordOf(dump, Ref(KindNamed(t).value, RecordKey(i))).Some?
    && RecordOf(dump, Ref(KindNamed(t).value, RecordKey(i))).value.Dict?
    && AcceptedRecord(KindNamed(t).value, RecordOf(dump, Ref(KindNamed(t).value, RecordKey(i))).value.entries)
    && Built(c[t][i], RecordOf(dump, Ref(KindNamed(t).value, RecordKey(i))).value.entries, c)
  }

  /** Every entity stored between c0 and c1 was built from its record. */
  ghost predicate NewBuilt(c0: Cache, c1: Cache, dump: Value)
    reads NewEntities(c0, c1)
  {
    forall t, i {:trigger BuiltEntry(t, i, c1, dump)} | t in c1 && i in c1[t] && !(t in c0 && i in c0[t]) :: BuiltEntry(t, i, c1, dump)
  }

  /** The entities stored by successive calls are those each call stored. */
  lemma NewEntitiesTrans(c0: Cache, c1: Cache, c2: Cache)
    requires Extends(c0, c1) && Extends(c1, c2)
    ensures NewEntities(c0, c2) <= NewEntities(c0, c1) + NewEntities(c1, c2)
  {
    forall x | x in NewEntities(c0, c2)
      ensures x in NewEntities(c0, c1) + NewEntities(c1, c2)
    {
      var t, i :| t in c2 && i in c2[t] && !(t in c0 && i in c0[t]) && x == c2[t][i];
      if t in c1 && i in c1[t] {
        assert x == c1[t][i];
      }
    }
  }

  /** Storing e adds e and nothing else to the stored entities. */
  lemma StoreNewEntities(c0: Cache, c1: Cache, k: Key, e: Entity)
    requires k.name in c1
    ensures NewEntities(c0, Store(c1, k, e)) <= NewEntities(c0, c1) + {e}
  {
    var c2 := Store(c1, k, e);
    forall x | x in NewEntities(c0, c2)
      ensures x in NewEntities(c0, c1) + {e}
    {
      var t, i :| t in c2 && i in c2[t] && !(t in c0 && i in c0[t]) && x == c2[t][i];
      if !(t == k.name && i == k.id) {
        assert t in c1 && i in c1[t] && x == c1[t][i];
      }
    }
  }

  /** An object built against a cache stays built once the cache grows. */
  lemma BuiltGrows(e: Entity, rec: map<string, Value>, c0: Cache, c1: Cache)
    requires Built(e, rec, c0) && Extends(c0, c1)
    ensures Built(e, rec, c1)
  {
    FieldsGrow(e.kind, rec, e.attrs, c0, c1);
  }

  /** `VALUE` and `value` of a Property built from a record: present exactly
      when the record has a `_VALUE` field, and then that field resolved. */
  lemma BuiltPropertyValue(e: Entity, rec: map<string, Value>, c: Cache)
    requires e.kind == Property && Built(e, rec, c)
    ensures PropertyValue(e).Ok? <==> "_VALUE" in rec
    ensures PropertyValue(e).Ok? ==> Resolved(rec["_VALUE"], PropertyValue(e).value, c)
    ensures PropertyValue(e).Err? ==> PropertyValue(e).error == AttributeError
  {
  }

  /** Successive calls that each store only built objects together store
      only built objects. */
  lemma NewBuiltTrans(c0: Cache, c1: Cache, c2: Cache, dump: Value)
    requires Extends(c0, c1) && Extends(c1, c2)
    requires NewBuilt(c0, c1, dump) && NewBuilt(c1, c2, dump)
    ensures NewBuilt(c0, c2, dump)
  {
    forall t, i | t in c2 && i in c2[t] && !(t in c0 && i in c0[t])
      ensures BuiltEntry(t, i, c2, dump)
    {
      if t in c1 && i in c1[t] {
        assert BuiltEntry(t, i, c1, dump);
        var rec := RecordOf(dump, Ref(KindNamed(t).value, RecordKey(i))).value.entries;
        BuiltGrows(c1[t][i], rec, c1, c2);
      }
    }
  }

  /** Storing the object built from a key's record under that free key
      keeps every new object built. */
  lemma NewBuiltStore(c0: Cache, c1: Cache, k: Key, e: Entity, dump: Value)
    requires NewBuilt(c0, c1, dump) && k.name in c1 && !Cached(c1, k)
    requires KindNamed(k.name) == Some(e.kind)
    requires RecordOf(dump, Ref(e.kind, RecordKey(k.id))).Some?
    requires RecordOf(dump, Ref(e.kind, RecordKey(k.id))).value.Dict?
    requires AcceptedRecord(e.kind, RecordOf(dump, Ref(e.kind, RecordKey(k.id))).value.entries)
    requires Built(e, RecordOf(dump, Ref(e.kind, RecordKey(k.id))).value.entries, c1)
    ensures NewBuilt(c0, Store(c1, k, e), dump)
  {
    var c2 := Store(c1, k, e);
    assert Extends(c1, c2);
    forall t, i | t in c2 && i in c2[t] && !(t in c0 && i in c0[t])
      ensures BuiltEntry(t, i, c2, dump)
    {
      if t == k.name && i == k.id {
        BuiltGrows(e, RecordOf(dump, Ref(e.kind, RecordKey(k.id))).value.entries, c1, c2);
      } else {
        assert BuiltEntry(t, i, c1, dump);
        var rec := RecordOf(dump, Ref(KindNamed(t).value, RecordKey(i))).value.entries;
        BuiltGrows(c1[t][i], rec, c1, c2);
      }
    }
  }

  /** The `defaultdict` access stores no object. */
  lemma WithNameStoresNothing(c: Cache, t: string, dump: Value)
    ensures NewEntities(c, WithName(c, t)) == {}
    ensures NewBuilt(c, WithName(c, t), dump)
  {
  }

  // ---------------------------------------------------------------------
  // Which slots a call may fill: the records its tokens lead to

  /** The records `make_entry` of v can reach: the record of the token
      itself and, through its fields and child maps, the records their
      tokens lead to, each ranked below the one before. */
  ghost function TokenReach(v: Value, dump: Value, rank: map<Ref, nat>, b: nat): set<Ref>
    decreases b, 1
  {
    if TokenKind(v).Some? && IdOf(TokenId(v)).Some? then
      RecordReach(Ref(TokenKind(v).value, RecordKey(IdOf(TokenId(v)).value)), dump, rank, b)
    else {}
  }

  ghost function RecordReach(r: Ref, dump: Value, rank: map<Ref, nat>, b: nat): set<Ref>
    decreases b, 0
  {
    if r in rank && rank[r] < b then {r} + FieldsOfReach(r, dump, rank) else {}
  }

  /** The records the fields of the record r lead to. */
  ghost function FieldsOfReach(r: Ref, dump: Value, rank: map<Ref, nat>): set<Ref>
    decreases if r in rank then rank[r] else 0, 5
  {
    if r in rank && RecordOf(dump, r).Some? && RecordOf(dump, r).value.Dict?
    then FieldsReach(r.kind, RecordOf(dump, r).value.entries, dump, rank, rank[r])
    else {}
  }

  ghost function FieldsReach(kind: Kind, rec: map<string, Value>, dump: Value, rank: map<Ref, nat>, b: nat): set<Ref>
    decreases b, 4
  {
    set f, x | f in rec && x in FieldReach(kind, f, rec[f], dump, rank, b) :: x
  }

  ghost function FieldReach(kind: Kind, f: string, v: Value, dump: Value, rank: map<Ref, nat>, b: nat): set<Ref>
    decreases b, 3
  {
    if IsChildMap(kind, f) then (if v.Dict? then ValuesReach(v.entries, dump, rank, b) else {})
    else TokenReach(v, dump, rank, b)
  }

  ghost function ValuesReach(m: map<string, Value>, dump: Value, rank: map<Ref, nat>, b: nat): set<Ref>
    decreases b, 2
  {
    set c, x | c in m && x in TokenReach(m[c], dump, rank, b) :: x
  }

  /** The records the first n items of a `data_dump` list lead to. */
  ghost function ItemsReach(s: seq<Value>, n: nat, dump: Value, rank: map<Ref, nat>, b: nat): set<Ref>
    requires n <= |s|
  {
    if n == 0 then {} else ItemsReach(s, n - 1, dump, rank, b) + TokenReach(s[n - 1], dump, rank, b)
  }

  /** Every record a token leads to is ranked below the bound. */
  lemma {:induction false} TokenReachBelow(v: Value, dump: Value, rank: map<Ref, nat>, b: nat)
    decreases b, 1
    ensures forall x | x in TokenReach(v, dump, rank, b) :: x in rank && rank[x] < b
  {
    if TokenKind(v).Some? && IdOf(TokenId(v)).Some? {
      RecordReachBelow(Ref(TokenKind(v).value, RecordKey(IdOf(TokenId(v)).value)), dump, rank, b);
    }
  }

  lemma {:induction false} RecordReachBelow(r: Ref, dump: Value, rank: map<Ref, nat>, b: nat)
    decreases b, 0
    ensures forall x | x in RecordReach(r, dump, rank, b) :: x in rank && rank[x] < b
  {
    if r in rank && rank[r] < b {
      FieldsOfReachBelow(r, dump, rank);
    }
  }

  /** The records the fields of r lead to are ranked below r. */
  lemma {:induction false} FieldsOfReachBelow(r: Ref, dump: Value, rank: map<Ref, nat>)
    decreases if r in rank then rank[r] else 0, 5
    ensures forall x | x in FieldsOfReach(r, dump, rank) :: r in rank && x in rank && rank[x] < rank[r]
  {
    if r in rank && RecordOf(dump, r).Some? && RecordOf(dump, r).value.Dict? {
      FieldsReachBelow(r.kind, RecordOf(dump, r).value.entries, dump, rank, rank[r]);
    }
  }

  lemma {:induction false} FieldsReachBelow(kind: Kind, rec: map<string, Value>, dump: Value, rank: map<Ref, nat>, b: nat)
    decreases b, 4
    ensures forall x | x in FieldsReach(kind, rec, dump, rank, b) :: x in rank && rank[x] < b
  {
    forall x | x in FieldsReach(kind, rec, dump, rank, b)
      ensures x in rank && rank[x] < b
    {
      var f :| f in rec && x in FieldReach(kind, f, rec[f], dump, rank, b);
      FieldReachBelow(kind, f, rec[f], dump, rank, b);
    }
  }

  lemma {:induction false} FieldReachBelow(kind: Kind, f: string, v: Value, dump: Value, rank: map<Ref, nat>, b: nat)
    decreases b, 3
    ensures forall x | x in FieldReach(kind, f, v, dump, rank, b) :: x in rank && rank[x] < b
  {
    if IsChildMap(kind, f) {
      if v.Dict? {
        ValuesReachBelow(v.entries, dump, rank, b);
      }
    } else {
      TokenReachBelow(v, dump, rank, b);
    }
  }

  lemma {:induction false} ValuesReachBelow(m: map<string, Value>, dump: Value, rank: map<Ref, nat>, b: nat)
    decreases b, 2
    ensures forall x | x in ValuesReach(m, dump, rank, b) :: x in rank && rank[x] < b
  {
    forall x | x in ValuesReach(m, dump, rank, b)
      ensures x in rank && rank[x] < b
    {
      var c :| c in m && x in TokenReach(m[c], dump, rank, b);
      TokenReachBelow(m[c], dump, rank, b);
    }
  }

  /** A token leads to the records its own record leads to, and resolves
      exactly when its record does. */
  lemma TokenReachOf(v: Value, kind: Kind, id: Id, dump: Value, rank: map<Ref, nat>, b: nat)
    requires TokenKind(v) == Some(kind) && IdOf(TokenId(v)) == Some(id)
    ensures TokenReach(v, dump, rank, b) == RecordReach(Ref(kind, RecordKey(id)), dump, rank, b)
    ensures Resolvable(v, dump, rank, b) <==> RecordResolvable(Ref(kind, RecordKey(id)), dump, rank, b)
  {
  }

  /** A record within the bound reaches itself and what its fields lead to. */
  lemma RecordReachCovers(r: Ref, dump: Value, rank: map<Ref, nat>, b: nat)
    requires r in rank ==> rank[r] < b
    ensures FieldsOfReach(r, dump, rank) <= RecordReach(r, dump, rank, b)
    ensures r in rank ==> r in RecordReach(r, dump, rank, b)
  {
  }

  lemma ValueReachIn(m: map<string, Value>, c: string, dump: Value, rank: map<Ref, nat>, b: nat)
    requires c in m
    ensures TokenReach(m[c], dump, rank, b) <= ValuesReach(m, dump, rank, b)
  {
  }

  lemma FieldReachIn(kind: Kind, rec: map<string, Value>, f: string, dump: Value, rank: map<Ref, nat>, b: nat)
    requires f in rec
    ensures FieldReach(kind, f, rec[f], dump, rank, b) <= FieldsReach(kind, rec, dump, rank, b)
  {
  }

  /** Items none of which is a token lead to no record. */
  lemma {:induction false} NonTokensReachNothing(s: seq<Value>, n: nat, dump: Value, rank: map<Ref, nat>, b: nat)
    requires n <= |s| && forall j | 0 <= j < |s| :: TokenKind(s[j]).None?
    ensures ItemsReach(s, n, dump, rank, b) == {}
  {
    if n > 0 {
      NonTokensReachNothing(s, n - 1, dump, rank, b);
    }
  }

  /** Strings lead to no record and always resolve. */
  lemma PlainItems(s: seq<Value>, dump: Value, rank: map<Ref, nat>, b: nat)
    requires forall j | 0 <= j < |s| :: s[j].Str?
    ensures forall j | 0 <= j < |s| :: Resolvable(s[j], dump, rank, b) && TokenKind(s[j]).None?
    ensures ItemsReach(s, |s|, dump, rank, b) == {}
  {
    NonTokensReachNothing(s, |s|, dump, rank, b);
  }

  lemma ItemReachIn(s: seq<Value>, n: nat, dump: Value, rank: map<Ref, nat>, b: nat)
    requires n < |s|
    ensures ItemsReach(s, n, dump, rank, b) <= ItemsReach(s, n + 1, dump, rank, b)
    ensures TokenReach(s[n], dump, rank, b) <= ItemsReach(s, n + 1, dump, rank, b)
  {
  }

  /** The slot (t, i) belongs to one of the records refs. */
  ghost predicate SlotIn(t: string, i: Id, refs: set<Ref>) {
    KindNamed(t).Some? && Ref(KindNamed(t).value, RecordKey(i)) in refs
  }

  /** Every slot filled between c0 and c1 belongs to one of the records refs. */
  ghost predicate NewWithin(c0: Cache, c1: Cache, refs: set<Ref>) {
    forall t, i {:trigger SlotIn(t, i, refs)} | t in c1 && i in c1[t] && !(t in c0 && i in c0[t]) :: SlotIn(t, i, refs)
  }

  /** Slots within records ranked below b belong to records ranked below b. */
  lemma NewWithinBelow(c0: Cache, c1: Cache, refs: set<Ref>, rank: map<Ref, nat>, b: nat)
    requires NewWithin(c0, c1, refs) && forall x | x in refs :: x in rank && rank[x] < b
    ensures NewBelow(c0, c1, rank, b)
  {
    forall t, i | t in c1 && i in c1[t] && !(t in c0 && i in c0[t])
      ensures EntryBelow(t, i, rank, b)
    {
      assert SlotIn(t, i, refs);
    }
  }

  lemma NewWithinGrow(c0: Cache, c1: Cache, small: set<Ref>, refs: set<Ref>)
    requires NewWithin(c0, c1, small) && small <= refs
    ensures NewWithin(c0, c1, refs)
  {
    forall t, i | t in c1 && i in c1[t] && !(t in c0 && i in c0[t])
      ensures SlotIn(t, i, refs)
    {
      assert SlotIn(t, i, small);
    }
  }

  /** Slots filled by successive calls, each within refs, are within refs. */
  lemma NewWithinTrans(c0: Cache, c1: Cache, c2: Cache, refs: set<Ref>)
    requires Extends(c0, c1) && NewWithin(c0, c1, refs) && NewWithin(c1, c2, refs)
    ensures NewWithin(c0, c2, refs)
  {
    forall t, i | t in c2 && i in c2[t] && !(t in c0 && i in c0[t])
      ensures SlotIn(t, i, refs)
    {
      if t in c1 && i in c1[t] {
        assert !(t in c0 && i in c0[t]);
      }
    }
  }

  lemma NewWithinStore(c0: Cache, c1: Cache, k: Key, e: Entity, refs: set<Ref>)
    requires NewWithin(c0, c1, refs) && k.name in c1 && SlotIn(k.name, k.id, refs)
    ensures NewWithin(c0, Store(c1, k, e), refs)
  {
    var c2 := Store(c1, k, e);
    forall t, i | t in c2 && i in c2[t] && !(t in c0 && i in c0[t])
      ensures SlotIn(t, i, refs)
    {
      if !(t == k.name && i == k.id) {
        assert t in c1 && i in c1[t];
      }
    }
  }

  /** One step of an attribute or child loop: what the step's call fills is
      within the loop's records, so the loop keeps all its invariants. */
  lemma LoopStep(c0: Cache, c1: Cache, c2: Cache, dump: Value, step: set<Ref>, refs: set<Ref>)
    requires Extends(c0, c1) && Extends(c1, c2)
    requires NewBuilt(c0, c1, dump) && NewBuilt(c1, c2, dump)
    requires NewWithin(c0, c1, refs) && NewWithin(c1, c2, step) && step <= refs
    ensures Extends(c0, c2) && NewBuilt(c0, c2, dump) && NewWithin(c0, c2, refs)
    ensures NewEntities(c0, c2) <= NewEntities(c0, c1) + NewEntities(c1, c2)
  {
    NewEntitiesTrans(c0, c1, c2);
    NewBuiltTrans(c0, c1, c2, dump);
    NewWithinGrow(c1, c2, step, refs);
    NewWithinTrans(c0, c1, c2, refs);
  }

  /** Building the record of a free slot fills only slots its fields lead
      to, all ranked below it: the slot itself stays free, and every slot
      filled belongs to a record the slot's record reaches. */
  lemma BuildLeavesOwnSlot(c0: Cache, c1: Cache, k: Key, kind: Kind, dump: Value, rank: map<Ref, nat>, b: nat)
    requires Ref(kind, RecordKey(k.id)) in rank ==> rank[Ref(kind, RecordKey(k.id))] < b
    requires NewWithin(c0, c1, FieldsOfReach(Ref(kind, RecordKey(k.id)), dump, rank))
    ensures NewWithin(c0, c1, RecordReach(Ref(kind, RecordKey(k.id)), dump, rank, b))
    ensures k.name == kind.Name() && !Cached(c0, k) ==> !Cached(c1, k)
  {
    var rk := Ref(kind, RecordKey(k.id));
    var below := if rk in rank then rank[rk] else 0;
    FieldsOfReachBelow(rk, dump, rank);
    NewWithinBelow(c0, c1, FieldsOfReach(rk, dump, rank), rank, below);
    RecordReachCovers(rk, dump, rank, b);
    NewWithinGrow(c0, c1, FieldsOfReach(rk, dump, rank), RecordReach(rk, dump, rank, b));
    if k.name == kind.Name() && !Cached(c0, k) {
      NotNewUnlessBelow(c0, c1, rank, below, kind, k.id);
    }
  }

  /** The `defaultdict` access fills no slot. */
  lemma WithNameFillsNothing(c: Cache, t: string, refs: set<Ref>)
    ensures NewWithin(c, WithName(c, t), refs)
  {
  }

  // ---------------------------------------------------------------------
  // The request payload

  /** Each element of s once, and nothing else. */
  ghost predicate ListsOnce<T(!new)>(s: seq<T>, elems: set<T>) {
    && (forall i, j | 0 <= i < j < |s| :: s[i] != s[j])
    && (forall x :: x in s <==> x in elems)
  }

  /** The ids of one class as the server receives them: each cached id
      once, and nothing else. */
  predicate ListsIds(items: seq<Value>, ids: set<Id>) {
    && (forall j | 0 <= j < |items| :: IdOf(items[j]).Some? && IdOf(items[j]).value in ids)
    && (forall id | id in ids :: IdValue(id) in items)
    && (forall i, j | 0 <= i < j < |items| :: items[i] != items[j])
  }

  /** The `cache_state` the server receives: for every class name in the
      cache, the list of its cached ids. */
  predicate Manifest(v: Value, c: Cache) {
    && v.Dict? && v.entries.Keys == c.Keys
    && forall t | t in c :: v.entries[t].List? && ListsIds(v.entries[t].items, c[t].Keys)
  }

  function IdValues(ids: seq<Id>): (r: seq<Value>)
    ensures |r| == |ids| && forall j | 0 <= j < |ids| :: r[j] == IdValue(ids[j])
  {
    seq(|ids|, j requires 0 <= j < |ids| => IdValue(ids[j]))
  }

  lemma IdValuesListIds(ids: seq<Id>, keys: set<Id>)
    requires ListsOnce(ids, keys)
    ensures ListsIds(IdValues(ids), keys)
  {
    var items := IdValues(ids);
    forall i, j | 0 <= i < j < |items|
      ensures items[i] != items[j]
    {
      IdRoundTrip(ids[i]);
      IdRoundTrip(ids[j]);
    }
    forall j | 0 <= j < |items|
      ensures IdOf(items[j]).Some? && IdOf(items[j]).value in keys
    {
      IdRoundTrip(ids[j]);
    }
    forall id | id in keys
      ensures IdValue(id) in items
    {
      var j :| 0 <= j < |ids| && ids[j] == id;
      assert items[j] == IdValue(id);
    }
  }

  /** The JSON value of a manifest. */
  function ManifestValue(state: map<string, seq<Id>>): Value {
    Dict(map t | t in state :: List(IdValues(state[t])))
  }

  lemma ManifestValueLists(state: map<string, seq<Id>>, c: Cache)
    requires state.Keys == c.Keys
    requires forall t | t in state :: ListsOnce(state[t], c[t].Keys)
    ensures Manifest(ManifestValue(state), c)
  {
    var v := ManifestValue(state);
    forall t | t in c
      ensures v.entries[t].List? && ListsIds(v.entries[t].items, c[t].Keys)
    {
      IdValuesListIds(state[t], c[t].Keys);
    }
  }

  /** What `_query_db_entry_` posts: the query's parameters, the cache
      manifest and the token. */
  predicate Sent(payload: map<string, Value>, params: map<string, Value>, token: string, c: Cache) {
    && payload.Keys == params.Keys + {"cache_state", "token"}
    && (forall k | k in params && k != "cache_state" && k != "token" :: payload[k] == params[k])
    && Manifest(payload["cache_state"], c)
    && payload["token"] == Str(token)
  }

  // ---------------------------------------------------------------------
  // Response handling

  /** What `_query_db_entry_` returns: the entries, None after a KeyError,
      or an exception that escapes. */
  datatype Outcome = Entries(items: seq<Value>) | NoResult | Raised(error: Error)

  /** What `_query_db_entry_` makes of an error of `make_entry`: the
      `except KeyError` turns a KeyError into None; any other error escapes. */
  function Failure(e: Error): (o: Outcome)
    ensures o == NoResult <==> e == KeyError
    ensures o.Raised? ==> o.error == e
  {
    if e == KeyError then NoResult else Raised(e)
  }

  /** The failure of `make_entry` of v with error e, as far as the model
      pins it: v is a token that does not resolve, its slot stays empty in
      c, and an error raised before any field is resolved is that error. */
  ghost predicate FailsWith(v: Value, e: Error, dump: Value, rank: map<Ref, nat>, b: nat, c: Cache) {
    && !Resolvable(v, dump, rank, b)
    && TokenKind(v).Some?
    && (CacheKey(v).Some? ==> !Cached(c, CacheKey(v).value))
    && (EarlyError(v, dump).Some? ==> e == EarlyError(v, dump).value)
  }

  /** The rank precondition for a whole response. */
  ghost predicate ResponseRanked(response: Value, rank: map<Ref, nat>, b: nat) {
    response.Dict? && "cache_dump" in response.entries && "data_dump" in response.entries ==>
      && Ranked(response.entries["cache_dump"], rank)
      && (response.entries["data_dump"].List? ==>
            forall j | 0 <= j < |response.entries["data_dump"].items| :: Below(response.entries["data_dump"].items[j], rank, b))
  }

  /** How the outcome follows from the decoded response: one object per
      `data_dump` item in order; None when a key is missing; TypeError when
      the response or the data cannot be iterated. When an item fails, it
      is the first item that does not resolve against the final cache, and
      an error it raises before its fields are resolved becomes None if it
      is a KeyError and escapes otherwise. Every slot the query fills
      belongs to a record that an item up to the last one made leads to;
      string or dictionary data fills none. */
  ghost predicate Answered(response: Value, outcome: Outcome, c0: Cache, c1: Cache, rank: map<Ref, nat>, b: nat)
    reads NewEntities(c0, c1)
  {
    && Extends(c0, c1)
    && (response.Dict? && "cache_dump" in response.entries ==> NewBuilt(c0, c1, response.entries["cache_dump"]))
    && (!response.Dict? ==> outcome == Raised(TypeError) && c1 == c0)
    && (response.Dict? && ("data_dump" !in response.entries || "cache_dump" !in response.entries) ==>
          outcome == NoResult && c1 == c0)
    && (outcome.Raised? ==> outcome.error != KeyError)
    && (response.Dict? && "data_dump" in response.entries ==>
          var data := response.entries["data_dump"];
          && ("cache_dump" in response.entries && (data.Null? || data.Bool? || data.Int?) ==>
                outcome == Raised(TypeError) && c1 == c0)
          && (outcome.Entries? && data.List? ==>
                |outcome.items| == |data.items| &&
                forall j | 0 <= j < |data.items| :: Resolved(data.items[j], outcome.items[j], c1))
          && (outcome.Entries? && data.Str? ==>
                outcome.items == seq(|data.s|, j requires 0 <= j < |data.s| => Str([data.s[j]])))
          && (outcome.Entries? && data.Dict? ==>
                exists keys :: ListsOnce(keys, data.entries.Keys) && outcome.items == KeyValues(keys))
          && ("cache_dump" in response.entries && (data.Str? || data.Dict?) ==>
                outcome.Entries? && NewWithin(c0, c1, {}))
          && ("cache_dump" in response.entries && data.List? ==>
                var dump := response.entries["cache_dump"];
                && ((forall j | 0 <= j < |data.items| :: Resolvable(data.items[j], dump, rank, b)) ==> outcome.Entries?)
                && (outcome.Entries? ==> NewWithin(c0, c1, ItemsReach(data.items, |data.items|, dump, rank, b)))
                && (!outcome.Entries? ==>
                      exists k | 0 <= k < |data.items| ::
                        && NewWithin(c0, c1, ItemsReach(data.items, k + 1, dump, rank, b))
                        && !Resolvable(data.items[k], dump, rank, b)
                        && TokenKind(data.items[k]).Some?
                        && (CacheKey(data.items[k]).Some? ==> !Cached(c1, CacheKey(data.items[k]).value))
                        && (EarlyError(data.items[k], dump).Some? ==> outcome == Failure(EarlyError(data.items[k], dump).value))
                        && forall j | 0 <= j < k :: Resolves(data.items[j], c1))))
  }

  /** Every item of a list `data_dump` made: the outcome is the list of
      the objects. */
  lemma ListMade(response: Value, items: seq<Value>, c0: Cache, c1: Cache, rank: map<Ref, nat>, b: nat)
    requires response.Dict? && "data_dump" in response.entries && "cache_dump" in response.entries
    requires response.entries["data_dump"].List?
    requires var src := response.entries["data_dump"].items;
      var dump := response.entries["cache_dump"];
      && Extends(c0, c1) && NewBuilt(c0, c1, dump)
      && |items| == |src| && (forall j | 0 <= j < |items| :: Resolved(src[j], items[j], c1))
      && NewWithin(c0, c1, ItemsReach(src, |src|, dump, rank, b))
    ensures Answered(response, Entries(items), c0, c1, rank, b)
  {
  }

  /** Item |items| of a list `data_dump` failed with e: the outcome is what
      `_query_db_entry_` makes of e, and that item is the witness. */
  lemma ListFailed(response: Value, items: seq<Value>, e: Error, c0: Cache, c1: Cache, rank: map<Ref, nat>, b: nat)
    requires response.Dict? && "data_dump" in response.entries && "cache_dump" in response.entries
    requires response.entries["data_dump"].List?
    requires var src := response.entries["data_dump"].items;
      var dump := response.entries["cache_dump"];
      && Extends(c0, c1) && NewBuilt(c0, c1, dump)
      && |items| < |src| && (forall j | 0 <= j < |items| :: Resolved(src[j], items[j], c1))
      && FailsWith(src[|items|], e, dump, rank, b, c1)
      && NewWithin(c0, c1, ItemsReach(src, |items| + 1, dump, rank, b))
    ensures Answered(response, Failure(e), c0, c1, rank, b)
  {
    var src := response.entries["data_dump"].items;
    assert forall j | 0 <= j < |items| :: Resolves(src[j], c1);
  }

  /** String or dictionary `data_dump`: the outcome is its characters or
      its keys, and no slot is filled. */
  lemma NonListMade(response: Value, items: seq<Value>, keys: seq<string>, c0: Cache, c1: Cache,
                    rank: map<Ref, nat>, b: nat)
    requires response.Dict? && "data_dump" in response.entries && "cache_dump" in response.entries
    requires var data := response.entries["data_dump"];
      && (data.Str? ==> items == seq(|data.s|, j requires 0 <= j < |data.s| => Str([data.s[j]])))
      && (data.Dict? ==> ListsOnce(keys, data.entries.Keys) && items == KeyValues(keys))
      && (data.Str? || data.Dict?)
    requires Extends(c0, c1) && NewBuilt(c0, c1, response.entries["cache_dump"]) && NewWithin(c0, c1, {})
    ensures Answered(response, Entries(items), c0, c1, rank, b)
  {
  }

  /** A token with a None id: the decorator's ValueError escapes, since
      only KeyError is caught. */
  lemma NoneIdRaises(response: Value, outcome: Outcome, c0: Cache, c1: Cache, rank: map<Ref, nat>, b: nat)
    requires response == Dict(map["data_dump" := List([Dict(map[EntryTypeKey := Str("Property"), "id" := Null])]),
                                  "cache_dump" := Dict(map[])])
    requires Answered(response, outcome, c0, c1, rank, b)
    ensures outcome == Raised(ValueError)
  {
    var item := response.entries["data_dump"].items[0];
    assert TokenKind(item) == Some(Property);
    assert EarlyError(item, response.entries["cache_dump"]) == Some(ValueError);
  }

  /** A query returns its entries only if every list item that was not
      cached before it had a record its constructor accepts. */
  lemma EntriesAccepted(response: Value, outcome: Outcome, c0: Cache, c1: Cache, rank: map<Ref, nat>, b: nat, j: nat)
    requires Answered(response, outcome, c0, c1, rank, b)
    requires response.Dict? && "data_dump" in response.entries && "cache_dump" in response.entries
    requires response.entries["data_dump"].List? && j < |response.entries["data_dump"].items|
    requires var v := response.entries["data_dump"].items[j];
      TokenKind(v).Some? && CacheKey(v).Some? && !Cached(c0, CacheKey(v).value)
    ensures var v := response.entries["data_dump"].items[j];
      outcome.Entries? ==> RecordError(Ref(TokenKind(v).value, RecordKey(CacheKey(v).value.id)), response.entries["cache_dump"]).None?
  {
    var v := response.entries["data_dump"].items[j];
    var dump := response.entries["cache_dump"];
    var k := CacheKey(v).value;
    if outcome.Entries? {
      assert Resolved(v, outcome.items[j], c1);
      assert KindNamed(k.name) == TokenKind(v);
      assert BuiltEntry(k.name, k.id, c1, dump);
    }
  }

  /** An uncached Property token whose record has no TYPE_ID: `make_prop`
      raises KeyError, and the query returns None. */
  lemma MissingTypeIdGivesNone(response: Value, outcome: Outcome, c1: Cache, rank: map<Ref, nat>, b: nat)
    requires response == Dict(map["data_dump" := List([Dict(map[EntryTypeKey := Str("Property"), "id" := Int(1)])]),
                                  "cache_dump" := Dict(map["Property" := Dict(map["1" := Dict(map[])])])])
    requires Answered(response, outcome, map[], c1, rank, b)
    ensures outcome == NoResult
  {
    var item := response.entries["data_dump"].items[0];
    var dump := response.entries["cache_dump"];
    assert TokenKind(item) == Some(Property);
    assert CacheKey(item) == Some(Key("Property", IdInt(1)));
    assert RecordKey(IdInt(1)) == "1" by { assert NatToString(1) == "1"; }
    assert RecordError(Ref(Property, "1"), dump) == Some(KeyError);
    EntriesAccepted(response, outcome, map[], c1, rank, b, 0);
  }

  /** The items of `LaterItemNotCached`: the Property token raises a
      KeyError on its lookup and leads to no record; the StructureEntry
      token resolves. */
  lemma LaterItemFacts(items: seq<Value>, dump: Value, rank: map<Ref, nat>, b: nat)
    requires items == [Dict(map[EntryTypeKey := Str("Property"), "id" := Str("a")]),
                       Dict(map[EntryTypeKey := Str("StructureEntry"), "id" := Str("b")])]
    requires dump == Dict(map["StructureEntry" := Dict(map["b" := Dict(map[])])])
    requires rank == map[Ref(StructureEntry, "b") := 0] && b == 1
    ensures EarlyError(items[0], dump) == Some(KeyError)
    ensures TokenKind(items[0]).Some? && CacheKey(items[0]) == Some(Key("Property", IdStr("a")))
    ensures RecordError(Ref(Property, RecordKey(IdStr("a"))), dump).Some?
    ensures ItemsReach(items, 1, dump, rank, b) == {}
    ensures Resolvable(items[1], dump, rank, b)
  {
    assert TokenKind(items[0]) == Some(Property) && IdOf(TokenId(items[0])) == Some(IdStr("a"));
    assert TokenKind(items[1]) == Some(StructureEntry) && IdOf(TokenId(items[1])) == Some(IdStr("b"));
    assert RecordOf(dump, Ref(Property, "a")).None?;
    assert TokenReach(items[0], dump, rank, b) == {};
  }

  /** Items after the failing one are not made: a Property token without
      a record ahead of a StructureEntry token with an accepted record
      gives None, and the StructureEntry object is not cached. */
  lemma LaterItemNotCached(response: Value, outcome: Outcome, c1: Cache, rank: map<Ref, nat>, b: nat)
    requires response == Dict(map["data_dump" := List([Dict(map[EntryTypeKey := Str("Property"), "id" := Str("a")]),
                                                       Dict(map[EntryTypeKey := Str("StructureEntry"), "id" := Str("b")])]),
                                  "cache_dump" := Dict(map["StructureEntry" := Dict(map["b" := Dict(map[])])])])
    requires rank == map[Ref(StructureEntry, "b") := 0] && b == 1
    requires Answered(response, outcome, map[], c1, rank, b)
    ensures outcome == NoResult
    ensures !Cached(c1, Key("StructureEntry", IdStr("b")))
  {
    var items := response.entries["data_dump"].items;
    var dump := response.entries["cache_dump"];
    LaterItemFacts(items, dump, rank, b);
    EntriesAccepted(response, outcome, map[], c1, rank, b, 0);
    var k :| 0 <= k < |items| && NewWithin(map[], c1, ItemsReach(items, k + 1, dump, rank, b))
      && !Resolvable(items[k], dump, rank, b)
      && (EarlyError(items[k], dump).Some? ==> outcome == Failure(EarlyError(items[k], dump).value));
    assert k == 0;
    assert !SlotIn("StructureEntry", IdStr("b"), {});
  }

  /** The keys of a dictionary as the string values iterating it yields. */
  function KeyValues(keys: seq<string>): (r: seq<Value>)
    ensures |r| == |keys| && forall j | 0 <= j < |keys| :: r[j] == Str(keys[j])
  {
    seq(|keys|, j requires 0 <= j < |keys| => Str(keys[j]))
  }

  // ---------------------------------------------------------------------
  // The client

  predicate EndsWithSlash(u: string) {
    |u| > 0 && u[|u| - 1] == '/'
  }

  /** The constructor drops one trailing slash, and only one. */
  function TrimTrailingSlash(u: string): (r: string)
    ensures |u| - |r| == if EndsWithSlash(u) then 1 else 0
    ensures r == u[..|r|]
  {
    if EndsWithSlash(u) then u[..|u| - 1] else u
  }

  /** Trimming undoes one appended slash, so "http://host/" and
      "http://host" name the same server. */
  lemma TrimUndoesSlash(u: string)
    ensures TrimTrailingSlash(u + "/") == u
  {
    assert (u + "/")[..|u|] == u;
  }

  /** Each element of s once, in some order. */
  method SetToSeq<T(==,!new)>(s: set<T>) returns (r: seq<T>)
    ensures ListsOnce(r, s)
  {
    r := [];
    var todo := s;
    while todo != {}
      invariant todo <= s
      invariant forall x :: x in r <==> x in s && x !in todo
      invariant forall i, j | 0 <= i < j < |r| :: r[i] != r[j]
      decreases todo
    {
      var x :| x in todo;
      r := r + [x];
      todo := todo - {x};
    }
  }

  /** The entity cache: a field, shared with a caller that supplied it. */
  class EntriesCache {
    var entries: Cache

    constructor ()
      ensures entries == map[]
    {
      entries := map[];
    }
  }

  class Client {
    const url: string
    const token: string
    const cache: EntriesCache

    /** A missing or empty cache is replaced by a fresh one; a non-empty one
        is used, and shared, as it is. */
    constructor (url: string, token: string, supplied: EntriesCache?)
      ensures this.url == TrimTrailingSlash(url) && this.token == token
      ensures supplied != null && supplied.entries != map[] ==> cache == supplied
      ensures supplied == null || supplied.entries == map[] ==> fresh(cache) && cache.entries == map[]
    {
      this.url := TrimTrailingSlash(url);
      this.token := token;
      if supplied != null && supplied.entries != map[] {
        this.cache := supplied;
      } else {
        this.cache := new EntriesCache();
      }
    }

    /** `make_entry`: a token of one of the six classes goes to the cached
        constructor of its class; every other value comes back as it is. */
    method MakeEntry(v: Value, dump: Value, ghost rank: map<Ref, nat>, ghost b: nat) returns (r: Result<Value>)
      requires IsJson(v) && IsJson(dump) && Ranked(dump, rank) && Below(v, rank, b)
      modifies cache
      decreases b, 4
      ensures Extends(old(cache.entries), cache.entries)
      ensures TokenKind(v).None? ==> r == Ok(v) && cache.entries == old(cache.entries)
      ensures TokenKind(v).Some? && TokenId(v) == Null ==> r == Err(ValueError) && cache.entries == old(cache.entries)
      ensures TokenKind(v).Some? && TokenId(v) != Null && CacheKey(v).None? ==> r == Err(TypeError)
      ensures TokenKind(v).Some? && CacheKey(v).Some? && Cached(old(cache.entries), CacheKey(v).value) ==>
        r == Ok(Obj(old(cache.entries)[CacheKey(v).value.name][CacheKey(v).value.id])) && cache.entries == old(cache.entries)
      ensures r.Ok? ==> Resolved(v, r.value, cache.entries)
      ensures Resolvable(v, dump, rank, b) ==> r.Ok?
      ensures EarlyError(v, dump).Some? && !(CacheKey(v).Some? && Cached(old(cache.entries), CacheKey(v).value)) ==>
        r == Err(EarlyError(v, dump).value)
      ensures r.Err? ==> TokenKind(v).Some? && (CacheKey(v).Some? ==> !Cached(cache.entries, CacheKey(v).value))
      ensures forall x | x in NewEntities(old(cache.entries), cache.entries) :: fresh(x)
      ensures NewBuilt(old(cache.entries), cache.entries, dump)
      ensures NewWithin(old(cache.entries), cache.entries, TokenReach(v, dump, rank, b))
      ensures TokenKind(v).Some? && CacheKey(v).Some? && !Cached(old(cache.entries), CacheKey(v).value) && r.Ok? ==>
        fresh(r.value.ref)
    {
      match TokenKind(v) {
        case None =>
          r := Ok(v);
        case Some(kind) =>
          r := GetOrCreate(kind, v, dump, rank, b);
      }
    }

    /** The cached constructor of one class (`cached_method`). A value that
        is not a token, or a token without an id, raises ValueError and
        leaves the cache alone; a cached id returns the cached object; any
        other id builds a new object and caches it afterwards. */
    method GetOrCreate(kind: Kind, v: Value, dump: Value, ghost rank: map<Ref, nat>, ghost b: nat) returns (r: Result<Value>)
      requires IsJson(v) && IsJson(dump) && Ranked(dump, rank)
      requires v.Dict? && EntryTypeKey in v.entries ==> v.entries[EntryTypeKey].Str?
      requires v.Dict? ==> RecordBelow(kind, v, rank, b)
      modifies cache
      decreases b, 3
      ensures Extends(old(cache.entries), cache.entries)
      ensures TokenType(v).None? || TokenId(v) == Null ==> r == Err(ValueError) && cache.entries == old(cache.entries)
      ensures TokenType(v).Some? && TokenId(v) != Null && CacheKey(v).None? ==>
        r == Err(TypeError) && cache.entries == WithName(old(cache.entries), TokenType(v).value)
      ensures CacheKey(v).Some? && Cached(old(cache.entries), CacheKey(v).value) ==>
        r == Ok(Obj(old(cache.entries)[CacheKey(v).value.name][CacheKey(v).value.id])) && cache.entries == old(cache.entries)
      ensures r.Ok? ==>
        && CacheKey(v).Some? && Cached(cache.entries, CacheKey(v).value)
        && r.value == Obj(cache.entries[CacheKey(v).value.name][CacheKey(v).value.id])
      ensures CacheKey(v).Some? && !Cached(old(cache.entries), CacheKey(v).value) && r.Ok? ==>
        var look := LookupRecord(dump, Ref(kind, RecordKey(CacheKey(v).value.id)));
        && fresh(r.value.ref) && r.value.ref.kind == kind
        && look.Ok? && look.value.Dict?
        && (TokenType(v) == Some(kind.Name()) ==> Built(r.value.ref, look.value.entries, cache.entries))
      ensures CacheKey(v).Some? && !Cached(old(cache.entries), CacheKey(v).value) && r.Err? && TokenType(v) == Some(kind.Name()) ==>
        !Cached(cache.entries, CacheKey(v).value)
      ensures TokenType(v) == Some(kind.Name()) && Resolvable(v, dump, rank, b) ==> r.Ok?
      ensures CacheKey(v).Some? && !Cached(old(cache.entries), CacheKey(v).value)
              && RecordError(Ref(kind, RecordKey(CacheKey(v).value.id)), dump).Some? ==>
        r == Err(RecordError(Ref(kind, RecordKey(CacheKey(v).value.id)), dump).value)
      ensures forall x | x in NewEntities(old(cache.entries), cache.entries) :: fresh(x)
      ensures TokenType(v) == Some(kind.Name()) ==> NewBuilt(old(cache.entries), cache.entries, dump)
      ensures TokenType(v) == Some(kind.Name()) ==> NewWithin(old(cache.entries), cache.entries, TokenReach(v, dump, rank, b))
    {
      if TokenType(v).None? || TokenId(v) == Null {
        return Err(ValueError);
      }
      if CacheKey(v).None? {
        WithNameStoresNothing(cache.entries, TokenType(v).value, dump);
        WithNameFillsNothing(cache.entries, TokenType(v).value, TokenReach(v, dump, rank, b));
        cache.entries := WithName(cache.entries, TokenType(v).value);
        return Err(TypeError);
      }
      var k := CacheKey(v).value;
      assert TokenType(v) == Some(kind.Name()) ==> TokenKind(v) == Some(kind) && k.name == kind.Name();
      assert IdOf(TokenId(v)) == Some(k.id) && RecordBelow(kind, v, rank, b);
      if TokenType(v) == Some(kind.Name()) {
        TokenReachOf(v, kind, k.id, dump, rank, b);
      }
      r := LookupOrCreate(kind, k, dump, rank, b);
    }

    /** The dictionary lookup of the cached constructor: after the
        `defaultdict` access, a cached slot returns its object and a free
        one is filled by `Create`. */
    method LookupOrCreate(kind: Kind, k: Key, dump: Value, ghost rank: map<Ref, nat>, ghost b: nat) returns (r: Result<Value>)
      requires IsJson(dump) && Ranked(dump, rank)
      requires Ref(kind, RecordKey(k.id)) in rank ==> rank[Ref(kind, RecordKey(k.id))] < b
      modifies cache
      decreases b, 2
      ensures Extends(old(cache.entries), cache.entries)
      ensures Cached(old(cache.entries), k) ==> r == Ok(Obj(old(cache.entries)[k.name][k.id])) && cache.entries == old(cache.entries)
      ensures r.Ok? ==> Cached(cache.entries, k) && r.value == Obj(cache.entries[k.name][k.id])
      ensures !Cached(old(cache.entries), k) && r.Ok? ==>
        var look := LookupRecord(dump, Ref(kind, RecordKey(k.id)));
        && fresh(r.value.ref) && r.value.ref.kind == kind
        && look.Ok? && look.value.Dict?
        && (k.name == kind.Name() ==> Built(r.value.ref, look.value.entries, cache.entries))
      ensures !Cached(old(cache.entries), k) && r.Err? && k.name == kind.Name() ==> !Cached(cache.entries, k)
      ensures RecordResolvable(Ref(kind, RecordKey(k.id)), dump, rank, b) ==> r.Ok?
      ensures !Cached(old(cache.entries), k) && RecordError(Ref(kind, RecordKey(k.id)), dump).Some? ==>
        r == Err(RecordError(Ref(kind, RecordKey(k.id)), dump).value)
      ensures forall x | x in NewEntities(old(cache.entries), cache.entries) :: fresh(x)
      ensures k.name == kind.Name() ==> NewBuilt(old(cache.entries), cache.entries, dump)
      ensures k.name == kind.Name() ==> NewWithin(old(cache.entries), cache.entries, RecordReach(Ref(kind, RecordKey(k.id)), dump, rank, b))
    {
      WithNameStoresNothing(cache.entries, k.name, dump);
      WithNameFillsNothing(cache.entries, k.name, RecordReach(Ref(kind, RecordKey(k.id)), dump, rank, b));
      cache.entries := WithName(cache.entries, k.name);
      if k.id in cache.entries[k.name] {
        return Ok(Obj(cache.entries[k.name][k.id]));
      }
      ghost var c0 := cache.entries;
      var created := Create(kind, k, dump, rank, b);
      NewEntitiesTrans(old(cache.entries), c0, cache.entries);
      if k.name == kind.Name() {
        NewBuiltTrans(old(cache.entries), c0, cache.entries, dump);
        NewWithinTrans(old(cache.entries), c0, cache.entries, RecordReach(Ref(kind, RecordKey(k.id)), dump, rank, b));
      }
      if created.Err? {
        return Err(created.error);
      }
      r := Ok(Obj(created.value));
    }

    /** A cache miss: build the object, then store it under its key. */
    method Create(kind: Kind, k: Key, dump: Value, ghost rank: map<Ref, nat>, ghost b: nat) returns (r: Result<Entity>)
      requires IsJson(dump) && Ranked(dump, rank)
      requires k.name in cache.entries && !Cached(cache.entries, k)
      requires Ref(kind, RecordKey(k.id)) in rank ==> rank[Ref(kind, RecordKey(k.id))] < b
      modifies cache
      decreases b, 1
      ensures Extends(old(cache.entries), cache.entries)
      ensures r.Ok? ==>
        var look := LookupRecord(dump, Ref(kind, RecordKey(k.id)));
        && Cached(cache.entries, k) && cache.entries[k.name][k.id] == r.value
        && fresh(r.value) && r.value.kind == kind
        && look.Ok? && look.value.Dict?
        && (k.name == kind.Name() ==> Built(r.value, look.value.entries, cache.entries))
      ensures r.Err? && k.name == kind.Name() ==> !Cached(cache.entries, k)
      ensures RecordResolvable(Ref(kind, RecordKey(k.id)), dump, rank, b) ==> r.Ok?
      ensures RecordError(Ref(kind, RecordKey(k.id)), dump).Some? ==> r == Err(RecordError(Ref(kind, RecordKey(k.id)), dump).value)
      ensures forall x | x in NewEntities(old(cache.entries), cache.entries) :: fresh(x)
      ensures k.name == kind.Name() ==> NewBuilt(old(cache.entries), cache.entries, dump)
      ensures k.name == kind.Name() ==> NewWithin(old(cache.entries), cache.entries, RecordReach(Ref(kind, RecordKey(k.id)), dump, rank, b))
    {
      var rk := Ref(kind, RecordKey(k.id));
      ghost var c0 := cache.entries;
      var built := Build(kind, RecordKey(k.id), dump, rank, b);
      ghost var c1 := cache.entries;
      BuildLeavesOwnSlot(c0, c1, k, kind, dump, rank, b);
      if built.Err? {
        return Err(built.error);
      }
      var e := built.value;
      var look := LookupRecord(dump, rk);
      if k.name == kind.Name() {
        StoreExtends(c0, c1, k, e);
        FieldsGrow(kind, look.value.entries, e.attrs, c1, Store(c1, k, e));
        NewBuiltStore(c0, c1, k, e, dump);
        RecordReachCovers(rk, dump, rank, b);
        assert KindNamed(k.name) == Some(kind);
        NewWithinStore(c0, c1, k, e, RecordReach(rk, dump, rank, b));
      } else {
        StoreExtends(c0, c1, k, e);
      }
      StoreNewEntities(c0, c1, k, e);
      cache.entries := Store(cache.entries, k, e);
      r := Ok(e);
    }

    /** The six `make_*` constructors: look up `cache_dump[kind][str(id)]`,
        create an empty object of the class, and set one attribute per
        record field to the resolved field value. */
    method Build(kind: Kind, key: string, dump: Value, ghost rank: map<Ref, nat>, ghost b: nat) returns (r: Result<Entity>)
      requires IsJson(dump) && Ranked(dump, rank)
      requires Ref(kind, key) in rank ==> rank[Ref(kind, key)] < b
      modifies cache
      decreases b, 0
      ensures Extends(old(cache.entries), cache.entries)
      ensures var look := LookupRecord(dump, Ref(kind, key));
        && (look.Err? ==> r == Err(look.error) && cache.entries == old(cache.entries))
        && (look.Ok? && !look.value.Dict? ==>
              r == Err(if kind == Property then TypeError else AttributeError) && cache.entries == old(cache.entries))
        && (look.Ok? && look.value.Dict? && kind == Property && "TYPE_ID" !in look.value.entries ==>
              r == Err(KeyError) && cache.entries == old(cache.entries))
        && (r.Ok? ==>
              && look.Ok? && look.value.Dict? && Ref(kind, key) in rank
              && fresh(r.value) && r.value.kind == kind
              && Built(r.value, look.value.entries, cache.entries)
              && (kind == Property ==> "TYPE_ID" in look.value.entries)
              && (forall f | f in look.value.entries :: !IsReadOnly(kind, f)))
      ensures RecordResolvable(Ref(kind, key), dump, rank, b) ==> r.Ok?
      ensures RecordError(Ref(kind, key), dump).Some? ==> r == Err(RecordError(Ref(kind, key), dump).value)
      ensures forall x | x in NewEntities(old(cache.entries), cache.entries) :: fresh(x)
      ensures NewBuilt(old(cache.entries), cache.entries, dump)
      ensures NewWithin(old(cache.entries), cache.entries, FieldsOfReach(Ref(kind, key), dump, rank))
    {
      var look := LookupRecord(dump, Ref(kind, key));
      if look.Err? {
        return Err(look.error);
      }
      var rec := look.value;
      if !rec.Dict? {
        return Err(if kind == Property then TypeError else AttributeError);
      }
      if kind == Property && "TYPE_ID" !in rec.entries {
        return Err(KeyError);
      }
      RecordIsJson(dump, Ref(kind, key));
      assert RankedAt(dump, rank, Ref(kind, key));
      ghost var rk := rank[Ref(kind, key)];
      var e := new Entity(kind);
      var err := SetAttributes(e, rec.entries, dump, rank, rk);
      if err.Some? {
        return Err(err.value);
      }
      r := Ok(e);
    }

    /** The attribute loop of the `make_*` constructors: `setattr` of every
        record field, in some order, until one raises. */
    method SetAttributes(e: Entity, rec: map<string, Value>, dump: Value, ghost rank: map<Ref, nat>, ghost b: nat)
      returns (err: Option<Error>)
      requires e.attrs == map[]
      requires forall f | f in rec :: IsJson(rec[f]) && FieldBelow(e.kind, f, rec[f], rank, b)
      requires IsJson(dump) && Ranked(dump, rank)
      modifies cache, e
      decreases b, 8
      ensures Extends(old(cache.entries), cache.entries)
      ensures err.None? ==> Built(e, rec, cache.entries) && forall f | f in rec :: !IsReadOnly(e.kind, f)
      ensures FieldsResolvable(e.kind, rec, dump, rank, b) ==> err.None?
      ensures forall x | x in NewEntities(old(cache.entries), cache.entries) :: fresh(x)
      ensures NewBuilt(old(cache.entries), cache.entries, dump)
      ensures NewWithin(old(cache.entries), cache.entries, FieldsReach(e.kind, rec, dump, rank, b))
    {
      var attrs: map<string, Value> := map[];
      var todo := rec.Keys;
      while todo != {}
        invariant todo <= rec.Keys
        invariant attrs.Keys == rec.Keys - todo
        invariant forall f | f in attrs :: ResolvedField(e.kind, f, rec[f], attrs[f], cache.entries)
        invariant forall f | f in attrs :: !IsReadOnly(e.kind, f)
        invariant Extends(old(cache.entries), cache.entries)
        invariant forall x | x in NewEntities(old(cache.entries), cache.entries) :: fresh(x)
        invariant NewBuilt(old(cache.entries), cache.entries, dump)
        invariant NewWithin(old(cache.entries), cache.entries, FieldsReach(e.kind, rec, dump, rank, b))
        decreases todo
      {
        var f :| f in todo;
        ghost var c0 := cache.entries;
        var x := ResolveField(e.kind, f, rec[f], dump, rank, b);
        FieldReachIn(e.kind, rec, f, dump, rank, b);
        LoopStep(old(cache.entries), c0, cache.entries, dump,
                 FieldReach(e.kind, f, rec[f], dump, rank, b), FieldsReach(e.kind, rec, dump, rank, b));
        if x.Err? {
          return Some(x.error);
        }
        FieldsGrow(e.kind, rec, attrs, c0, cache.entries);
        attrs := attrs[f := x.value];
        todo := todo - {f};
      }
      assert e !in NewEntities(old(cache.entries), cache.entries);
      e.attrs := attrs;
      err := None;
    }

    /** The value one `setattr` of the attribute loop stores: the resolved
        field, or for CHILDREN/STRUCTURES a dictionary of resolved children
        (`.items()` of anything else raises AttributeError). Setting a
        read-only property raises AttributeError once the value is made. */
    method ResolveField(kind: Kind, f: string, fv: Value, dump: Value, ghost rank: map<Ref, nat>, ghost b: nat)
      returns (x: Result<Value>)
      requires IsJson(fv) && FieldBelow(kind, f, fv, rank, b)
      requires IsJson(dump) && Ranked(dump, rank)
      modifies cache
      decreases b, 7
      ensures Extends(old(cache.entries), cache.entries)
      ensures x.Ok? ==> !IsReadOnly(kind, f) && ResolvedField(kind, f, fv, x.value, cache.entries)
      ensures IsChildMap(kind, f) && !fv.Dict? ==> x == Err(AttributeError) && cache.entries == old(cache.entries)
      ensures !IsReadOnly(kind, f) && FieldResolvable(kind, f, fv, dump, rank, b) ==> x.Ok?
      ensures IsReadOnly(kind, f) && FieldResolvable(kind, f, fv, dump, rank, b) ==> x == Err(AttributeError)
      ensures forall x | x in NewEntities(old(cache.entries), cache.entries) :: fresh(x)
      ensures NewBuilt(old(cache.entries), cache.entries, dump)
      ensures NewWithin(old(cache.entries), cache.entries, FieldReach(kind, f, fv, dump, rank, b))
    {
      if IsChildMap(kind, f) {
        if !fv.Dict? {
          return Err(AttributeError);
        }
        var sub := ResolveValues(fv.entries, dump, rank, b);
        if sub.Err? {
          return Err(sub.error);
        }
        x := Ok(Dict(sub.value));
      } else {
        x := MakeEntry(fv, dump, rank, b);
        if x.Err? {
          return;
        }
      }
      if IsReadOnly(kind, f) {
        x := Err(AttributeError);
      }
    }

    /** `make_entry` of v as one step of a loop that began when the cache
        was base: what `MakeEntry` promises, composed with what the loop
        keeps since base. The slots filled since base belong to records in
        small; refs covers small and the records v leads to. */
    method MakeEntryStep(v: Value, dump: Value, ghost rank: map<Ref, nat>, ghost b: nat,
                         ghost base: Cache, ghost small: set<Ref>, ghost refs: set<Ref>)
      returns (r: Result<Value>)
      requires IsJson(v) && IsJson(dump) && Ranked(dump, rank) && Below(v, rank, b)
      requires Extends(base, cache.entries) && NewBuilt(base, cache.entries, dump)
      requires NewWithin(base, cache.entries, small) && small <= refs && TokenReach(v, dump, rank, b) <= refs
      modifies cache
      decreases b, 5
      ensures Extends(old(cache.entries), cache.entries)
      ensures TokenKind(v).None? ==> cache.entries == old(cache.entries)
      ensures r.Ok? ==> Resolved(v, r.value, cache.entries)
      ensures Resolvable(v, dump, rank, b) ==> r.Ok?
      ensures r.Err? ==> TokenKind(v).Some? && (CacheKey(v).Some? ==> !Cached(cache.entries, CacheKey(v).value))
      ensures r.Err? && EarlyError(v, dump).Some? ==> r == Err(EarlyError(v, dump).value)
      ensures forall x | x in NewEntities(old(cache.entries), cache.entries) :: fresh(x)
      ensures NewEntities(base, cache.entries) <= NewEntities(base, old(cache.entries)) + NewEntities(old(cache.entries), cache.entries)
      ensures Extends(base, cache.entries) && NewBuilt(base, cache.entries, dump)
      ensures NewWithin(base, cache.entries, refs)
    {
      ghost var c0 := cache.entries;
      NewWithinGrow(base, c0, small, refs);
      r := MakeEntry(v, dump, rank, b);
      LoopStep(base, c0, cache.entries, dump, TokenReach(v, dump, rank, b), refs);
    }

    /** A Property's CHILDREN or STRUCTURES: a new dictionary with the same
        keys whose values are the resolved child tokens. */
    method ResolveValues(m: map<string, Value>, dump: Value, ghost rank: map<Ref, nat>, ghost b: nat)
      returns (r: Result<map<string, Value>>)
      requires forall c | c in m :: IsJson(m[c]) && Below(m[c], rank, b)
      requires IsJson(dump) && Ranked(dump, rank)
      modifies cache
      decreases b, 6
      ensures Extends(old(cache.entries), cache.entries)
      ensures r.Ok? ==> r.value.Keys == m.Keys && forall c | c in m :: Resolved(m[c], r.value[c], cache.entries)
      ensures (forall c | c in m :: Resolvable(m[c], dump, rank, b)) ==> r.Ok?
      ensures forall x | x in NewEntities(old(cache.entries), cache.entries) :: fresh(x)
      ensures NewBuilt(old(cache.entries), cache.entries, dump)
      ensures NewWithin(old(cache.entries), cache.entries, ValuesReach(m, dump, rank, b))
    {
      var out: map<string, Value> := map[];
      var todo := m.Keys;
      while todo != {}
        invariant todo <= m.Keys
        invariant out.Keys == m.Keys - todo
        invariant forall c | c in out :: Resolved(m[c], out[c], cache.entries)
        invariant Extends(old(cache.entries), cache.entries)
        invariant forall x | x in NewEntities(old(cache.entries), cache.entries) :: fresh(x)
        invariant NewBuilt(old(cache.entries), cache.entries, dump)
        invariant NewWithin(old(cache.entries), cache.entries, ValuesReach(m, dump, rank, b))
        decreases todo
      {
        var c :| c in todo;
        ghost var c0 := cache.entries;
        ValueReachIn(m, c, dump, rank, b);
        var x := MakeEntryStep(m[c], dump, rank, b, old(cache.entries),
                               ValuesReach(m, dump, rank, b), ValuesReach(m, dump, rank, b));
        if x.Err? {
          return Err(x.error);
        }
        ResolvedValuesGrow(m, out, c0, cache.entries);
        out := out[c := x.value];
        todo := todo - {c};
      }
      r := Ok(out);
    }

    /** The `cache_state` manifest: every class name of the cache with the
        list of its cached ids. */
    method CacheState() returns (state: map<string, seq<Id>>)
      ensures state.Keys == cache.entries.Keys
      ensures forall t | t in state :: ListsOnce(state[t], cache.entries[t].Keys)
    {
      state := map[];
      var todo := cache.entries.Keys;
      while todo != {}
        invariant todo <= cache.entries.Keys
        invariant state.Keys == cache.entries.Keys - todo
        invariant forall t | t in state :: ListsOnce(state[t], cache.entries[t].Keys)
        decreases todo
      {
        var t :| t in todo;
        var ids := SetToSeq(cache.entries[t].Keys);
        state := state[t := ids];
        todo := todo - {t};
      }
    }

    /** The body `_query_db_entry_` posts: the query's parameters with the
        cache manifest and the token added. */
    method Payload(queryData: map<string, Value>) returns (payload: map<string, Value>)
      ensures Sent(payload, queryData, token, cache.entries)
    {
      var state := CacheState();
      ManifestValueLists(state, cache.entries);
      payload := queryData["cache_state" := ManifestValue(state)]["token" := Str(token)];
    }

    /** One pass of the loop over `data_dump` that began when the cache was
        base: `make_entry` of the next item, appended to the results when it
        succeeds. */
    method AppendItem(src: seq<Value>, items: seq<Value>, dump: Value, ghost rank: map<Ref, nat>, ghost b: nat,
                      ghost base: Cache)
      returns (items': seq<Value>, err: Option<Error>)
      requires |items| < |src| && IsJson(src[|items|]) && Below(src[|items|], rank, b)
      requires IsJson(dump) && Ranked(dump, rank)
      requires forall j | 0 <= j < |items| :: Resolved(src[j], items[j], cache.entries)
      requires Extends(base, cache.entries) && NewBuilt(base, cache.entries, dump)
      requires NewWithin(base, cache.entries, ItemsReach(src, |items|, dump, rank, b))
      modifies cache
      ensures err.None? ==> |items'| == |items| + 1
      ensures err.Some? ==> items' == items && FailsWith(src[|items|], err.value, dump, rank, b, cache.entries)
      ensures forall j | 0 <= j < |items'| :: Resolved(src[j], items'[j], cache.entries)
      ensures forall x | x in NewEntities(old(cache.entries), cache.entries) :: fresh(x)
      ensures NewEntities(base, cache.entries) <= NewEntities(base, old(cache.entries)) + NewEntities(old(cache.entries), cache.entries)
      ensures Extends(base, cache.entries) && NewBuilt(base, cache.entries, dump)
      ensures NewWithin(base, cache.entries, ItemsReach(src, |items| + 1, dump, rank, b))
    {
      ghost var c0 := cache.entries;
      var n := |items|;
      ItemReachIn(src, n, dump, rank, b);
      var x := MakeEntryStep(src[n], dump, rank, b, base, ItemsReach(src, n, dump, rank, b), ItemsReach(src, n + 1, dump, rank, b));
      if x.Err? {
        return items, Some(x.error);
      }
      ResolvedItemsGrow(src, items, c0, cache.entries);
      return items + [x.value], None;
    }

    /** The loop over `data_dump`: `make_entry` of every item, in order,
        until one raises. The items made before a failing one are returned
        with its error, and their objects stay cached. */
    method MakeEntries(src: seq<Value>, dump: Value, ghost rank: map<Ref, nat>, ghost b: nat)
      returns (items: seq<Value>, err: Option<Error>)
      requires forall j | 0 <= j < |src| :: IsJson(src[j]) && Below(src[j], rank, b)
      requires IsJson(dump) && Ranked(dump, rank)
      modifies cache
      ensures Extends(old(cache.entries), cache.entries)
      ensures |items| <= |src| && forall j | 0 <= j < |items| :: Resolved(src[j], items[j], cache.entries)
      ensures err.None? ==> |items| == |src|
      ensures err.Some? ==> |items| < |src| && FailsWith(src[|items|], err.value, dump, rank, b, cache.entries)
      ensures forall x | x in NewEntities(old(cache.entries), cache.entries) :: fresh(x)
      ensures NewBuilt(old(cache.entries), cache.entries, dump)
      ensures err.None? ==> NewWithin(old(cache.entries), cache.entries, ItemsReach(src, |src|, dump, rank, b))
      ensures err.Some? ==> NewWithin(old(cache.entries), cache.entries, ItemsReach(src, |items| + 1, dump, rank, b))
    {
      items := [];
      while |items| < |src|
        invariant |items| <= |src|
        invariant forall j | 0 <= j < |items| :: Resolved(src[j], items[j], cache.entries)
        invariant Extends(old(cache.entries), cache.entries)
        invariant forall x | x in NewEntities(old(cache.entries), cache.entries) :: fresh(x)
        invariant NewBuilt(old(cache.entries), cache.entries, dump)
        invariant NewWithin(old(cache.entries), cache.entries, ItemsReach(src, |items|, dump, rank, b))
        decreases |src| - |items|
      {
        var failure;
        items, failure := AppendItem(src, items, dump, rank, b, old(cache.entries));
        if failure.Some? {
          return items, failure;
        }
      }
      err := None;
    }

    /** `_query_db_entry_` without the transport: the request it would
        post, and what it makes of the decoded response. */
    method QueryDbEntry(queryData: map<string, Value>, endpoint: string, response: Value,
                        ghost rank: map<Ref, nat>, ghost b: nat)
      returns (requestUrl: string, payload: map<string, Value>, outcome: Outcome)
      requires IsJson(response) && ResponseRanked(response, rank, b)
      modifies cache
      ensures requestUrl == url + endpoint
      ensures Sent(payload, queryData, token, old(cache.entries))
      ensures Answered(response, outcome, old(cache.entries), cache.entries, rank, b)
      ensures forall x | x in NewEntities(old(cache.entries), cache.entries) :: fresh(x)
    {
      payload := Payload(queryData);
      requestUrl := url + endpoint;
      if !response.Dict? {
        return requestUrl, payload, Raised(TypeError);
      }
      if "data_dump" !in response.entries || "cache_dump" !in response.entries {
        return requestUrl, payload, NoResult;
      }
      var data := response.entries["data_dump"];
      var dump := response.entries["cache_dump"];
      var src: seq<Value>;
      var keys: seq<string> := [];
      if data.List? {
        src := data.items;
      } else if data.Str? {
        src := seq(|data.s|, j requires 0 <= j < |data.s| => Str([data.s[j]]));
      } else if data.Dict? {
        keys := SetToSeq(data.entries.Keys);
        src := KeyValues(keys);
      } else {
        return requestUrl, payload, Raised(TypeError);
      }
      if !data.List? {
        PlainItems(src, dump, rank, b);
      }
      var made, failure := MakeEntries(src, dump, rank, b);
      if failure.Some? {
        assert data.List?;
        ListFailed(response, made, failure.value, old(cache.entries), cache.entries, rank, b);
        return requestUrl, payload, Failure(failure.value);
      }
      if data.List? {
        ListMade(response, made, old(cache.entries), cache.entries, rank, b);
      } else {
        assert made == src;
        NonListMade(response, made, keys, old(cache.entries), cache.entries, rank, b);
      }
      outcome := Entries(made);
    }

    method QueryComparators(propertyTypeName: Value, comparatorName: Value, response: Value,
                            ghost rank: map<Ref, nat>, ghost b: nat)
      returns (requestUrl: string, payload: map<string, Value>, outcome: Outcome)
      requires IsJson(response) && ResponseRanked(response, rank, b)
      modifies cache
      ensures requestUrl == url + ComparatorUrl
      ensures Sent(payload, ComparatorsParams(propertyTypeName, comparatorName), token, old(cache.entries))
      ensures Answered(response, outcome, old(cache.entries), cache.entries, rank, b)
      ensures forall x | x in NewEntities(old(cache.entries), cache.entries) :: fresh(x)
    {
      requestUrl, payload, outcome := QueryDbEntry(ComparatorsParams(propertyTypeName, comparatorName), ComparatorUrl, response, rank, b);
    }

    method QueryGenerics(strukturbericht: Value, prototypeName: Value, response: Value,
                         ghost rank: map<Ref, nat>, ghost b: nat)
      returns (requestUrl: string, payload: map<string, Value>, outcome: Outcome)
      requires IsJson(response) && ResponseRanked(response, rank, b)
      modifies cache
      ensures requestUrl == url + GenericUrl
      ensures Sent(payload, GenericsParams(strukturbericht, prototypeName), token, old(cache.entries))
      ensures Answered(response, outcome, old(cache.entries), cache.entries, rank, b)
      ensures forall x | x in NewEntities(old(cache.entries), cache.entries) :: fresh(x)
    {
      requestUrl, payload, outcome := QueryDbEntry(GenericsParams(strukturbericht, prototypeName), GenericUrl, response, rank, b);
    }

    method QueryProperties(propertyTypeName: Value, propertyName: Value, composition: Value,
                           strukturbericht: Value, prototypeName: Value, propertyId: Value,
                           calculatorName: Value, visibleForComparisonOnly: Value, limit: Value,
                           response: Value, ghost rank: map<Ref, nat>, ghost b: nat)
      returns (requestUrl: string, payload: map<string, Value>, outcome: Outcome)
      requires IsJson(response) && ResponseRanked(response, rank, b)
      modifies cache
      ensures requestUrl == url + PropertiesUrl
      ensures Sent(payload, PropertiesParams(propertyTypeName, propertyName, composition, strukturbericht,
                                             prototypeName, propertyId, calculatorName,
                                             visibleForComparisonOnly, limit), token, old(cache.entries))
      ensures Answered(response, outcome, old(cache.entries), cache.entries, rank, b)
      ensures forall x | x in NewEntities(old(cache.entries), cache.entries) :: fresh(x)
    {
      var params := PropertiesParams(propertyTypeName, propertyName, composition, strukturbericht,
                                     prototypeName, propertyId, calculatorName, visibleForComparisonOnly, limit);
      requestUrl, payload, outcome := QueryDbEntry(params, PropertiesUrl, response, rank, b);
    }

    method QueryPropertyTypes(propertyTypeName: Value, response: Value, ghost rank: map<Ref, nat>, ghost b: nat)
      returns (requestUrl: string, payload: map<string, Value>, outcome: Outcome)
      requires IsJson(response) && ResponseRanked(response, rank, b)
      modifies cache
      ensures requestUrl == url + PropertyTypeUrl
      ensures Sent(payload, PropertyTypesParams(propertyTypeName), token, old(cache.entries))
      ensures Answered(response, outcome, old(cache.entries), cache.entries, rank, b)
      ensures forall x | x in NewEntities(old(cache.entries), cache.entries) :: fresh(x)
    {
      requestUrl, payload, outcome := QueryDbEntry(PropertyTypesParams(propertyTypeName), PropertyTypeUrl, response, rank, b);
    }

    method QueryCalculatorTypes(calculatorTypeName: Value, response: Value, ghost rank: map<Ref, nat>, ghost b: nat)
      returns (requestUrl: string, payload: map<string, Value>, outcome: Outcome)
      requires IsJson(response) && ResponseRanked(response, rank, b)
      modifies cache
      ensures requestUrl == url + CalculatorTypeUrl
      ensures Sent(payload, CalculatorTypesParams(calculatorTypeName), token, old(cache.entries))
      ensures Answered(response, outcome, old(cache.entries), cache.entries, rank, b)
      ensures forall x | x in NewEntities(old(cache.entries), cache.entries) :: fresh(x)
    {
      requestUrl, payload, outcome := QueryDbEntry(CalculatorTypesParams(calculatorTypeName), CalculatorTypeUrl, response, rank, b);
    }
  }
}
