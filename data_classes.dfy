/** The values the client handles and the entity classes of
    src/structdbrest/data_classes.py. A decoded JSON document and a
    materialised entity graph are both `Value`s; an entity is an object
    (`Entity`) whose attributes are set one by one after it is created. */
module DataClasses {

  /** The Python exceptions the core can raise. */
  datatype Error = KeyError | ValueError | TypeError | AttributeError

  datatype Result<T> = Ok(value: T) | Err(error: Error)

  datatype Option<T> = None | Some(value: T)

  /** A Python value as far as the client sees it: JSON data, and the
      entity objects the client builds from it. `Null` is Python's None. */
  datatype Value =
    | Null
    | Bool(b: bool)
    | Int(i: int)
    | Str(s: string)
    | List(items: seq<Value>)
    | Dict(entries: map<string, Value>)
    | Obj(ref: Entity)

  /** Values that `json.loads` can produce: no entity objects anywhere. */
  predicate IsJson(v: Value) {
    match v
    case Obj(_) => false
    case List(items) => forall i :: 0 <= i < |items| ==> IsJson(items[i])
    case Dict(entries) => forall k :: k in entries ==> IsJson(entries[k])
    case _ => true
  }

  /** Python truthiness. The entity classes define neither `__bool__` nor
      `__len__`, so every entity is true. */
  predicate Truthy(v: Value)
    ensures !Truthy(v) <==> v in {Null, Bool(false), Int(0), Str(""), List([]), Dict(map[])}
  {
    match v
    case Null => false
    case Bool(b) => b
    case Int(i) => i != 0
    case Str(s) => s != ""
    case List(items) => items != []
    case Dict(entries) => entries != map[]
    case Obj(_) => true
  }

  /** The six entity classes the client materialises. */
  datatype Kind = Property | StructureEntry | GenericEntry | PropertyType | ComparisonType | CalculatorType
  {
    /** The class name, which is also the `__entry_type` the server sends. */
    function Name(): string {
      match this
      case Property => "Property"
      case StructureEntry => "StructureEntry"
      case GenericEntry => "GenericEntry"
      case PropertyType => "PropertyType"
      case ComparisonType => "ComparisonType"
      case CalculatorType => "CalculatorType"
    }
  }

  /** The kind whose class name is s, if any. */
  function KindNamed(s: string): (k: Option<Kind>)
    ensures k.Some? ==> k.value.Name() == s
    ensures forall kind: Kind :: kind.Name() == s ==> k == Some(kind)
  {
    if s == "Property" then Some(Property)
    else if s == "StructureEntry" then Some(StructureEntry)
    else if s == "GenericEntry" then Some(GenericEntry)
    else if s == "PropertyType" then Some(PropertyType)
    else if s == "ComparisonType" then Some(ComparisonType)
    else if s == "CalculatorType" then Some(CalculatorType)
    else None
  }

  /** An instance of one of the entity classes. The classes have no
      constructor arguments and no instance attributes of their own; the
      materialiser adds one attribute per record field with `setattr`. */
  class Entity {
    const kind: Kind
    var attrs: map<string, Value>

    constructor (kind: Kind)
      ensures this.kind == kind && attrs == map[]
    {
      this.kind := kind;
      attrs := map[];
    }
  }

  function DigitChar(d: nat): char
    requires d < 10
  {
    "0123456789"[d]
  }

  /** The decimal digits of n, most significant first, without leading zeros. */
  function NatToString(n: nat): (s: string)
    ensures s != [] && forall i :: 0 <= i < |s| ==> '0' <= s[i] <= '9'
  {
    if n < 10 then [DigitChar(n)] else NatToString(n / 10) + [DigitChar(n % 10)]
  }

  /** Python's `str` of an int. */
  function IntToString(i: int): (r: string)
    ensures r != [] && (r[0] == '-' <==> i < 0)
  {
    if i < 0 then "-" + NatToString(-i) else NatToString(i)
  }

  /** The number a string of decimal digits denotes. */
  function DecimalValue(s: string): nat
    requires AllDigits(s)
  {
    if s == [] then 0 else DecimalValue(s[..|s| - 1]) * 10 + (s[|s| - 1] as int - '0' as int)
  }

  lemma {:induction false} DecimalValueOfNatToString(n: nat)
    ensures DecimalValue(NatToString(n)) == n
  {
    if n >= 10 {
      var s := NatToString(n);
      assert s[..|s| - 1] == NatToString(n / 10);
      DecimalValueOfNatToString(n / 10);
    }
  }

  predicate AllDigits(s: string) {
    forall i :: 0 <= i < |s| ==> '0' <= s[i] <= '9'
  }

  /** The strings `IntToString` writes: digits, with an optional leading '-'. */
  predicate IntText(s: string) {
    AllDigits(s) || (s != [] && s[0] == '-' && AllDigits(s[1..]))
  }

  /** Python's `int` of a string written by `IntToString`. */
  function ParseInt(s: string): int
    requires IntText(s)
  {
    if s != [] && s[0] == '-' then -(DecimalValue(s[1..]) as int) else DecimalValue(s)
  }

  /** Parsing the printed integer gives it back. */
  lemma {:induction false} IntToStringRoundTrip(i: int)
    ensures IntText(IntToString(i)) && ParseInt(IntToString(i)) == i
  {
    if i < 0 {
      NegativeRoundTrip(i);
    } else {
      NonNegativeRoundTrip(i);
    }
  }

  lemma {:induction false} NonNegativeRoundTrip(i: int)
    requires i >= 0
    ensures IntText(IntToString(i)) && ParseInt(IntToString(i)) == i
  {
    var s := NatToString(i);
    assert s == IntToString(i);
    assert AllDigits(s) && s[0] != '-';
    DecimalValueOfNatToString(i);
    assert ParseInt(s) == DecimalValue(s);
  }

  lemma {:induction false} NegativeRoundTrip(i: int)
    requires i < 0
    ensures IntText(IntToString(i)) && ParseInt(IntToString(i)) == i
  {
    var x := NatToString(-i);
    var s := IntToString(i);
    assert s == "-" + x;
    DecimalValueOfNatToString(-i);
    ParseNegated(x);
    assert ParseInt(s) == -(DecimalValue(x) as int);
  }

  /** A '-' before a string of digits negates its value. */
  lemma ParseNegated(x: string)
    requires AllDigits(x)
    ensures IntText("-" + x) && ParseInt("-" + x) == -(DecimalValue(x) as int)
  {
    var s := "-" + x;
    assert s[0] == '-' && s[1..] == x;
  }

  /** Distinct integers are printed differently, so distinct integer ids
      never look up the same record. */
  lemma IntToStringInjective(a: int, b: int)
    requires IntToString(a) == IntToString(b)
    ensures a == b
  {
    IntToStringRoundTrip(a);
    IntToStringRoundTrip(b);
  }

  predicate IsScalar(v: Value) {
    v.Null? || v.Bool? || v.Int? || v.Str?
  }

  /** Python's `str` (and hence `format`) of a scalar value. */
  function Display(v: Value): (r: string)
    requires IsScalar(v)
    ensures v.Int? ==> IntText(r) && ParseInt(r) == v.i
    ensures v.Str? ==> r == v.s
    ensures v.Bool? ==> (r == "True" <==> v.b) && (r == "False" <==> !v.b)
  {
    match v
    case Null => "None"
    case Bool(b) => if b then "True" else "False"
    case Int(i) => IntToStringRoundTrip(i); IntToString(i)
    case Str(s) => s
  }

  /** Python's `getattr(v, name)` for the attributes the `__repr__` methods
      read: an entity's own attribute, or AttributeError. */
  function GetAttr(v: Value, name: string): (r: Result<Value>)
    reads if v.Obj? then {v.ref} else {}
    ensures r.Ok? <==> v.Obj? && name in v.ref.attrs
    ensures r.Ok? ==> r.value == v.ref.attrs[name]
    ensures r.Err? ==> r.error == AttributeError
  {
    if v.Obj? && name in v.ref.attrs then Ok(v.ref.attrs[name]) else Err(AttributeError)
  }

  /** `Property.VALUE` and `Property.value`: both read `_VALUE`. */
  function PropertyValue(e: Entity): (r: Result<Value>)
    reads e
    requires e.kind == Property
    ensures r.Ok? <==> "_VALUE" in e.attrs
    ensures r.Ok? ==> r.value == e.attrs["_VALUE"]
    ensures r.Err? ==> r.error == AttributeError
  {
    GetAttr(Obj(e), "_VALUE")
  }

  /** The entity a Property's `TYPE` attribute refers to, if any. */
  function TypeObjects(e: Entity): set<Entity>
    reads e
  {
    if "TYPE" in e.attrs && e.attrs["TYPE"].Obj? then {e.attrs["TYPE"].ref} else {}
  }

  /** The type name a Property's `__repr__` prints: "" for a None `TYPE`,
      `TYPE.NAME` otherwise. */
  function PropertyTypeName(e: Entity): Result<Value>
    reads e, TypeObjects(e)
  {
    if "TYPE" !in e.attrs then Err(AttributeError)
    else if e.attrs["TYPE"] == Null then Ok(Str(""))
    else GetAttr(e.attrs["TYPE"], "NAME")
  }

  /** Every attribute a `__repr__` would print is a scalar. */
  predicate Printable(e: Entity)
    reads e, TypeObjects(e)
  {
    && ("id" in e.attrs ==> IsScalar(e.attrs["id"]))
    && ("COMPOSITION" in e.attrs ==> IsScalar(e.attrs["COMPOSITION"]))
    && ("NAME" in e.attrs ==> IsScalar(e.attrs["NAME"]))
    && (e.kind == Property && PropertyTypeName(e).Ok? ==> IsScalar(PropertyTypeName(e).value))
  }

  /** The "<Kind #body>" frame every formatted `__repr__` shares. */
  function Framed(kind: Kind, body: string): string {
    "<" + kind.Name() + " #" + body + ">"
  }

  /** The attribute a `__repr__` prints after the id: COMPOSITION for a
      StructureEntry or GenericEntry, NAME for the other classes. */
  function SecondField(kind: Kind): string {
    if kind in {StructureEntry, GenericEntry} then "COMPOSITION" else "NAME"
  }

  /** The id a `__repr__` prints: a StructureEntry or GenericEntry shows a
      None id as -1. */
  function ShownId(kind: Kind, id: Value): Value {
    if kind in {StructureEntry, GenericEntry} && id == Null then Int(-1) else id
  }

  /** What a formatted `__repr__` prints between "#" and ">". */
  function ReprFields(e: Entity): string
    reads e, TypeObjects(e)
    requires Printable(e) && "id" in e.attrs && SecondField(e.kind) in e.attrs
    requires e.kind == Property ==> PropertyTypeName(e).Ok? && "COMPOSITION" in e.attrs
  {
    var a := e.attrs;
    if e.kind == Property then
      Display(a["id"]) + ":" + Display(PropertyTypeName(e).value) + ":" + Display(a["COMPOSITION"]) + ":" + Display(a["NAME"])
    else
      Display(ShownId(e.kind, a["id"])) + ":" + Display(a[SecondField(e.kind)])
  }

  /** The `__repr__` of an entity. Property falls back to the bare class
      name when an attribute it reads is missing; the other classes let the
      AttributeError through. */
  function Repr(e: Entity): (r: Result<string>)
    reads e, TypeObjects(e)
    requires Printable(e)
    ensures e.kind == Property ==> r.Ok?
    ensures r.Err? <==> e.kind != Property && ("id" !in e.attrs || SecondField(e.kind) !in e.attrs)
    ensures r.Ok? ==> r.value == e.kind.Name() || exists body :: r.value == Framed(e.kind, body)
    ensures e.kind != Property && r.Ok? ==>
      r.value == Framed(e.kind, Display(ShownId(e.kind, e.attrs["id"])) + ":" + Display(e.attrs[SecondField(e.kind)]))
    ensures e.kind == Property && PropertyTypeName(e).Ok? && "id" in e.attrs && "COMPOSITION" in e.attrs && "NAME" in e.attrs ==>
      r.value == Framed(Property, Display(e.attrs["id"]) + ":" + Display(PropertyTypeName(e).value) + ":"
                                  + Display(e.attrs["COMPOSITION"]) + ":" + Display(e.attrs["NAME"]))
  {
    var a := e.attrs;
    if e.kind == Property then
      if PropertyTypeName(e).Err? || "id" !in a || "COMPOSITION" !in a || "NAME" !in a then Ok("Property")
      else Ok(Framed(e.kind, ReprFields(e)))
    else if "id" !in a || SecondField(e.kind) !in a then Err(AttributeError)
    else Ok(Framed(e.kind, ReprFields(e)))
  }

  /** A Property prints its bare class name exactly when one of the
      attributes its `__repr__` reads is missing (or `TYPE` is neither None
      nor an object with a `NAME`). */
  lemma PropertyReprFallback(e: Entity)
    requires e.kind == Property && Printable(e)
    ensures Repr(e) == Ok("Property") <==> (PropertyTypeName(e).Err? || "id" !in e.attrs || "COMPOSITION" !in e.attrs || "NAME" !in e.attrs)
  {
    if !(PropertyTypeName(e).Err? || "id" !in e.attrs || "COMPOSITION" !in e.attrs || "NAME" !in e.attrs) {
      var body :| Repr(e).value == Framed(Property, body);
      assert Repr(e).value[0] == '<' != "Property"[0];
    }
  }

  /** A StructureEntry or GenericEntry with a None id prints as one with id
      -1: the `__repr__` does not tell the two apart. */
  lemma NoneIdPrintsAsMinusOne(e: Entity, f: Entity)
    requires e.kind in {StructureEntry, GenericEntry} && f.kind == e.kind
    requires Printable(e) && Printable(f)
    requires e.attrs.Keys == f.attrs.Keys && "id" in e.attrs && "COMPOSITION" in e.attrs
    requires e.attrs["id"] == Null && f.attrs["id"] == Int(-1)
    requires e.attrs["COMPOSITION"] == f.attrs["COMPOSITION"]
    ensures Repr(e) == Repr(f) && Repr(e).Ok?
  {
  }

  /** A Property with a None TYPE prints an empty type name. */
  lemma PropertyReprExample(e: Entity)
    requires e.kind == Property
    requires e.attrs == map["id" := Int(7), "TYPE" := Null, "COMPOSITION" := Str("Al-1"), "NAME" := Str("E0")]
    ensures Repr(e) == Ok("<Property #7::Al-1:E0>")
  {
    assert PropertyTypeName(e) == Ok(Str(""));
    ExampleFields();
    ExampleFramed();
  }

  lemma ExampleFields()
    ensures Display(Int(7)) + ":" + Display(Str("")) + ":" + Display(Str("Al-1")) + ":" + Display(Str("E0")) == "7::Al-1:E0"
  {
    assert IntToString(7) == "7";
  }

  lemma ExampleFramed()
    ensures Framed(Property, "7::Al-1:E0") == "<Property #7::Al-1:E0>"
  {
  }
}
