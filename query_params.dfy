/** The request parameters the `query_*` methods of
    src/structdbrest/query.py send: one `param_*` entry per filter. */
module QueryParams {
  import opened DataClasses

  /** `x if x else ""`: a falsy filter is sent as the empty string. */
  function OrEmpty(x: Value): (r: Value)
    ensures r != Null && (Truthy(r) <==> Truthy(x))
    ensures r == x || r == Str("")
    ensures Truthy(x) ==> r == x
    ensures !Truthy(x) ==> r == Str("")
  {
    if Truthy(x) then x else Str("")
  }

  /** `x if x is not None else ""`: only None is replaced, so 0 and False
      are sent as they are. */
  function OrEmptyIfNone(x: Value): (r: Value)
    ensures r != Null && (r == x || r == Str(""))
    ensures x != Null ==> r == x
  {
    if x != Null then x else Str("")
  }

  /** The value a filter reaches the server as: the caller's value when it
      is truthy, the empty string otherwise. */
  predicate SentAsFilter(p: map<string, Value>, k: string, x: Value) {
    k in p && p[k] == OrEmpty(x)
  }

  /** The value an id-like parameter reaches the server as: the caller's
      value unless it is None. */
  predicate SentUnlessNone(p: map<string, Value>, k: string, x: Value) {
    k in p && p[k] == OrEmptyIfNone(x)
  }

  /** No parameter a builder fills from a filter is None. */
  predicate NoNone(p: map<string, Value>, except: set<string>) {
    forall k :: k in p && k !in except ==> p[k] != Null
  }

  function ComparatorsParams(propertyTypeName: Value, comparatorName: Value): (p: map<string, Value>)
    ensures p.Keys == {"param_type", "param_name"}
    ensures SentAsFilter(p, "param_type", propertyTypeName)
    ensures SentAsFilter(p, "param_name", comparatorName)
    ensures NoNone(p, {})
  {
    map["param_type" := OrEmpty(propertyTypeName), "param_name" := OrEmpty(comparatorName)]
  }

  function GenericsParams(strukturbericht: Value, prototypeName: Value): (p: map<string, Value>)
    ensures p.Keys == {"param_prototype_strukturbericht", "param_prototype_name"}
    ensures SentAsFilter(p, "param_prototype_strukturbericht", strukturbericht)
    ensures SentAsFilter(p, "param_prototype_name", prototypeName)
    ensures NoNone(p, {})
  {
    map["param_prototype_strukturbericht" := OrEmpty(strukturbericht),
        "param_prototype_name" := OrEmpty(prototypeName)]
  }

  /** The parameter names `query_properties` sends. */
  const PropertiesKeys: set<string> :=
    {"param_type", "param_property_name", "param_composition",
     "param_prototype_strukturbericht", "param_prototype_name",
     "param_property_id", "param_calculator_name",
     "param_visible_for_comparison_only", "param_limit"}

  /** The only builder that sends a limit; the limit is passed as given,
      even None. No builder sends an offset. What each parameter holds is
      stated by `PropertiesFiltersSent`, `PropertiesIdsSent` and
      `PropertiesLimitSent`. */
  function PropertiesParams(propertyTypeName: Value, propertyName: Value, composition: Value,
                            strukturbericht: Value, prototypeName: Value, propertyId: Value,
                            calculatorName: Value, visibleForComparisonOnly: Value,
                            limit: Value): (p: map<string, Value>)
    ensures p.Keys == PropertiesKeys
  {
    map k | k in PropertiesKeys ::
      if k == "param_limit" then limit
      else PropertiesFilter(k, propertyTypeName, propertyName, composition, strukturbericht,
                            prototypeName, propertyId, calculatorName, visibleForComparisonOnly)
  }

  /** The value `query_properties` sends under parameter k, other than the
      limit: never None. */
  function PropertiesFilter(k: string, propertyTypeName: Value, propertyName: Value, composition: Value,
                            strukturbericht: Value, prototypeName: Value, propertyId: Value,
                            calculatorName: Value, visibleForComparisonOnly: Value): (v: Value)
    ensures v != Null
  {
    if k == "param_property_id" then OrEmptyIfNone(propertyId)
    else if k == "param_visible_for_comparison_only" then OrEmptyIfNone(visibleForComparisonOnly)
    else if k == "param_type" then OrEmpty(propertyTypeName)
    else if k == "param_property_name" then OrEmpty(propertyName)
    else if k == "param_composition" then OrEmpty(composition)
    else if k == "param_prototype_strukturbericht" then OrEmpty(strukturbericht)
    else if k == "param_prototype_name" then OrEmpty(prototypeName)
    else OrEmpty(calculatorName)
  }

  /** The six text filters of `query_properties` are sent as given when
      truthy and as "" otherwise. */
  lemma PropertiesFiltersSent(propertyTypeName: Value, propertyName: Value, composition: Value,
                              strukturbericht: Value, prototypeName: Value, propertyId: Value,
                              calculatorName: Value, visibleForComparisonOnly: Value, limit: Value)
    ensures var p := PropertiesParams(propertyTypeName, propertyName, composition, strukturbericht,
                                      prototypeName, propertyId, calculatorName,
                                      visibleForComparisonOnly, limit);
      && SentAsFilter(p, "param_type", propertyTypeName)
      && SentAsFilter(p, "param_property_name", propertyName)
      && SentAsFilter(p, "param_composition", composition)
      && SentAsFilter(p, "param_prototype_strukturbericht", strukturbericht)
      && SentAsFilter(p, "param_prototype_name", prototypeName)
      && SentAsFilter(p, "param_calculator_name", calculatorName)
  {
  }

  /** The property id and the visibility flag are replaced only when None,
      so 0 and False are sent as they are. */
  lemma PropertiesIdsSent(propertyTypeName: Value, propertyName: Value, composition: Value,
                          strukturbericht: Value, prototypeName: Value, propertyId: Value,
                          calculatorName: Value, visibleForComparisonOnly: Value, limit: Value)
    ensures var p := PropertiesParams(propertyTypeName, propertyName, composition, strukturbericht,
                                      prototypeName, propertyId, calculatorName,
                                      visibleForComparisonOnly, limit);
      && SentUnlessNone(p, "param_property_id", propertyId)
      && SentUnlessNone(p, "param_visible_for_comparison_only", visibleForComparisonOnly)
  {
  }

  /** The limit is sent as given, even None, and it is the only parameter
      that can be None. */
  lemma PropertiesLimitSent(propertyTypeName: Value, propertyName: Value, composition: Value,
                            strukturbericht: Value, prototypeName: Value, propertyId: Value,
                            calculatorName: Value, visibleForComparisonOnly: Value, limit: Value)
    ensures var p := PropertiesParams(propertyTypeName, propertyName, composition, strukturbericht,
                                      prototypeName, propertyId, calculatorName,
                                      visibleForComparisonOnly, limit);
      && p["param_limit"] == limit
      && NoNone(p, {"param_limit"})
  {
  }

  function PropertyTypesParams(propertyTypeName: Value): (p: map<string, Value>)
    ensures p.Keys == {"param_propertytype_name"}
    ensures SentAsFilter(p, "param_propertytype_name", propertyTypeName)
    ensures NoNone(p, {})
  {
    map["param_propertytype_name" := OrEmpty(propertyTypeName)]
  }

  function CalculatorTypesParams(calculatorTypeName: Value): (p: map<string, Value>)
    ensures p.Keys == {"param_calculator_type_name"}
    ensures SentAsFilter(p, "param_calculator_type_name", calculatorTypeName)
    ensures NoNone(p, {})
  {
    map["param_calculator_type_name" := OrEmpty(calculatorTypeName)]
  }

  /** The default arguments of `query_properties` (everything None, the
      visibility flag True, limit 100) send empty filters, True and 100. */
  lemma PropertiesDefaults()
    ensures var p := PropertiesParams(Null, Null, Null, Null, Null, Null, Null, Bool(true), Int(100));
      && (forall k :: k in p && k !in {"param_visible_for_comparison_only", "param_limit"} ==> p[k] == Str(""))
      && p["param_visible_for_comparison_only"] == Bool(true)
      && p["param_limit"] == Int(100)
  {
  }

  /** Zero and False survive as a property id and a visibility flag, but
      are dropped (sent as "") as any other filter. */
  lemma FalsyIdIsKept()
    ensures var p := PropertiesParams(Int(0), Null, Null, Null, Null, Int(0), Null, Bool(false), Int(100));
      && p["param_type"] == Str("")
      && p["param_property_id"] == Int(0)
      && p["param_visible_for_comparison_only"] == Bool(false)
  {
  }
}
