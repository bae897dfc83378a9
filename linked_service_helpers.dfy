/**
 * The expand/flatten helpers of the linked custom service resource: the
 * integration runtime reference in both directions, the promotion of
 * string parameters to parameter specifications, and the two conversions
 * between string maps and maps of dynamically typed values. A nil map or
 * pointer is None; dynamically typed values are decoded JSON values.
 */
module LinkedServiceHelpers {
  import opened Wrappers
  import opened JsonValues

  /** One `integration_runtime` block of the configuration. */
  datatype IntegrationRuntime = IntegrationRuntime(name: string, parameters: Option<map<string, string>>)

  const IntegrationRuntimeReferenceType: string := "IntegrationRuntimeReference"

  /** The reference Create sends (`linkedservices.IntegrationRuntimeReference`). */
  datatype IntegrationRuntimeReference =
    IntegrationRuntimeReference(referenceName: string, referenceType: string,
                                parameters: Option<map<string, Json>>)

  /** The reference Read decodes into (`datafactory.IntegrationRuntimeReference`), whose name is a pointer. */
  datatype DecodedRuntimeReference =
    DecodedRuntimeReference(referenceName: Option<string>, parameters: Option<map<string, Json>>)

  /** `linkedservices.ParameterType`. */
  datatype ParameterType = Array | Bool | Float | Int | Object | SecureString | String

  function ParameterTypeName(t: ParameterType): (name: string)
  {
    match t
    case Array => "Array"
    case Bool => "Bool"
    case Float => "Float"
    case Int => "Int"
    case Object => "Object"
    case SecureString => "SecureString"
    case String => "String"
  }

  datatype ParameterSpecification = ParameterSpecification(defaultValue: string, parameterType: ParameterType)

  // ---------------------------------------------------------------------------
  // stringMapToInterfaceMap and interfaceMapToStringMap

  /** What stringMapToInterfaceMap computes: nil stays nil, every value becomes a string value. */
  function AsInterfaceMap(m: Option<map<string, string>>): (r: Option<map<string, Json>>)
    ensures r.Some? <==> m.Some?
    ensures m.Some? ==> r.value.Keys == m.value.Keys
  {
    match m
    case None => None
    case Some(sm) => Some(map k | k in sm :: JString(sm[k]))
  }

  /** What interfaceMapToStringMap computes: nil stays nil, and exactly the string-valued entries are kept. */
  function AsStringMap(m: Option<map<string, Json>>): (r: Option<map<string, string>>)
    ensures r.Some? <==> m.Some?
    ensures m.Some? ==> r.value.Keys == set k | k in m.value && m.value[k].JString?
    ensures m.Some? ==> forall k :: k in r.value ==> m.value[k] == JString(r.value[k])
  {
    match m
    case None => None
    case Some(im) => Some(map k | k in im && im[k].JString? :: im[k].s)
  }

  method StringMapToInterfaceMap(m: Option<map<string, string>>) returns (r: Option<map<string, Json>>)
    ensures r == AsInterfaceMap(m)
  {
    if m.None? {
      return None;
    }
    var input := m.value;
    var out: map<string, Json> := map[];
    var todo := input.Keys;
    while todo != {}
      invariant todo <= input.Keys
      invariant out.Keys == input.Keys - todo
      invariant forall k :: k in out ==> out[k] == JString(input[k])
      decreases todo
    {
      var k :| k in todo;
      out := out[k := JString(input[k])];
      todo := todo - {k};
    }
    assert out == map k | k in input :: JString(input[k]);
    return Some(out);
  }

  method InterfaceMapToStringMap(m: Option<map<string, Json>>) returns (r: Option<map<string, string>>)
    ensures r == AsStringMap(m)
  {
    if m.None? {
      return None;
    }
    var input := m.value;
    var out: map<string, string> := map[];
    var todo := input.Keys;
    while todo != {}
      invariant todo <= input.Keys
      invariant out.Keys == set k | k in input.Keys - todo && input[k].JString?
      invariant forall k :: k in out ==> input[k] == JString(out[k])
      decreases todo
    {
      var k :| k in todo;
      if input[k].JString? {
        out := out[k := input[k].s];
      }
      todo := todo - {k};
    }
    assert out == map k | k in input && input[k].JString? :: input[k].s;
    return Some(out);
  }

  /** Converting a string map to a dynamic map and back gives the original, nil included. */
  lemma StringMapRoundTrip(m: Option<map<string, string>>)
    ensures AsStringMap(AsInterfaceMap(m)) == m
  {
    if m.Some? {
      var im := AsInterfaceMap(m).value;
      var back := AsStringMap(AsInterfaceMap(m)).value;
      assert forall k :: k in im ==> im[k] == JString(m.value[k]);
      assert back.Keys == m.value.Keys;
      assert forall k :: k in back ==> back[k] == m.value[k];
      assert back == m.value;
    }
  }

  // ---------------------------------------------------------------------------
  // expandLinkedServiceParametersStringMap

  /** Every configured parameter as a string-typed specification whose default is its value. */
  function ExpandedParameters(input: map<string, string>): (r: map<string, ParameterSpecification>)
    ensures r.Keys == input.Keys
    ensures forall k :: k in r ==> r[k].defaultValue == input[k] && r[k].parameterType == String
  {
    map k | k in input :: ParameterSpecification(input[k], String)
  }

  method ExpandLinkedServiceParametersStringMap(input: map<string, string>)
    returns (r: map<string, ParameterSpecification>)
    ensures r == ExpandedParameters(input)
  {
    r := map[];
    var todo := input.Keys;
    while todo != {}
      invariant todo <= input.Keys
      invariant r.Keys == input.Keys - todo
      invariant forall k :: k in r ==> r[k] == ParameterSpecification(input[k], String)
      decreases todo
    {
      var k :| k in todo;
      r := r[k := ParameterSpecification(input[k], String)];
      todo := todo - {k};
    }
    assert r == map k | k in input :: ParameterSpecification(input[k], String);
  }

  // ---------------------------------------------------------------------------
  // The integration runtime reference

  /** No reference for an empty list; otherwise a reference built from the first block alone. */
  function ExpandDataFactoryLinkedServiceIntegrationRuntimeReference(input: seq<IntegrationRuntime>)
    : (r: Option<IntegrationRuntimeReference>)
    ensures r.None? <==> |input| == 0
    ensures |input| > 0 ==>
      r.value.referenceName == input[0].name
      && r.value.referenceType == IntegrationRuntimeReferenceType
      && AsStringMap(r.value.parameters) == input[0].parameters
    ensures |input| > 0 ==>
      (r.value.parameters.Some? <==> input[0].parameters.Some?)
      && (input[0].parameters.Some? ==>
            forall k :: k in r.value.parameters.value ==>
              k in input[0].parameters.value && r.value.parameters.value[k] == JString(input[0].parameters.value[k]))
  {
    if |input| == 0 then None
    else
      var v := input[0];
      StringMapRoundTrip(v.parameters);
      Some(IntegrationRuntimeReference(v.name, IntegrationRuntimeReferenceType, AsInterfaceMap(v.parameters)))
  }

  /** No block for nil; otherwise exactly one block, named "" when the reference has no name. */
  function FlattenDataFactoryLinkedServiceIntegrationRuntimeV2Typed(input: Option<DecodedRuntimeReference>)
    : (r: seq<IntegrationRuntime>)
    ensures input.None? ==> r == []
    ensures input.Some? ==>
      |r| == 1
      && r[0].name == (if input.value.referenceName.Some? then input.value.referenceName.value else "")
      && r[0].parameters == AsStringMap(input.value.parameters)
  {
    match input
    case None => []
    case Some(ref) =>
      var name := if ref.referenceName.Some? then ref.referenceName.value else "";
      [IntegrationRuntime(name, AsStringMap(ref.parameters))]
  }

  /** The JSON the expanded reference marshals to; a nil parameter map is omitted. */
  function ReferenceToJson(ref: IntegrationRuntimeReference): (j: Json)
  {
    var base := map["referenceName" := JString(ref.referenceName), "type" := JString(ref.referenceType)];
    JObject(if ref.parameters.Some? then base["parameters" := JObject(ref.parameters.value)] else base)
  }

  /**
   * Decoding a non-null `connectVia` value into a `*datafactory.IntegrationRuntimeReference`
   * (the decoding error is discarded by the caller): the pointer is always
   * allocated. The `*string` name is allocated for any non-null value before
   * its type is checked, so it points to the string, or to "" for a value of
   * another kind; the parameter map is set only from an object.
   */
  function DecodeRuntimeReference(j: Json): (r: DecodedRuntimeReference)
    ensures !j.JObject? ==> r == DecodedRuntimeReference(None, None)
    ensures r.referenceName.Some? <==>
      j.JObject? && "referenceName" in j.fields && j.fields["referenceName"] != JNull
    ensures r.referenceName.Some? ==> r.referenceName.value == AsString(j.fields["referenceName"])
    ensures r.parameters.Some? <==>
      j.JObject? && "parameters" in j.fields && j.fields["parameters"].JObject?
    ensures r.parameters.Some? ==> j.fields["parameters"] == JObject(r.parameters.value)
  {
    match j
    case JObject(f) =>
      DecodedRuntimeReference(
        if "referenceName" in f && f["referenceName"] != JNull then Some(AsString(f["referenceName"])) else None,
        if "parameters" in f && f["parameters"].JObject? then Some(f["parameters"].fields) else None)
    case _ => DecodedRuntimeReference(None, None)
  }

  /**
   * Expanding a configuration of at most one block (the schema's MaxItems),
   * marshalling it, decoding it and flattening it again gives the blocks back,
   * name and parameters, nil parameters included.
   */
  lemma IntegrationRuntimeRoundTrip(input: seq<IntegrationRuntime>)
    requires |input| <= 1
    ensures var ref := ExpandDataFactoryLinkedServiceIntegrationRuntimeReference(input);
      FlattenDataFactoryLinkedServiceIntegrationRuntimeV2Typed(
        if ref.None? then None else Some(DecodeRuntimeReference(ReferenceToJson(ref.value)))) == input
  {
    if |input| == 1 {
      var ref := ExpandDataFactoryLinkedServiceIntegrationRuntimeReference(input).value;
      var decoded := DecodeRuntimeReference(ReferenceToJson(ref));
      assert decoded.referenceName == Some(input[0].name);
      assert decoded.parameters == ref.parameters;
      StringMapRoundTrip(input[0].parameters);
    }
  }
}
