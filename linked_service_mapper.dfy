/**
 * The two mapping passes of the linked custom service resource: Create's
 * construction of the properties map sent to the service, and Read's
 * extraction of the well-known keys from the properties the service returns,
 * with everything else folded into `additional_properties`.
 */
module LinkedServiceMapper {
  import opened Wrappers
  import opened JsonValues
  import opened LinkedServiceHelpers

  /** `DataFactoryLinkedCustomServiceResourceModel`. Nil and empty maps and lists are not told apart. */
  datatype LinkedCustomServiceModel = LinkedCustomServiceModel(
    name: string,
    dataFactoryId: string,
    serviceType: string,
    typePropertiesJson: string,
    description: string,
    integrationRuntime: seq<IntegrationRuntime>,
    parameters: map<string, string>,
    annotations: seq<string>,
    additionalProperties: map<string, string>)

  /** The dynamically typed values Create puts into its `map[string]interface{}`. */
  datatype PropValue =
    | PText(s: string)                                      // a Go string
    | PReference(ref: Option<IntegrationRuntimeReference>)  // a *IntegrationRuntimeReference, possibly nil
    | PDecoded(j: Json)                                     // a value json.Unmarshal stored
    | PParameters(specs: map<string, ParameterSpecification>)
    | PAnnotations(items: seq<string>)                      // the []interface{} of annotations

  datatype CreateError = MalformedTypeProperties

  /** The document Create hands to json.Unmarshal: the configured text under `typeProperties`. */
  function WrapTypeProperties(text: string): (document: string)
  {
    "{ \"typeProperties\": " + text + " }"
  }

  /** Is k one of the keys Create adds for this model's optional values? */
  predicate IsOptionalKey(model: LinkedCustomServiceModel, k: string)
  {
    || (k == "description" && model.description != "")
    || (k == "parameters" && model.parameters != map[])
    || (k == "annotations" && |model.annotations| > 0)
  }

  /** The keys Create and Read treat specially are pairwise distinct. */
  lemma WellKnownKeysDistinct()
    ensures "type" != "connectVia" && "type" != "description" && "type" != "parameters"
    ensures "type" != "annotations" && "type" != "typeProperties"
    ensures "connectVia" != "description" && "connectVia" != "parameters"
    ensures "connectVia" != "annotations" && "connectVia" != "typeProperties"
    ensures "description" != "parameters" && "description" != "annotations"
    ensures "description" != "typeProperties"
    ensures "parameters" != "annotations" && "parameters" != "typeProperties"
    ensures "annotations" != "typeProperties"
  {
    assert "connectVia"[0] != "parameters"[0];
    assert "description"[0] != "annotations"[0];
  }

  /** The `connectVia` seed: the reference built from the first configured integration runtime, if any. */
  function ConnectVia(model: LinkedCustomServiceModel): (v: PropValue)
  {
    PReference(ExpandDataFactoryLinkedServiceIntegrationRuntimeReference(model.integrationRuntime))
  }

  // ---------------------------------------------------------------------------
  // Create: the properties map

  /** Is k one of the keys Create's map holds before the additional properties are laid over it? */
  predicate IsKnownKey(model: LinkedCustomServiceModel, decoded: map<string, Json>, k: string)
  {
    k == "type" || k == "connectVia" || k in decoded || IsOptionalKey(model, k)
  }

  /**
   * The value Create's map holds under k before the additional properties.
   * Later steps overwrite earlier ones: the seeds, then the decoded keys,
   * then the description, parameters and annotations.
   */
  function KnownValue(model: LinkedCustomServiceModel, decoded: map<string, Json>, k: string): (v: PropValue)
  {
    if k == "annotations" && |model.annotations| > 0 then PAnnotations(model.annotations)
    else if k == "parameters" && model.parameters != map[] then PParameters(ExpandedParameters(model.parameters))
    else if k == "description" && model.description != "" then PText(model.description)
    else if k in decoded then PDecoded(decoded[k])
    else if k == "type" then PText(model.serviceType)
    else ConnectVia(model)
  }

  /** The properties map up to, and without, the additional properties. */
  function KnownProperties(model: LinkedCustomServiceModel, decoded: map<string, Json>): (r: map<string, PropValue>)
  {
    var candidates := {"type", "connectVia", "description", "parameters", "annotations"} + decoded.Keys;
    map k | k in candidates && IsKnownKey(model, decoded, k) :: KnownValue(model, decoded, k)
  }

  /**
   * The properties map Create builds, where `decoded` is the top-level object
   * json.Unmarshal read from the wrapped `type_properties_json`: the known
   * properties with every additional property laid over them.
   */
  function ExpandProperties(model: LinkedCustomServiceModel, decoded: map<string, Json>): (r: map<string, PropValue>)
  {
    KnownProperties(model, decoded) + map k | k in model.additionalProperties :: PText(model.additionalProperties[k])
  }

  /**
   * Before the additional properties, the map holds the two seeds, each
   * unless the decoded document has that key, every decoded key, and the
   * description, parameters and annotations when they are non-empty; those
   * three overwrite a decoded key of the same name.
   */
  lemma KnownPropertiesContents(model: LinkedCustomServiceModel, decoded: map<string, Json>)
    ensures var r := KnownProperties(model, decoded);
      && (forall k :: k in r <==> IsKnownKey(model, decoded, k))
      && ("type" !in decoded ==> "type" in r && r["type"] == PText(model.serviceType))
      && ("connectVia" !in decoded ==> "connectVia" in r && r["connectVia"] == ConnectVia(model))
      && (model.description != "" ==> "description" in r && r["description"] == PText(model.description))
      && (model.parameters != map[] ==>
            "parameters" in r && r["parameters"] == PParameters(ExpandedParameters(model.parameters)))
      && (|model.annotations| > 0 ==> "annotations" in r && r["annotations"] == PAnnotations(model.annotations))
      && (forall k :: k in decoded && !IsOptionalKey(model, k) ==> k in r && r[k] == PDecoded(decoded[k]))
  {
    WellKnownKeysDistinct();
  }

  /** Create's map has the known keys and the additional ones; each additional property is there as a string. */
  lemma ExpandPropertiesKeys(model: LinkedCustomServiceModel, decoded: map<string, Json>)
    ensures var r := ExpandProperties(model, decoded);
      var additional := model.additionalProperties;
      && (forall k :: k in r <==> IsKnownKey(model, decoded, k) || k in additional)
      && (forall k :: k in additional ==> k in r && r[k] == PText(additional[k]))
  {
    KnownPropertiesContents(model, decoded);
  }

  /**
   * Any key of Create's map that no additional property overrides holds what
   * the known properties put there.
   */
  lemma ExpandPropertiesContents(model: LinkedCustomServiceModel, decoded: map<string, Json>)
    ensures var r := ExpandProperties(model, decoded);
      var additional := model.additionalProperties;
      && ("type" !in decoded && "type" !in additional ==> "type" in r && r["type"] == PText(model.serviceType))
      && ("connectVia" !in decoded && "connectVia" !in additional ==>
            "connectVia" in r && r["connectVia"] == ConnectVia(model))
      && (model.description != "" && "description" !in additional ==>
            "description" in r && r["description"] == PText(model.description))
      && (model.parameters != map[] && "parameters" !in additional ==>
            "parameters" in r && r["parameters"] == PParameters(ExpandedParameters(model.parameters)))
      && (|model.annotations| > 0 && "annotations" !in additional ==>
            "annotations" in r && r["annotations"] == PAnnotations(model.annotations))
      && (forall k :: k in decoded && !IsOptionalKey(model, k) && k !in additional ==>
            k in r && r[k] == PDecoded(decoded[k]))
  {
    KnownPropertiesContents(model, decoded);
  }

  /** Two maps with the same keys and the same value at each key are equal. */
  lemma SameEntries<V>(a: map<string, V>, b: map<string, V>)
    requires forall k :: k in a <==> k in b
    requires forall k :: k in a ==> a[k] == b[k]
    ensures a == b
  {
    assert a.Keys == b.Keys;
  }

  /** A model with none of the optional values: the seeds overwritten by the decoded keys. */
  lemma SeededProperties(model: LinkedCustomServiceModel, decoded: map<string, Json>)
    requires model.description == "" && model.parameters == map[] && model.annotations == []
    ensures KnownProperties(model, decoded)
            == map["type" := PText(model.serviceType), "connectVia" := ConnectVia(model)]
               + map k | k in decoded :: PDecoded(decoded[k])
  {
    var expected := map["type" := PText(model.serviceType), "connectVia" := ConnectVia(model)]
                    + map k | k in decoded :: PDecoded(decoded[k]);
    var r := KnownProperties(model, decoded);
    forall k ensures (k in r <==> k in expected) && (k in r ==> r[k] == expected[k]) {
      KnownEntry(model, decoded, k);
      assert !IsOptionalKey(model, k);
    }
    SameEntries(r, expected);
  }

  /** One key of the known properties: there exactly when it is known, with its known value. */
  lemma KnownEntry(model: LinkedCustomServiceModel, decoded: map<string, Json>, k: string)
    ensures var r := KnownProperties(model, decoded);
      && (k in r <==> IsKnownKey(model, decoded, k))
      && (k in r ==> r[k] == KnownValue(model, decoded, k))
  {
  }

  /**
   * A change to the configuration that makes `key` known with `value` and
   * leaves every other key as it was changes the known properties at `key` only.
   */
  lemma KnownStep(model: LinkedCustomServiceModel, updated: LinkedCustomServiceModel, decoded: map<string, Json>,
                  key: string, value: PropValue)
    requires IsKnownKey(updated, decoded, key) && KnownValue(updated, decoded, key) == value
    requires forall k :: k != key ==> (IsKnownKey(updated, decoded, k) <==> IsKnownKey(model, decoded, k))
    requires forall k :: k != key && IsKnownKey(model, decoded, k) ==>
               KnownValue(updated, decoded, k) == KnownValue(model, decoded, k)
    ensures KnownProperties(updated, decoded) == KnownProperties(model, decoded)[key := value]
  {
    var expected := KnownProperties(model, decoded)[key := value];
    var after := KnownProperties(updated, decoded);
    forall k ensures (k in after <==> k in expected) && (k in after ==> after[k] == expected[k]) {
      KnownEntry(model, decoded, k);
      KnownEntry(updated, decoded, k);
    }
    SameEntries(after, expected);
  }

  /** Setting a non-empty description adds (or overwrites) the `description` key and nothing else. */
  lemma DescriptionStep(model: LinkedCustomServiceModel, decoded: map<string, Json>, description: string)
    requires model.description == "" && description != ""
    ensures KnownProperties(model.(description := description), decoded)
            == KnownProperties(model, decoded)["description" := PText(description)]
  {
    KnownStep(model, model.(description := description), decoded, "description", PText(description));
  }

  /** Setting a non-empty parameter map adds (or overwrites) the `parameters` key and nothing else. */
  lemma ParametersStep(model: LinkedCustomServiceModel, decoded: map<string, Json>, parameters: map<string, string>)
    requires model.parameters == map[] && parameters != map[]
    ensures KnownProperties(model.(parameters := parameters), decoded)
            == KnownProperties(model, decoded)["parameters" := PParameters(ExpandedParameters(parameters))]
  {
    KnownStep(model, model.(parameters := parameters), decoded, "parameters",
              PParameters(ExpandedParameters(parameters)));
  }

  /** Setting a non-empty annotation list adds (or overwrites) the `annotations` key and nothing else. */
  lemma AnnotationsStep(model: LinkedCustomServiceModel, decoded: map<string, Json>, annotations: seq<string>)
    requires model.annotations == [] && |annotations| > 0
    ensures KnownProperties(model.(annotations := annotations), decoded)
            == KnownProperties(model, decoded)["annotations" := PAnnotations(annotations)]
  {
    KnownStep(model, model.(annotations := annotations), decoded, "annotations", PAnnotations(annotations));
  }

  /** The annotations copied element by element into a fresh `[]interface{}` of the same length. */
  method CopyAnnotations(items: seq<string>) returns (copy: seq<string>)
    ensures copy == items
  {
    var annotations := new string[|items|];
    var i := 0;
    while i < annotations.Length
      invariant 0 <= i <= annotations.Length
      invariant forall j :: 0 <= j < i ==> annotations[j] == items[j]
    {
      annotations[i] := items[i];
      i := i + 1;
    }
    copy := annotations[..];
  }

  /**
   * The part of Create's properties pass before the additional properties:
   * the seeds, the decoded type-properties document laid over them, then the
   * description, the expanded parameters and a copy of the annotations.
   */
  method BuildKnownProperties(model: LinkedCustomServiceModel, decoded: map<string, Json>)
    returns (props: map<string, PropValue>)
    ensures props == KnownProperties(model, decoded)
  {
    props := map["type" := PText(model.serviceType), "connectVia" := ConnectVia(model)];
    props := props + map k | k in decoded :: PDecoded(decoded[k]);
    // `sofar` is the configuration whose known properties props holds.
    ghost var sofar := model.(description := "", parameters := map[], annotations := []);
    SeededProperties(sofar, decoded);

    if model.description != "" {
      props := props["description" := PText(model.description)];
      DescriptionStep(sofar, decoded, model.description);
    }
    sofar := sofar.(description := model.description);

    if model.parameters != map[] {
      var specs := ExpandLinkedServiceParametersStringMap(model.parameters);
      props := props["parameters" := PParameters(specs)];
      ParametersStep(sofar, decoded, model.parameters);
    }
    sofar := sofar.(parameters := model.parameters);

    if |model.annotations| > 0 {
      var annotations := CopyAnnotations(model.annotations);
      props := props["annotations" := PAnnotations(annotations)];
      AnnotationsStep(sofar, decoded, model.annotations);
    }
    sofar := sofar.(annotations := model.annotations);
    assert sofar == model;
  }

  /** A map whose keys and values agree with `base` overlaid by `additional` is that overlay. */
  lemma OverlayFromParts(base: map<string, PropValue>, additional: map<string, string>, m: map<string, PropValue>)
    requires m.Keys == base.Keys + additional.Keys
    requires forall k :: k in additional ==> m[k] == PText(additional[k])
    requires forall k :: k in base && k !in additional ==> m[k] == base[k]
    ensures m == base + map k | k in additional :: PText(additional[k])
  {
  }

  /**
   * Create's properties pass. A `type_properties_json` that does not decode
   * fails before anything else is added; otherwise the result is
   * ExpandProperties of the decoded document. `unmarshal` stands for
   * json.Unmarshal of a text into a map.
   */
  method BuildProperties(model: LinkedCustomServiceModel, unmarshal: string -> Option<map<string, Json>>)
    returns (r: Result<map<string, PropValue>, CreateError>)
    ensures unmarshal(WrapTypeProperties(model.typePropertiesJson)).None? ==>
      r == Failure(MalformedTypeProperties)
    ensures unmarshal(WrapTypeProperties(model.typePropertiesJson)).Some? ==>
      r == Success(ExpandProperties(model, unmarshal(WrapTypeProperties(model.typePropertiesJson)).value))
  {
    var decoded := unmarshal(WrapTypeProperties(model.typePropertiesJson));
    if decoded.None? {
      return Failure(MalformedTypeProperties);
    }
    var props := BuildKnownProperties(model, decoded.value);
    ghost var known := props;

    var additional := model.additionalProperties;
    var todo := additional.Keys;
    while todo != {}
      invariant todo <= additional.Keys
      invariant props.Keys == known.Keys + (additional.Keys - todo)
      invariant forall k :: k in additional.Keys - todo ==> props[k] == PText(additional[k])
      invariant forall k :: k in known && k !in additional.Keys - todo ==> props[k] == known[k]
      decreases todo
    {
      var k :| k in todo;
      props := props[k := PText(additional[k])];
      todo := todo - {k};
    }
    OverlayFromParts(known, additional, props);
    return Success(props);
  }

  /** A blob-storage service with one parameter and an empty type-properties object. */
  lemma ExpandExample(model: LinkedCustomServiceModel)
    requires model.serviceType == "AzureBlobStorage" && model.parameters == map["a" := "1"]
    requires model.description == "" && model.annotations == [] && model.integrationRuntime == []
    requires model.additionalProperties == map[]
    ensures var r := ExpandProperties(model, map["typeProperties" := JObject(map[])]);
      && (forall k :: k in r <==> k == "type" || k == "connectVia" || k == "typeProperties" || k == "parameters")
      && "type" in r && r["type"] == PText("AzureBlobStorage")
      && "parameters" in r && r["parameters"] == PParameters(map["a" := ParameterSpecification("1", String)])
      && "connectVia" in r && r["connectVia"] == PReference(None)
  {
    var decoded := map["typeProperties" := JObject(map[])];
    WellKnownKeysDistinct();
    forall k ensures k in ExpandProperties(model, decoded) <==> IsKnownKey(model, decoded, k) {
      ExpandedEntry(model, decoded, k);
    }
    ExpandedEntry(model, decoded, "type");
    ExpandedEntry(model, decoded, "connectVia");
    ExpandedEntry(model, decoded, "parameters");
    assert "a" in model.parameters;
    assert ExpandedParameters(model.parameters) == map["a" := ParameterSpecification("1", String)];
  }

  // ---------------------------------------------------------------------------
  // Read: the key-extraction pass

  /** The well-known keys Read extracts and deletes (`typeProperties` is handled apart). */
  const KnownKeys: set<string> := {"description", "type", "annotations", "parameters", "connectVia"}

  /** `v, ok := m[k]; ok && v != nil`: the key is there and its raw value is not JSON null. */
  predicate Present(m: map<string, Json>, k: string)
  {
    k in m && m[k] != JNull
  }

  /** Decoding a raw value into `[]string`: a non-array leaves the list nil. */
  function DecodeAnnotations(j: Json): (r: seq<string>)
    ensures !j.JArray? ==> r == []
    ensures j.JArray? ==> |r| == |j.items|
    ensures j.JArray? ==> forall i :: 0 <= i < |r| ==>
      (j.items[i].JString? ==> r[i] == j.items[i].s) && (!j.items[i].JString? ==> r[i] == "")
  {
    if j.JArray? then seq(|j.items|, i requires 0 <= i < |j.items| => AsString(j.items[i])) else []
  }

  /** The default value a parameter specification carries, "" when it is missing or not a string. */
  function DefaultValueOf(spec: Json): (default: string)
  {
    if spec.JObject? && "defaultValue" in spec.fields then AsString(spec.fields["defaultValue"]) else ""
  }

  /**
   * Parameters as Read should flatten them: one entry per non-null
   * specification, holding its string default.
   */
  function FlattenParameters(j: Json): (r: map<string, string>)
    ensures !j.JObject? ==> r == map[]
    ensures j.JObject? ==> forall k :: k in r <==> k in j.fields && j.fields[k] != JNull
    ensures forall k :: k in r ==> r[k] == DefaultValueOf(j.fields[k])
  {
    if j.JObject? then map k | k in j.fields && j.fields[k] != JNull :: DefaultValueOf(j.fields[k])
    else map[]
  }

  /** What is left of the remote map once the pass has deleted its keys. */
  function Leftover(m: map<string, Json>): (r: map<string, Json>)
  {
    map k | k in m && !(k in KnownKeys && Present(m, k)) && k != "typeProperties" :: m[k]
  }

  /**
   * Marshalling the leftover raw map and unmarshalling it into
   * `map[string]string`: every key stays; a string keeps its value and any
   * other value becomes "" (the decoding error is discarded).
   */
  function AdditionalPropertiesOf(leftover: map<string, Json>): (r: map<string, string>)
    ensures r.Keys == leftover.Keys
    ensures forall k :: k in r ==> (leftover[k].JString? ==> r[k] == leftover[k].s) && (!leftover[k].JString? ==> r[k] == "")
  {
    map k | k in leftover :: AsString(leftover[k])
  }

  /** The state Read encodes for the remote properties m of the service named `name`. */
  function FlattenedModel(name: string, dataFactoryId: string, m: map<string, Json>, encode: Json -> string)
    : (state: LinkedCustomServiceModel)
  {
    LinkedCustomServiceModel(
      name := name,
      dataFactoryId := dataFactoryId,
      serviceType := if Present(m, "type") then AsString(m["type"]) else "",
      typePropertiesJson := if Present(m, "typeProperties") then encode(m["typeProperties"]) else "",
      description := if Present(m, "description") then AsString(m["description"]) else "",
      integrationRuntime :=
        if Present(m, "connectVia")
        then FlattenDataFactoryLinkedServiceIntegrationRuntimeV2Typed(Some(DecodeRuntimeReference(m["connectVia"])))
        else [],
      parameters := if Present(m, "parameters") then FlattenParameters(m["parameters"]) else map[],
      annotations := if Present(m, "annotations") then DecodeAnnotations(m["annotations"]) else [],
      additionalProperties := AdditionalPropertiesOf(Leftover(m)))
  }

  /** m without k when k is present with a non-null value. */
  function Drop(m: map<string, Json>, k: string): (r: map<string, Json>)
  {
    if Present(m, k) then m - {k} else m
  }

  /** Dropping the five well-known keys one after another, then `typeProperties`, leaves Leftover. */
  lemma LeftoverByDrops(props: map<string, Json>)
    ensures Drop(Drop(Drop(Drop(Drop(props, "description"), "type"), "annotations"), "parameters"), "connectVia")
            - {"typeProperties"}
            == Leftover(props)
  {
    WellKnownKeysDistinct();
    var m1 := Drop(props, "description");
    var m2 := Drop(m1, "type");
    var m3 := Drop(m2, "annotations");
    var m4 := Drop(m3, "parameters");
    var m5 := Drop(m4, "connectVia");
    assert Present(m2, "annotations") == Present(props, "annotations");
    assert Present(m3, "parameters") == Present(props, "parameters");
    assert Present(m4, "connectVia") == Present(props, "connectVia");
    var left := m5 - {"typeProperties"};
    assert forall k :: k in left <==> k in Leftover(props);
  }

  /**
   * One lookup of the pass: when k is present with a non-null value, that
   * value is returned and the key deleted; otherwise the map is left alone.
   */
  method TakeKey(m: map<string, Json>, k: string) returns (value: Option<Json>, rest: map<string, Json>)
    ensures value == (if Present(m, k) then Some(m[k]) else None)
    ensures rest == Drop(m, k)
  {
    if k in m && m[k] != JNull {
      value := Some(m[k]);
      rest := m - {k};
    } else {
      value := None;
      rest := m;
    }
  }

  /** The keys the pass reads after some deletions still hold what the remote map holds. */
  lemma ReadsAfterDrops(props: map<string, Json>)
    ensures var m1 := Drop(props, "description");
      var m2 := Drop(m1, "type");
      var m3 := Drop(m2, "annotations");
      var m4 := Drop(m3, "parameters");
      var m5 := Drop(m4, "connectVia");
      && Present(m1, "type") == Present(props, "type")
      && (Present(props, "type") ==> m1["type"] == props["type"])
      && Present(m2, "annotations") == Present(props, "annotations")
      && (Present(props, "annotations") ==> m2["annotations"] == props["annotations"])
      && Present(m3, "parameters") == Present(props, "parameters")
      && (Present(props, "parameters") ==> m3["parameters"] == props["parameters"])
      && Present(m4, "connectVia") == Present(props, "connectVia")
      && (Present(props, "connectVia") ==> m4["connectVia"] == props["connectVia"])
      && Present(m5, "typeProperties") == Present(props, "typeProperties")
      && (Present(props, "typeProperties") ==> m5["typeProperties"] == props["typeProperties"])
  {
    WellKnownKeysDistinct();
  }

  /**
   * The `description` step of the pass: a present value is decoded as a
   * string and its key deleted. On a non-string Go leaves the field as it
   * was; the pass starts from a fresh state, whose description is "", so
   * writing "" is the same.
   */
  method TakeDescription(state: LinkedCustomServiceModel, m: map<string, Json>)
    returns (next: LinkedCustomServiceModel, rest: map<string, Json>)
    ensures next == if Present(m, "description") then state.(description := AsString(m["description"])) else state
    ensures rest == Drop(m, "description")
  {
    var value;
    value, rest := TakeKey(m, "description");
    next := state;
    if value.Some? {
      next := state.(description := AsString(value.value));
    }
  }

  /** The `type` step: a present value is decoded as a string and its key deleted (a fresh field, as for the description). */
  method TakeType(state: LinkedCustomServiceModel, m: map<string, Json>)
    returns (next: LinkedCustomServiceModel, rest: map<string, Json>)
    ensures next == if Present(m, "type") then state.(serviceType := AsString(m["type"])) else state
    ensures rest == Drop(m, "type")
  {
    var value;
    value, rest := TakeKey(m, "type");
    next := state;
    if value.Some? {
      next := state.(serviceType := AsString(value.value));
    }
  }

  /** The `annotations` step: a present value is decoded as a list of strings and its key deleted. */
  method TakeAnnotations(state: LinkedCustomServiceModel, m: map<string, Json>)
    returns (next: LinkedCustomServiceModel, rest: map<string, Json>)
    ensures next == if Present(m, "annotations") then state.(annotations := DecodeAnnotations(m["annotations"])) else state
    ensures rest == Drop(m, "annotations")
  {
    var value;
    value, rest := TakeKey(m, "annotations");
    next := state;
    if value.Some? {
      next := state.(annotations := DecodeAnnotations(value.value));
    }
  }

  /** The `parameters` step: a present value is flattened to the parameter defaults and its key deleted. */
  method TakeParameters(state: LinkedCustomServiceModel, m: map<string, Json>)
    returns (next: LinkedCustomServiceModel, rest: map<string, Json>)
    ensures next == if Present(m, "parameters") then state.(parameters := FlattenParameters(m["parameters"])) else state
    ensures rest == Drop(m, "parameters")
  {
    var value;
    value, rest := TakeKey(m, "parameters");
    next := state;
    if value.Some? {
      next := state.(parameters := FlattenParameters(value.value));
    }
  }

  /** The `connectVia` step: a present value is decoded as a runtime reference, flattened, and its key deleted. */
  method TakeConnectVia(state: LinkedCustomServiceModel, m: map<string, Json>)
    returns (next: LinkedCustomServiceModel, rest: map<string, Json>)
    ensures next == if Present(m, "connectVia") then state.(integrationRuntime := FlattenDataFactoryLinkedServiceIntegrationRuntimeV2Typed(Some(DecodeRuntimeReference(m["connectVia"])))) else state
    ensures rest == Drop(m, "connectVia")
  {
    var value;
    value, rest := TakeKey(m, "connectVia");
    next := state;
    if value.Some? {
      next := state.(integrationRuntime := FlattenDataFactoryLinkedServiceIntegrationRuntimeV2Typed(Some(DecodeRuntimeReference(value.value))));
    }
  }

  /**
   * Read's extraction pass over a mutable copy of the remote properties,
   * deleting each well-known key it consumes. `encode` gives the raw text of
   * a JSON value.
   */
  method FlattenRemoteProperties(name: string, dataFactoryId: string, props: map<string, Json>,
                                 encode: Json -> string)
    returns (state: LinkedCustomServiceModel)
    ensures state == FlattenedModel(name, dataFactoryId, props, encode)
  {
    ReadsAfterDrops(props);
    state := LinkedCustomServiceModel(name, dataFactoryId, "", "", "", [], map[], [], map[]);
    var m := props;
    state, m := TakeDescription(state, m);
    state, m := TakeType(state, m);
    state, m := TakeAnnotations(state, m);
    state, m := TakeParameters(state, m);
    state, m := TakeConnectVia(state, m);
    // The raw type-properties text is taken before the key is dropped.
    if "typeProperties" in m && m["typeProperties"] != JNull {
      state := state.(typePropertiesJson := encode(m["typeProperties"]));
    }
    m := m - {"typeProperties"};
    LeftoverByDrops(props);
    state := state.(additionalProperties := AdditionalPropertiesOf(m));
  }

  /**
   * After the pass, `additional_properties` holds exactly the keys left over:
   * no well-known key that had a value, never `typeProperties`, and every
   * other key, with its string value unchanged. A well-known key whose value
   * is JSON null is not deleted and so lands there as "".
   */
  lemma AdditionalPropertiesAfterRead(name: string, dataFactoryId: string, m: map<string, Json>,
                                      encode: Json -> string)
    ensures var additional := FlattenedModel(name, dataFactoryId, m, encode).additionalProperties;
      && additional.Keys == m.Keys - (set k | k in KnownKeys && Present(m, k)) - {"typeProperties"}
      && (forall k :: k in KnownKeys && Present(m, k) ==> k !in additional)
      && "typeProperties" !in additional
      && (forall k :: k in m && k !in KnownKeys && k != "typeProperties" && m[k].JString? ==>
            k in additional && additional[k] == m[k].s)
      && (forall k :: k in KnownKeys && k in m && m[k] == JNull ==> k in additional && additional[k] == "")
  {
  }

  // ---------------------------------------------------------------------------
  // Round trips through the service

  /** The JSON each value of Create's map marshals to; a nil reference is null. */
  function PropToJson(v: PropValue): (j: Json)
  {
    match v
    case PText(s) => JString(s)
    case PReference(None) => JNull
    case PReference(Some(ref)) => ReferenceToJson(ref)
    case PDecoded(j) => j
    case PParameters(specs) => JObject(map k | k in specs :: SpecificationToJson(specs[k]))
    case PAnnotations(items) => JArray(seq(|items|, i requires 0 <= i < |items| => JString(items[i])))
  }

  function SpecificationToJson(spec: ParameterSpecification): (j: Json)
  {
    JObject(map["type" := JString(ParameterTypeName(spec.parameterType)), "defaultValue" := JString(spec.defaultValue)])
  }

  /**
   * The properties Read receives for properties Create sent: their JSON,
   * without the null-valued entries, which the typed SDK model omits.
   */
  function StoredProperties(props: map<string, PropValue>): (r: map<string, Json>)
  {
    map k | k in props && PropToJson(props[k]) != JNull :: PropToJson(props[k])
  }

  /** String parameters survive expanding, marshalling and flattening. */
  lemma ParametersRoundTrip(parameters: map<string, string>)
    ensures FlattenParameters(PropToJson(PParameters(ExpandedParameters(parameters)))) == parameters
  {
    var wire := PropToJson(PParameters(ExpandedParameters(parameters)));
    var back := FlattenParameters(wire);
    assert back.Keys == parameters.Keys;
    forall k | k in parameters ensures back[k] == parameters[k] {
      assert wire.fields[k] == SpecificationToJson(ParameterSpecification(parameters[k], String));
    }
  }

  /** Annotations survive marshalling and decoding, in order. */
  lemma AnnotationsRoundTrip(annotations: seq<string>)
    ensures DecodeAnnotations(PropToJson(PAnnotations(annotations))) == annotations
  {
    var back := DecodeAnnotations(PropToJson(PAnnotations(annotations)));
    assert |back| == |annotations|;
    forall i | 0 <= i < |annotations| ensures back[i] == annotations[i] {
    }
  }

  /** What Read receives for a configuration Create sent with `typeProperties` decoded to one value. */
  function SentProperties(model: LinkedCustomServiceModel, typeProperties: Json): (m: map<string, Json>)
  {
    StoredProperties(ExpandProperties(model, map["typeProperties" := typeProperties]))
  }

  /**
   * The configurations the round trip is about: the type-properties text
   * decodes to a non-null value, there is at most one runtime block (the
   * schema's MaxItems), and no additional property is named like a key Read
   * consumes.
   */
  predicate RoundTrippable(model: LinkedCustomServiceModel, typeProperties: Json)
  {
    && typeProperties != JNull
    && |model.integrationRuntime| <= 1
    && model.additionalProperties.Keys !! (KnownKeys + {"typeProperties"})
  }

  /** One key of Create's map: an additional property wins; otherwise the known value, if the key is known. */
  lemma ExpandedEntry(model: LinkedCustomServiceModel, decoded: map<string, Json>, k: string)
    ensures var r := ExpandProperties(model, decoded);
      && (k in model.additionalProperties ==> k in r && r[k] == PText(model.additionalProperties[k]))
      && (k !in model.additionalProperties ==>
            && (k in r <==> IsKnownKey(model, decoded, k))
            && (k in r ==> r[k] == KnownValue(model, decoded, k)))
  {
  }

  /** A known key that no additional property overrides reaches the wire as its value's JSON, unless that is null. */
  lemma SentKnown(model: LinkedCustomServiceModel, typeProperties: Json, k: string, v: PropValue)
    requires k !in model.additionalProperties
    requires IsKnownKey(model, map["typeProperties" := typeProperties], k)
    requires KnownValue(model, map["typeProperties" := typeProperties], k) == v
    ensures var m := SentProperties(model, typeProperties);
      && (Present(m, k) <==> PropToJson(v) != JNull)
      && (Present(m, k) ==> m[k] == PropToJson(v))
  {
    ExpandedEntry(model, map["typeProperties" := typeProperties], k);
  }

  /** A key that is neither known nor an additional property does not reach the wire. */
  lemma SentUnknown(model: LinkedCustomServiceModel, typeProperties: Json, k: string)
    requires k !in model.additionalProperties
    requires !IsKnownKey(model, map["typeProperties" := typeProperties], k)
    ensures !Present(SentProperties(model, typeProperties), k)
  {
    ExpandedEntry(model, map["typeProperties" := typeProperties], k);
  }

  /** On the wire, the type is where Read looks for it. */
  lemma SentType(model: LinkedCustomServiceModel, typeProperties: Json)
    requires "type" !in model.additionalProperties
    ensures var m := SentProperties(model, typeProperties);
      Present(m, "type") && m["type"] == JString(model.serviceType)
  {
    WellKnownKeysDistinct();
    SentKnown(model, typeProperties, "type", PText(model.serviceType));
  }

  /** On the wire, a non-null decoded type-properties value is where Read looks for it. */
  lemma SentTypeProperties(model: LinkedCustomServiceModel, typeProperties: Json)
    requires "typeProperties" !in model.additionalProperties && typeProperties != JNull
    ensures var m := SentProperties(model, typeProperties);
      Present(m, "typeProperties") && m["typeProperties"] == typeProperties
  {
    WellKnownKeysDistinct();
    SentKnown(model, typeProperties, "typeProperties", PDecoded(typeProperties));
  }

  /** On the wire, the runtime reference is there exactly when a runtime block is configured; a nil one is absent. */
  lemma SentConnectVia(model: LinkedCustomServiceModel, typeProperties: Json)
    requires "connectVia" !in model.additionalProperties
    ensures var m := SentProperties(model, typeProperties);
      && (model.integrationRuntime == [] ==> !Present(m, "connectVia"))
      && (model.integrationRuntime != [] ==>
            && Present(m, "connectVia")
            && m["connectVia"]
               == ReferenceToJson(ExpandDataFactoryLinkedServiceIntegrationRuntimeReference(model.integrationRuntime).value))
  {
    WellKnownKeysDistinct();
    SentKnown(model, typeProperties, "connectVia", ConnectVia(model));
  }

  /** On the wire, the description is present exactly when it is non-empty. */
  lemma SentDescription(model: LinkedCustomServiceModel, typeProperties: Json)
    requires "description" !in model.additionalProperties
    ensures var m := SentProperties(model, typeProperties);
      && (model.description == "" ==> !Present(m, "description"))
      && (model.description != "" ==> Present(m, "description") && m["description"] == JString(model.description))
  {
    WellKnownKeysDistinct();
    if model.description != "" {
      SentKnown(model, typeProperties, "description", PText(model.description));
    } else {
      SentUnknown(model, typeProperties, "description");
    }
  }

  /** On the wire, the parameters are present exactly when there are some, as their specifications. */
  lemma SentParameters(model: LinkedCustomServiceModel, typeProperties: Json)
    requires "parameters" !in model.additionalProperties
    ensures var m := SentProperties(model, typeProperties);
      && (model.parameters == map[] ==> !Present(m, "parameters"))
      && (model.parameters != map[] ==>
            Present(m, "parameters") && m["parameters"] == PropToJson(PParameters(ExpandedParameters(model.parameters))))
  {
    WellKnownKeysDistinct();
    if model.parameters != map[] {
      SentKnown(model, typeProperties, "parameters", PParameters(ExpandedParameters(model.parameters)));
    } else {
      SentUnknown(model, typeProperties, "parameters");
    }
  }

  /** On the wire, the annotations are present exactly when there are some. */
  lemma SentAnnotations(model: LinkedCustomServiceModel, typeProperties: Json)
    requires "annotations" !in model.additionalProperties
    ensures var m := SentProperties(model, typeProperties);
      && (model.annotations == [] ==> !Present(m, "annotations"))
      && (model.annotations != [] ==>
            Present(m, "annotations") && m["annotations"] == PropToJson(PAnnotations(model.annotations)))
  {
    if model.annotations != [] {
      SentKnown(model, typeProperties, "annotations", PAnnotations(model.annotations));
    } else {
      WellKnownKeysDistinct();
      SentUnknown(model, typeProperties, "annotations");
    }
  }

  /** Every entry of the wire map is non-null, so Read finds each of its keys present. */
  lemma StoredEntriesPresent(props: map<string, PropValue>, k: string)
    requires k in StoredProperties(props)
    ensures Present(StoredProperties(props), k)
    ensures k in props && StoredProperties(props)[k] == PropToJson(props[k])
  {
  }

  /** A known key of Create's map is a well-known key or a decoded one. */
  lemma KnownKeyNames(model: LinkedCustomServiceModel, decoded: map<string, Json>, k: string)
    requires IsKnownKey(model, decoded, k)
    ensures k in KnownKeys || k in decoded
  {
  }

  /**
   * A remote map whose every other key is one Read consumes gives back
   * exactly the string-valued entries it holds for `additional`.
   */
  lemma LeftoverIsAdditional(m: map<string, Json>, additional: map<string, string>)
    requires forall k :: k in m && k !in additional ==> (k in KnownKeys && Present(m, k)) || k == "typeProperties"
    requires forall k :: k in additional ==>
               k in m && m[k] == JString(additional[k]) && k !in KnownKeys && k != "typeProperties"
    ensures AdditionalPropertiesOf(Leftover(m)) == additional
  {
    var back := AdditionalPropertiesOf(Leftover(m));
    assert back.Keys == additional.Keys;
  }

  /** On the wire, what Read folds into `additional_properties` is exactly the configured additional properties. */
  lemma SentLeftover(model: LinkedCustomServiceModel, typeProperties: Json)
    requires model.additionalProperties.Keys !! (KnownKeys + {"typeProperties"})
    ensures AdditionalPropertiesOf(Leftover(SentProperties(model, typeProperties))) == model.additionalProperties
  {
    var decoded := map["typeProperties" := typeProperties];
    var sent := ExpandProperties(model, decoded);
    var m := SentProperties(model, typeProperties);
    var additional := model.additionalProperties;
    forall k | k in m && k !in additional
      ensures (k in KnownKeys && Present(m, k)) || k == "typeProperties"
    {
      StoredEntriesPresent(sent, k);
      ExpandedEntry(model, decoded, k);
      KnownKeyNames(model, decoded, k);
    }
    forall k | k in additional
      ensures k in m && m[k] == JString(additional[k]) && k !in KnownKeys && k != "typeProperties"
    {
      ExpandedEntry(model, decoded, k);
    }
    LeftoverIsAdditional(m, additional);
  }

  /**
   * Read after Create gives the configuration back, with
   * `type_properties_json` as the encoding of the decoded value.
   */
  lemma FlattenAfterExpand(model: LinkedCustomServiceModel, typeProperties: Json, encode: Json -> string)
    requires RoundTrippable(model, typeProperties)
    ensures FlattenedModel(model.name, model.dataFactoryId, SentProperties(model, typeProperties), encode)
            == model.(typePropertiesJson := encode(typeProperties))
  {
    SentType(model, typeProperties);
    SentTypeProperties(model, typeProperties);
    SentConnectVia(model, typeProperties);
    SentDescription(model, typeProperties);
    SentParameters(model, typeProperties);
    SentAnnotations(model, typeProperties);
    SentLeftover(model, typeProperties);
    IntegrationRuntimeRoundTrip(model.integrationRuntime);
    if model.parameters != map[] {
      ParametersRoundTrip(model.parameters);
    }
    if model.annotations != [] {
      AnnotationsRoundTrip(model.annotations);
    }
  }

  /**
   * Create after Read keeps every string-valued key Read left to
   * `additional_properties`, and the type and a non-empty description too,
   * unless the decoded type properties shadow them.
   */
  lemma ExpandAfterFlattenKeepsStrings(name: string, dataFactoryId: string, m: map<string, Json>,
                                       encode: Json -> string, decoded: map<string, Json>)
    ensures var r := ExpandProperties(FlattenedModel(name, dataFactoryId, m, encode), decoded);
      && (forall k :: k in m && k !in KnownKeys && k != "typeProperties" && m[k].JString? ==>
            r[k] == PText(m[k].s))
      && (Present(m, "type") && m["type"].JString? && "type" !in decoded ==> r["type"] == PText(m["type"].s))
      && (Present(m, "description") && m["description"].JString? && m["description"].s != "" ==>
            r["description"] == PText(m["description"].s))
  {
    var state := FlattenedModel(name, dataFactoryId, m, encode);
    AdditionalPropertiesAfterRead(name, dataFactoryId, m, encode);
    ExpandPropertiesContents(state, decoded);
  }

  // ---------------------------------------------------------------------------
  // The pass as written

  /** flattenLinkedServiceParametersStringMap as written: a placeholder that returns nil. */
  function FlattenLinkedServiceParametersStringMap(j: Json): (r: map<string, string>)
  {
    map[]
  }

  /** The type-properties text as written: read after its key has been deleted. */
  function TypePropertiesAsWritten(m: map<string, Json>, encode: Json -> string): (r: string)
    ensures r == ""
  {
    var after := m - {"typeProperties"};
    var v := ValueOrNil(after, "typeProperties");
    if v != JNull then encode(v) else ""
  }

  /** A Go map lookup of a raw value: a missing key reads as nil. */
  function ValueOrNil(m: map<string, Json>, k: string): (v: Json)
  {
    if k in m then m[k] else JNull
  }

  /** As written, a configured parameter never comes back; the corrected flatten returns it. */
  lemma ParametersLostAsWritten()
    ensures var wire := PropToJson(PParameters(ExpandedParameters(map["a" := "1"])));
      && FlattenLinkedServiceParametersStringMap(wire) == map[]
      && FlattenParameters(wire) == map["a" := "1"]
  {
    ParametersRoundTrip(map["a" := "1"]);
  }

  /** As written, `type_properties_json` always reads back as ""; the corrected pass returns the text. */
  lemma TypePropertiesLostAsWritten(name: string, dataFactoryId: string, m: map<string, Json>,
                                    encode: Json -> string)
    ensures TypePropertiesAsWritten(m, encode) == ""
    ensures Present(m, "typeProperties") ==>
      FlattenedModel(name, dataFactoryId, m, encode).typePropertiesJson == encode(m["typeProperties"])
  {
  }
}
