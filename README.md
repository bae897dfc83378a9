# Impact connectors and the data factory linked custom service, modelled in Dafny

This project models three pieces of logic from the Azure provider for Terraform.
Each piece is proved against its own specification.

- **The Impact connector validators** are `ConnectorID`, for the `name` argument, and `ConnectorType`, for `connector_type`.
  - Each takes a dynamically typed value and an attribute key, and returns warnings and errors.
  - The regular expression `^[a-zA-Z0-9-]{3,24}$` is written as a small bounded-repeat matcher over character ranges.
  - A lemma proves that matcher equal, on every string, to a plain reading: a length of 3 to 24, and only ASCII letters, digits and `-`.
  - The list of allowed platform values is a parameter.
- **The Impact connector lifecycle** (`azurerm_impact_connectors`) holds two objects whose fields the operations update in place:
  - `ConnectorsClient`, a class that holds the remote store (identifier to connector record) and offers Get, CreateOrUpdate and Delete;
  - `ResourceMetaData`, a class that holds the tracked identifier and the encoded attributes (`SetID`, `MarkAsGone`, `Encode`).

  Create, Read, Update and Delete are methods over these two objects. How the remote API answers each call is a parameter: answered, answered without a body, or a fault.
- **The linked custom service mapping** (`azurerm_data_factory_linked_custom_service`) has three modelled parts:
  - the expand/flatten helpers;
  - Create's step-by-step construction of the properties map sent to the service;
  - Read's pass, which takes the well-known keys out of the returned properties one by one and folds the rest into `additional_properties`.

  JSON values are a small datatype. Parsing a JSON text (`json.Unmarshal`) and re-encoding a raw value are parameters of the operations that use them.

In the data factory resource, every loop or step-by-step update is a method. Each such method is proved equal to a reference function:
- `BuildProperties` is proved equal to `ExpandProperties`;
- `FlattenRemoteProperties` to `FlattenedModel`;
- each converter loop to its map function.

The Impact lifecycle methods state the new store and the new tracked state directly in their ensures.

Lemmas then prove the following about those functions:
- the key sets and the value at each key;
- round trips through the service;
- the unit-test vectors.

Files:
- `wrappers.dfy`: `Option` and `Result`.
- `json_values.dfy`: JSON values, and Go's decoding of a value into a string.
- `connector_validators.dfy`: the two validators.
- `impact_connectors.dfy`: the connector store, the tracked state and the four operations.
- `linked_service_helpers.dfy`: the converters.
- `linked_service_mapper.dfy`: the Create and Read passes, their round trips, and the source as written where it is wrong.

## Model

| member | source | states |
|---|---|---|
| ConnectorValidators.ConnectorID | internal/services/impact/validate/impact_connectors_validators.go:11-23 | No warnings and at most one error. A non-string yields exactly the type error. A string yields no error exactly when it has 3 to 24 characters, all ASCII letters, digits or `-`; otherwise the single error is the length-and-charset error. |
| ConnectorValidators.MatchesRepeatIsBoundedLength | internal/services/impact/validate/impact_connectors_validators.go:18 | A repetition `cls{min,max}` of one character class matches exactly the strings whose length is between min and max and whose every character is in the class. |
| ConnectorValidators.ConnectorIdClassIsCharset | internal/services/impact/validate/impact_connectors_validators.go:18 | The class `[a-zA-Z0-9-]` accepts exactly the ASCII letters, the digits and the hyphen. |
| ConnectorValidators.ConnectorIdPatternIsCharsetAndLength | internal/services/impact/validate/impact_connectors_validators.go:18-20 | The anchored pattern `^[a-zA-Z0-9-]{3,24}$` matches exactly the strings of length 3 to 24 over letters, digits and `-`. |
| ConnectorValidators.ContainsIsMembership | internal/services/impact/validate/impact_connectors_validators.go:34 | The front-to-back scan of `slices.Contains` finds v exactly when v is an element of the list. |
| ConnectorValidators.ConnectorType | internal/services/impact/validate/impact_connectors_validators.go:25-39 | No warnings and at most one error. A non-string yields exactly the type error. A string yields no error exactly when it is one of the allowed platform values; otherwise the single error is the invalid-value error, which carries the list. |
| ConnectorValidators.ConnectorIdTestVectors | internal/services/impact/validate/impact_connectors_validators_test.go:12-31 | `""`, `"oo"`, the 31-character `"an-identifier-which-is-too-long"` and `"inv4l!dch@r4ct3rs"` are rejected, and `"acctest123-east"` is accepted. |
| ConnectorValidators.ConnectorTypeTestVectors | internal/services/impact/validate/impact_connectors_validators_test.go:49-61 | With `"AzureMonitor"` allowed, and `""` and `"InvalidType"` not allowed, the first is accepted and the other two are rejected. |
| ImpactConnectors.ConnectorsClient.constructor | internal/services/impact/impact_connectors_resource.go:56 | The client starts over the given store contents. |
| ImpactConnectors.ConnectorsClient.CreateOrUpdate | internal/services/impact/impact_connectors_resource.go:85 | A failing call returns its fault and writes nothing. A successful call stores the body under the id and changes no other record. |
| ImpactConnectors.ConnectorsClient.Delete | internal/services/impact/impact_connectors_resource.go:176 | A fault is returned and nothing is removed. An absent id is a not-found error and nothing is removed. Otherwise exactly that id is removed. |
| ImpactConnectors.ResourceMetaData.constructor | internal/services/impact/impact_connectors_resource.go:55 | The tracked identifier and attributes start as given. |
| ImpactConnectors.ResourceMetaData.SetID | internal/services/impact/impact_connectors_resource.go:89 | The tracked identifier becomes the given id; the attributes are untouched. |
| ImpactConnectors.ResourceMetaData.MarkAsGone | internal/services/impact/impact_connectors_resource.go:150 | The tracked identifier is cleared; the attributes are untouched. |
| ImpactConnectors.ResourceMetaData.Encode | internal/services/impact/impact_connectors_resource.go:160 | The tracked attributes become the given state; the identifier is untouched. |
| ImpactConnectors.Create | internal/services/impact/impact_connectors_resource.go:52-93 | A Get fault gives the presence-check error and nothing changes. An existing connector gives the requires-import error and is never written. Otherwise the store gains exactly the new connector, with the configured type and the epoch timestamp. The id built from (subscription, name) is tracked only if that write succeeds. A failed write gives the creating error and sets no id. |
| ImpactConnectors.Read | internal/services/impact/impact_connectors_resource.go:136-163 | An id that does not parse is an error. A Get fault is the retrieving error and nothing changes. Not-found forgets the resource and is no error. A found connector is encoded as `{name: id's connector name, connector_type: stored type}`. A nil model or nil properties is reported as the panic the source's unchecked dereference causes. |
| ImpactConnectors.Update | internal/services/impact/impact_connectors_resource.go:95-134 | Any Get failure, including not-found, and a nil model or nil properties all give the retrieving error with no write. Otherwise the fetched record is written back with `ConnectorType` replaced only when `connector_type` changed. The connector id, tenant id, timestamp and provisioning state are kept. A failed write gives the updating error and leaves the store unchanged. |
| ImpactConnectors.Delete | internal/services/impact/impact_connectors_resource.go:165-183 | Every error of the remote Delete, including not-found, is returned with nothing removed. Otherwise the record is removed and there is no error. |
| ImpactConnectors.CreateThenRead | internal/services/impact/impact_connectors_resource_test.go:25-33 | After a successful Create on a fresh name, Read succeeds and reproduces the configured `{name, connector_type}`, as the import step requires. |
| ImpactConnectors.CreateTwice | internal/services/impact/impact_connectors_resource_test.go:36-46 | A second resource with the same name and subscription fails with the requires-import error. The first connector stays as written, and the second resource tracks no new id. |
| ImpactConnectors.DeleteThenGet | internal/services/impact/impact_connectors_resource.go:176-180 | After a Delete that succeeds, a Get of the same id reports not-found. |
| ImpactConnectors.ConnectorsClient.Get | internal/services/impact/impact_connectors_resource.go:65 | A fault of the remote API is reported as that fault. Otherwise an id absent from the store is not-found. A present one is found: with its stored record when the API answers with a body, and with a nil model when the body is empty. |
| ImpactConnectors.NewConnector | internal/services/impact/impact_connectors_resource.go:73-83 | The connector Create sends has properties, with the configured type and the epoch timestamp. Every other property is its zero value: empty connector and tenant ids, no provisioning state. |
| ImpactConnectors.ResourceMetaData.HasConnectorTypeChange | internal/services/impact/impact_connectors_resource.go:123 | `connector_type` has changed when there is no prior state or its type differs from the configured one. |
| LinkedServiceHelpers.AsInterfaceMap | internal/services/datafactory/data_factory_linked_custom_service_resource.go:408-417 | Nil stays nil; otherwise the result has exactly the input's keys. |
| LinkedServiceHelpers.StringMapToInterfaceMap | internal/services/datafactory/data_factory_linked_custom_service_resource.go:408-417 | The copying loop yields AsInterfaceMap of its input: nil for nil, or every value as a string value. |
| LinkedServiceHelpers.AsStringMap | internal/services/datafactory/data_factory_linked_custom_service_resource.go:419-430 | Nil stays nil; otherwise the keys are exactly those whose value is a string, and each keeps that string. |
| LinkedServiceHelpers.InterfaceMapToStringMap | internal/services/datafactory/data_factory_linked_custom_service_resource.go:419-430 | The filtering loop yields AsStringMap of its input. |
| LinkedServiceHelpers.StringMapRoundTrip | internal/services/datafactory/data_factory_linked_custom_service_resource.go:408-430 | Converting a string map to a dynamic map and back gives the original, nil included. |
| LinkedServiceHelpers.ExpandedParameters | internal/services/datafactory/data_factory_linked_custom_service_resource.go:392-401 | Exactly the input's keys, each with default value `input[k]` and type String. |
| LinkedServiceHelpers.ExpandLinkedServiceParametersStringMap | internal/services/datafactory/data_factory_linked_custom_service_resource.go:392-401 | The loop yields ExpandedParameters of its input. |
| LinkedServiceHelpers.ExpandDataFactoryLinkedServiceIntegrationRuntimeReference | internal/services/datafactory/data_factory_linked_custom_service_resource.go:364-374 | Nil exactly for an empty list. Otherwise the reference is built from the first block alone: its name, type `"IntegrationRuntimeReference"`, and parameters that convert back to the block's: nil exactly when the block's are nil, and otherwise every value the string value of the block's parameter under the same key. |
| LinkedServiceHelpers.DecodeRuntimeReference | internal/services/datafactory/data_factory_linked_custom_service_resource.go:310-312 | Decoding a non-null `connectVia` value: a non-object gives a reference with neither field set. The name is set exactly when the object holds a non-null value under `referenceName`: that string, or `""` for a value of another kind, since Go allocates the `*string` before checking the type. The parameters are set exactly when it holds an object under `parameters`, and then they are that object's fields. |
| LinkedServiceHelpers.ReferenceToJson | internal/services/datafactory/data_factory_linked_custom_service_resource.go:369-373 | The JSON an expanded reference marshals to: an object with its `referenceName` and its `type`, and with `parameters` only when the parameter map is not nil. |
| LinkedServiceHelpers.FlattenDataFactoryLinkedServiceIntegrationRuntimeV2Typed | internal/services/datafactory/data_factory_linked_custom_service_resource.go:376-390 | Nil gives no block. A reference gives exactly one block, named `""` when the reference has no name, holding the string-valued parameters. |
| LinkedServiceHelpers.IntegrationRuntimeRoundTrip | internal/services/datafactory/data_factory_linked_custom_service_resource.go:364-390 | For at most one block, expanding, marshalling, decoding and flattening gives the blocks back, name and parameters, nil parameters included. |
| LinkedServiceMapper.WrapTypeProperties | internal/services/datafactory/data_factory_linked_custom_service_resource.go:170 | The document Create decodes into its map: the configured `type_properties_json` text placed, unparsed, as the value of `typeProperties`. |
| LinkedServiceMapper.KnownPropertiesContents | internal/services/datafactory/data_factory_linked_custom_service_resource.go:165-189 | Before the additional properties, the map has exactly the known keys. `type` and `connectVia` are there with the model type and the runtime reference, unless the decoded document has that key. Every decoded key is there. `description`, `parameters` and `annotations` are there when non-empty, with their values, and win over a decoded key of the same name. |
| LinkedServiceMapper.ExpandPropertiesKeys | internal/services/datafactory/data_factory_linked_custom_service_resource.go:165-193 | Create's map has exactly the known keys plus the additional ones. Every additional property holds its string, even on a key that collides with a known one. |
| LinkedServiceMapper.ExpandPropertiesContents | internal/services/datafactory/data_factory_linked_custom_service_resource.go:165-189 | A key no additional property overrides holds what the earlier steps put there: the type, the reference, a non-empty description, the expanded parameters, the annotations in order, or the decoded value. |
| LinkedServiceMapper.SeededProperties | internal/services/datafactory/data_factory_linked_custom_service_resource.go:165-173 | With no optional values, the map is the two seeds with the decoded keys laid over them. |
| LinkedServiceMapper.DescriptionStep | internal/services/datafactory/data_factory_linked_custom_service_resource.go:175-177 | Setting a non-empty description changes the map at `description` only. |
| LinkedServiceMapper.ParametersStep | internal/services/datafactory/data_factory_linked_custom_service_resource.go:179-181 | Setting non-empty parameters changes the map at `parameters` only, to their expanded specifications. |
| LinkedServiceMapper.AnnotationsStep | internal/services/datafactory/data_factory_linked_custom_service_resource.go:183-189 | Setting non-empty annotations changes the map at `annotations` only. |
| LinkedServiceMapper.CopyAnnotations | internal/services/datafactory/data_factory_linked_custom_service_resource.go:184-187 | The element-by-element copy into a fresh slice equals the annotations, in order. |
| LinkedServiceMapper.BuildKnownProperties | internal/services/datafactory/data_factory_linked_custom_service_resource.go:165-189 | The seeding, decoding and three conditional insertions yield KnownProperties. |
| LinkedServiceMapper.BuildProperties | internal/services/datafactory/data_factory_linked_custom_service_resource.go:165-193 | A `type_properties_json` that does not decode fails with the malformed error. Otherwise the result is ExpandProperties of the decoded document, with the additional properties inserted last. |
| LinkedServiceMapper.ExpandExample | internal/services/datafactory/data_factory_linked_custom_service_resource.go:165-181 | A blob-storage type with parameter `a = "1"` and an empty type-properties object gives exactly `type`, `connectVia` (an absent reference), `typeProperties` and `parameters` (`a` with default `"1"`, type String). |
| LinkedServiceMapper.TakeDescription | internal/services/datafactory/data_factory_linked_custom_service_resource.go:290-293 | A present, non-null `description` is decoded into the state as a string and its key is dropped. Otherwise the state and the map are unchanged. |
| LinkedServiceMapper.TakeType | internal/services/datafactory/data_factory_linked_custom_service_resource.go:294-297 | A present, non-null `type` is decoded into the state as a string and its key is dropped. Otherwise nothing changes. |
| LinkedServiceMapper.TakeAnnotations | internal/services/datafactory/data_factory_linked_custom_service_resource.go:298-303 | A present, non-null `annotations` is decoded as a string list and its key is dropped. Otherwise nothing changes. |
| LinkedServiceMapper.TakeParameters | internal/services/datafactory/data_factory_linked_custom_service_resource.go:304-309 | A present, non-null `parameters` is flattened to the parameter defaults and its key is dropped. Otherwise nothing changes. Corrected (see Findings): the flatten is FlattenParameters, not the placeholder as written. |
| LinkedServiceMapper.DecodeAnnotations | internal/services/datafactory/data_factory_linked_custom_service_resource.go:299-301 | Decoding `annotations`: a non-array gives an empty list. An array gives one entry per element: a string element is kept and any other element becomes `""`. |
| LinkedServiceMapper.AdditionalPropertiesOf | internal/services/datafactory/data_factory_linked_custom_service_resource.go:319-325 | Marshalling the leftover map and unmarshalling it into a string map keeps every key. A string value is kept and any other value becomes `""`. |
| LinkedServiceMapper.FlattenParameters | internal/services/datafactory/data_factory_linked_custom_service_resource.go:403-406 | Corrected (see Findings): an object gives exactly one entry per non-null specification, holding its default value. A non-object gives an empty map. |
| LinkedServiceMapper.TakeConnectVia | internal/services/datafactory/data_factory_linked_custom_service_resource.go:310-315 | A present, non-null `connectVia` is decoded and flattened to one runtime block and its key is dropped. Otherwise nothing changes. |
| LinkedServiceMapper.LeftoverByDrops | internal/services/datafactory/data_factory_linked_custom_service_resource.go:290-316 | Dropping the five well-known keys in order, then `typeProperties`, leaves exactly Leftover: every key except a well-known key with a value, and except `typeProperties`. |
| LinkedServiceMapper.ReadsAfterDrops | internal/services/datafactory/data_factory_linked_custom_service_resource.go:290-316 | Each key the pass reads after earlier deletions is present, with the same value, exactly when it is in the remote map. |
| LinkedServiceMapper.FlattenRemoteProperties | internal/services/datafactory/data_factory_linked_custom_service_resource.go:275-332 | The pass over a mutable copy of the remote properties yields FlattenedModel of them. Corrected (see Findings): parameters are flattened by FlattenParameters, and `typeProperties` is read before its key is deleted. |
| LinkedServiceMapper.AdditionalPropertiesAfterRead | internal/services/datafactory/data_factory_linked_custom_service_resource.go:290-325 | `additional_properties` holds exactly the remote keys minus the well-known keys that had a value and minus `typeProperties`. Every string-valued leftover key keeps its value. A well-known key whose value is null is not deleted, so it arrives there as `""`. |
| LinkedServiceMapper.PropToJson | internal/services/datafactory/data_factory_linked_custom_service_resource.go:195-197 | How each value of Create's map is marshalled: a text is a JSON string, a nil reference is null, a reference is its ReferenceToJson, a decoded value stays as decoded, expanded parameters are an object of their specifications, and annotations are an array of strings in order. |
| LinkedServiceMapper.SpecificationToJson | internal/services/datafactory/data_factory_linked_custom_service_resource.go:195-197 | An expanded parameter marshals to `{"type": <its type name>, "defaultValue": <its default>}`. |
| LinkedServiceMapper.ParametersRoundTrip | internal/services/datafactory/data_factory_linked_custom_service_resource.go:392-406 | String parameters survive expanding, marshalling and the corrected flatten. |
| LinkedServiceMapper.AnnotationsRoundTrip | internal/services/datafactory/data_factory_linked_custom_service_resource.go:183-189 | Annotations survive marshalling and decoding, in order. |
| LinkedServiceMapper.SentType | internal/services/datafactory/data_factory_linked_custom_service_resource.go:166 | On the wire, `type` is present and holds the model type, unless an additional property takes the key. |
| LinkedServiceMapper.SentTypeProperties | internal/services/datafactory/data_factory_linked_custom_service_resource.go:170-173 | On the wire, a non-null decoded `typeProperties` value is present unchanged. |
| LinkedServiceMapper.SentConnectVia | internal/services/datafactory/data_factory_linked_custom_service_resource.go:167 | On the wire, `connectVia` is present exactly when a runtime block is configured. The nil reference marshals to null and is absent. |
| LinkedServiceMapper.SentDescription | internal/services/datafactory/data_factory_linked_custom_service_resource.go:175-177 | On the wire, `description` is present exactly when it is non-empty, with its text. |
| LinkedServiceMapper.SentParameters | internal/services/datafactory/data_factory_linked_custom_service_resource.go:179-181 | On the wire, `parameters` is present exactly when there are some, as their specifications. |
| LinkedServiceMapper.SentAnnotations | internal/services/datafactory/data_factory_linked_custom_service_resource.go:183-189 | On the wire, `annotations` is present exactly when there are some, as a list in order. |
| LinkedServiceMapper.SentLeftover | internal/services/datafactory/data_factory_linked_custom_service_resource.go:191-193 | When no additional property is named like a key Read consumes, what Read folds back into `additional_properties` is exactly the configured additional properties, whatever the decoded type properties and however many runtime blocks. |
| LinkedServiceMapper.FlattenAfterExpand | internal/services/datafactory/data_factory_linked_custom_service_resource.go:165-332 | For such a configuration, with at most one runtime block and a non-null decoded type-properties value, Read after Create gives the configuration back. Here `type_properties_json` is the encoding of the decoded value, and Read is the corrected pass of the Findings. |
| LinkedServiceMapper.ExpandAfterFlattenKeepsStrings | internal/services/datafactory/data_factory_linked_custom_service_resource.go:191-193 | Create after Read keeps every string-valued key Read left to `additional_properties`. It also keeps the type and a non-empty description, unless the decoded type properties shadow them. |
| LinkedServiceMapper.ParametersLostAsWritten | internal/services/datafactory/data_factory_linked_custom_service_resource.go:403-406 | As written, the placeholder flattens the specifications of `a = "1"` to an empty map; the corrected flatten gives `a = "1"` back. |
| LinkedServiceMapper.TypePropertiesLostAsWritten | internal/services/datafactory/data_factory_linked_custom_service_resource.go:316-332 | As written, `type_properties_json` reads back as `""` for every remote map. The corrected pass gives the encoding of a present `typeProperties` value. |
| LinkedServiceMapper.FlattenLinkedServiceParametersStringMap | internal/services/datafactory/data_factory_linked_custom_service_resource.go:403-406 | As written: the placeholder returns nil for any input. ParametersLostAsWritten shows the configured parameters it loses. |
| LinkedServiceMapper.TypePropertiesAsWritten | internal/services/datafactory/data_factory_linked_custom_service_resource.go:316-332 | As written: once the key has been deleted, the type-properties text is `""` for every remote map. |

## Left out

- A remote CreateOrUpdate or Delete that fails is modelled as writing nothing. So "the store is unchanged after a failed write" in Create's, Update's and Delete's ensures comes from this store abstraction, not from the program. A remote write can partly apply, and the provider never rolls it back.
- `Connector` keeps only its `Properties`. Update writes the whole fetched model back, so any other field of the fetched model is sent back as fetched; the model does not represent those fields.
- HTTP clients, registration and the framework: the connector and linked-service SDK clients, the client factory, resource registration, timeouts, context cancellation, the schema declarations, and `metadata.Decode`. Decoding is taken to yield the typed record.
- `metadata.Encode` of the linked custom service and its `MarkAsGone` path on Read. Only the state the flatten pass builds is modelled.
- `connectors.ParseConnectorID` is abstracted. The tracked identifier is either already parsed or absent, and an absent one gives the parse error.
- `PossibleValuesForPlatform` is not part of this model; the allowed platform values are a parameter.
- The epoch timestamp is a parameter, because `time.Unix(0, 0)` formatted as RFC 3339 depends on the local time zone.
- The regular expression engine is replaced by a matcher for the one shape used here: an anchored bounded repetition of one character class.
- JSON text parsing and encoding are parameters: `unmarshal` for Create's wrapped `type_properties_json`, and `encode` for the raw `typeProperties` value on Read. Consequences:
  - A `type_properties_json` that injects extra top-level keys into the wrapped document is not analysed; `unmarshal` may return any map.
  - The round trips take the decoded document to be `{"typeProperties": value}`.
- Go's case-insensitive matching of struct field names during decoding is not modelled: keys are matched exactly.
- The non-compiling and unfinished parts of the data factory file are left out:
  - `linkedservices.U` at :163;
  - the undefined `linkedService` at :203 and the write that follows it;
  - the linked-service Update at :217-253.

  The properties map is modelled up to the point where it is built.
- The linked-service Create and Delete plumbing around the two passes is left out: the presence check, requires-import and delete calls.
- LinkedServiceMapper.StoredProperties: the model assumes the typed SDK model leaves out null-valued properties when it sends Create's map and returns it. The SDK is not part of this model.
- LinkedServiceHelpers.ExpandLinkedServiceParametersStringMap: the source stores `&v`, the address of the loop variable, as each default value. The model gives each entry its own value, which is the Go 1.22 per-iteration semantics and what the code evidently means.
- ImpactConnectors.Delete: a successful Delete does not clear the tracked identifier; the framework does that afterwards. The model likewise leaves the tracked state untouched.
- ImpactConnectors.Read: the source dereferences `resp.Model.Properties` without a nil check. The model reports a nil model or nil properties as an explicit `Panicked` outcome rather than a runtime panic.
- The Create properties map always holds `connectVia`, with a nil reference when no runtime block is configured. On the wire, the nil reference is null, so the key is absent there (SentConnectVia).
- LinkedServiceMapper.TakeParameters: models the corrected flatten, not the placeholder of :403-406, which returns nil; the as-written behaviour is LinkedServiceMapper.FlattenLinkedServiceParametersStringMap, exhibited by LinkedServiceMapper.ParametersLostAsWritten.
- LinkedServiceMapper.FlattenRemoteProperties: models the corrected pass, which flattens parameters with FlattenParameters and reads `typeProperties` before deleting it; the as-written reading after the delete is LinkedServiceMapper.TypePropertiesAsWritten, exhibited by LinkedServiceMapper.TypePropertiesLostAsWritten.
- LinkedServiceMapper.FlattenAfterExpand is stated only for configurations that meet three conditions:
  - no additional property is named like a key Read consumes, since such a property overwrites that key in Create's map;
  - at most one runtime block, the schema's limit;
  - a non-null decoded type-properties value.

  It holds for the corrected Read pass, not for the source as written (see Findings).
- Nil and empty maps and lists in the top-level fields of the Terraform model are not told apart. The framework stores both as empty. The parameters of a runtime block are the exception: they are an optional map, and nil stays apart from empty.

## Findings

| source | as written | input that shows it | evidently intended | confidence | as-written member | corrected member |
|---|---|---|---|---|---|---|
| internal/services/datafactory/data_factory_linked_custom_service_resource.go:403-406 | `flattenLinkedServiceParametersStringMap` is a placeholder that returns nil, so Read always clears `parameters` | parameters `{a = "1"}`: Create sends `{"a": {"type": "String", "defaultValue": "1"}}`, and Read gives an empty map | each non-null specification flattened to its string default, so configured parameters read back unchanged | not executed | LinkedServiceMapper.ParametersLostAsWritten (with LinkedServiceMapper.FlattenLinkedServiceParametersStringMap) | LinkedServiceMapper.FlattenParameters, proved by LinkedServiceMapper.ParametersRoundTrip |
| internal/services/datafactory/data_factory_linked_custom_service_resource.go:316-332 | `typeProperties` is deleted from the map at :316 before it is read at :328, so `type_properties_json` is always `""` after Read | any remote map with `"typeProperties": {}` gives `""` | the raw text of the `typeProperties` value, taken before the key is dropped | not executed | LinkedServiceMapper.TypePropertiesLostAsWritten (with LinkedServiceMapper.TypePropertiesAsWritten) | LinkedServiceMapper.FlattenedModel with LinkedServiceMapper.FlattenRemoteProperties, proved by LinkedServiceMapper.FlattenAfterExpand |
