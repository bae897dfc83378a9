/**
 * The lifecycle of the `azurerm_impact_connectors` resource. Create, Read,
 * Update and Delete act on two pieces of state: the remote connector store
 * behind the Impact connectors API (identifier to connector record), and
 * the provider's tracked state for one resource instance (its identifier,
 * set by `SetID` and cleared by `MarkAsGone`, and the attributes `Encode`
 * writes). How the remote API answers each call is a parameter.
 */
module ImpactConnectors {
  import opened Wrappers

  const ResourceType: string := "azurerm_impact_connectors"

  /** The identifier built by `connectors.NewConnectorID`: a subscription and a connector name. */
  datatype ConnectorId = ConnectorId(subscriptionId: string, connectorName: string)

  function NewConnectorID(subscriptionId: string, connectorName: string): (id: ConnectorId)
  {
    ConnectorId(subscriptionId, connectorName)
  }

  /** `connectors.Platform` and `connectors.ProvisioningState` are string enumerations. */
  type Platform = string
  type ProvisioningState = string

  /** The record shape of `connectors.ConnectorProperties`. */
  datatype ConnectorProperties = ConnectorProperties(
    connectorId: string,
    connectorType: Platform,
    lastRunTimeStamp: string,
    provisioningState: Option<ProvisioningState>,
    tenantId: string)

  /** `connectors.Connector`; only its `Properties` pointer matters here. */
  datatype Connector = Connector(properties: Option<ConnectorProperties>)

  /** `ImpactConnectorsResourceModel`: the configuration and state attributes. */
  datatype ImpactConnectorsResourceModel = ImpactConnectorsResourceModel(name: string, connectorType: string)

  /** An error from the remote API other than not-found (throttling, a server error, the transport). */
  datatype Fault = Fault(message: string)

  /** How the remote API answers one Get: with the record, with an empty body, or with a fault. */
  datatype Reply = Answered | AnsweredWithoutBody | Failed(fault: Fault)

  /** What a Get returns: the model (nil when the body was empty), not-found, or another failure. */
  datatype GetResponse = Found(model: Option<Connector>) | NotFound | GetFailed(fault: Fault)

  datatype Cause = NotFoundCause | RemoteFault(fault: Fault) | ModelNil | PropertiesNil

  /** The errors the four operations return. */
  datatype Error =
    | InvalidId                                              // ParseConnectorID of the tracked id failed
    | PresenceCheckFailed(id: ConnectorId, fault: Fault)     // "checking for presence of existing %s"
    | RequiresImport(resourceType: string, id: ConnectorId)  // ResourceRequiresImport
    | CreateFailed(id: ConnectorId, fault: Fault)            // "creating %s"
    | RetrieveFailed(id: ConnectorId, cause: Cause)          // "retrieving %s"
    | UpdateFailed(id: ConnectorId, fault: Fault)            // "updating %s"
    | DeleteFailed(id: ConnectorId, cause: Cause)            // "deleting %s"
    | Panicked(id: ConnectorId, cause: Cause)                // Read dereferences a nil Model or Properties

  /** The remote store, seen through the Get / CreateOrUpdate / Delete client. */
  class ConnectorsClient {
    var records: map<ConnectorId, Connector>

    constructor (initial: map<ConnectorId, Connector>)
      ensures records == initial
    {
      records := initial;
    }

    /** A fault wins; otherwise an absent id is not-found, and a present one is returned. */
    function Get(id: ConnectorId, reply: Reply): (r: GetResponse)
      reads this
      ensures r.GetFailed? <==> reply.Failed?
      ensures reply.Failed? ==> r.fault == reply.fault
      ensures r.NotFound? <==> !reply.Failed? && id !in records
      ensures r == Found(None) <==> reply.AnsweredWithoutBody? && id in records
      ensures r.Found? && r.model.Some? <==> reply.Answered? && id in records
      ensures r.Found? && r.model.Some? ==> r.model.value == records[id]
    {
      if reply.Failed? then GetFailed(reply.fault)
      else if id !in records then NotFound
      else if reply.AnsweredWithoutBody? then Found(None)
      else Found(Some(records[id]))
    }

    /** Stores the body under id unless the call fails; a failing call writes nothing. */
    method CreateOrUpdate(id: ConnectorId, body: Connector, fault: Option<Fault>) returns (err: Option<Fault>)
      modifies this
      ensures err == fault
      ensures records == if fault.None? then old(records)[id := body] else old(records)
    {
      err := fault;
      if fault.None? {
        records := records[id := body];
      }
    }

    /** Removes id; a fault or an absent id is an error and removes nothing. */
    method Delete(id: ConnectorId, fault: Option<Fault>) returns (err: Option<Cause>)
      modifies this
      ensures fault.Some? ==> err == Some(RemoteFault(fault.value)) && records == old(records)
      ensures fault.None? && id !in old(records) ==> err == Some(NotFoundCause) && records == old(records)
      ensures fault.None? && id in old(records) ==> err == None && records == old(records) - {id}
    {
      if fault.Some? {
        err := Some(RemoteFault(fault.value));
      } else if id !in records {
        err := Some(NotFoundCause);
      } else {
        err := None;
        records := records - {id};
      }
    }
  }

  /** The provider's tracked state for one resource instance. */
  class ResourceMetaData {
    /** The tracked identifier, already parsed; None when the id is empty or does not parse. */
    var id: Option<ConnectorId>
    /** The attributes last written by Encode (the prior state during an Update). */
    var state: Option<ImpactConnectorsResourceModel>

    constructor (id: Option<ConnectorId>, state: Option<ImpactConnectorsResourceModel>)
      ensures this.id == id && this.state == state
    {
      this.id := id;
      this.state := state;
    }

    method SetID(newId: ConnectorId)
      modifies this`id
      ensures id == Some(newId)
    {
      id := Some(newId);
    }

    /** Forgets the resource: the framework then drops it from the tracked state. */
    method MarkAsGone()
      modifies this`id
      ensures id == None
    {
      id := None;
    }

    method Encode(s: ImpactConnectorsResourceModel)
      modifies this`state
      ensures state == Some(s)
    {
      state := Some(s);
    }

    /** `HasChanges("connector_type")`: the configured type differs from the prior state's. */
    predicate HasConnectorTypeChange(configured: string)
      reads this
    {
      state.None? || state.value.connectorType != configured
    }
  }

  /**
   * The body Create sends: the configured type and the formatted epoch as
   * the mandatory last-run timestamp; every other field is Go's zero value.
   */
  function NewConnector(config: ImpactConnectorsResourceModel, epochStamp: string): (c: Connector)
    ensures c.properties.Some?
    ensures c.properties.value.connectorType == config.connectorType
    ensures c.properties.value.lastRunTimeStamp == epochStamp
    ensures c.properties.value.connectorId == "" && c.properties.value.tenantId == ""
    ensures c.properties.value.provisioningState.None?
  {
    Connector(Some(ConnectorProperties("", config.connectorType, epochStamp, None, "")))
  }

  /**
   * Create. A Get fault is returned as is; a connector that already exists
   * demands an import and is never written; otherwise the new connector is
   * written and, only if that succeeds, its id becomes the tracked identity.
   * `epochStamp` is `time.Unix(0, 0)` formatted as RFC 3339 in the local zone.
   */
  method Create(client: ConnectorsClient, metadata: ResourceMetaData, subscriptionId: string,
                config: ImpactConnectorsResourceModel, lookup: Reply, write: Option<Fault>, epochStamp: string)
    returns (err: Option<Error>)
    modifies client, metadata
    ensures metadata.state == old(metadata.state)
    ensures var id := NewConnectorID(subscriptionId, config.name);
      lookup.Failed? ==>
        err == Some(PresenceCheckFailed(id, lookup.fault))
        && client.records == old(client.records) && metadata.id == old(metadata.id)
    ensures var id := NewConnectorID(subscriptionId, config.name);
      !lookup.Failed? && id in old(client.records) ==>
        err == Some(RequiresImport(ResourceType, id))
        && client.records == old(client.records) && metadata.id == old(metadata.id)
    ensures var id := NewConnectorID(subscriptionId, config.name);
      !lookup.Failed? && id !in old(client.records) && write.Some? ==>
        err == Some(CreateFailed(id, write.value))
        && client.records == old(client.records) && metadata.id == old(metadata.id)
    ensures var id := NewConnectorID(subscriptionId, config.name);
      !lookup.Failed? && id !in old(client.records) && write.None? ==>
        err == None
        && client.records == old(client.records)[id := NewConnector(config, epochStamp)]
        && metadata.id == Some(id)
  {
    var id := NewConnectorID(subscriptionId, config.name);
    var existing := client.Get(id, lookup);
    if existing.GetFailed? {
      return Some(PresenceCheckFailed(id, existing.fault));
    }
    if !existing.NotFound? {
      return Some(RequiresImport(ResourceType, id));
    }
    var connector := NewConnector(config, epochStamp);
    var writeErr := client.CreateOrUpdate(id, connector, write);
    if writeErr.Some? {
      return Some(CreateFailed(id, writeErr.value));
    }
    metadata.SetID(id);
    return None;
  }

  /**
   * Read. Not-found forgets the resource and is not an error; a found
   * connector is encoded as its name (from the id) and its stored type.
   * The source dereferences the model and its properties without a nil
   * check, which panics; the model reports that as Panicked.
   */
  method Read(client: ConnectorsClient, metadata: ResourceMetaData, lookup: Reply)
    returns (err: Option<Error>)
    modifies metadata
    ensures old(metadata.id).None? ==> err == Some(InvalidId) && unchanged(metadata)
    ensures old(metadata.id).Some? ==>
      var id := old(metadata.id.value);
      match client.Get(id, lookup)
      case GetFailed(f) => err == Some(RetrieveFailed(id, RemoteFault(f))) && unchanged(metadata)
      case NotFound => err == None && metadata.id == None && metadata.state == old(metadata.state)
      case Found(None) => err == Some(Panicked(id, ModelNil)) && unchanged(metadata)
      case Found(Some(Connector(None))) => err == Some(Panicked(id, PropertiesNil)) && unchanged(metadata)
      case Found(Some(Connector(Some(p)))) =>
        err == None && metadata.id == old(metadata.id)
        && metadata.state == Some(ImpactConnectorsResourceModel(id.connectorName, p.connectorType))
  {
    if metadata.id.None? {
      return Some(InvalidId);
    }
    var id := metadata.id.value;
    var resp := client.Get(id, lookup);
    match resp
    case GetFailed(f) =>
      return Some(RetrieveFailed(id, RemoteFault(f)));
    case NotFound =>
      metadata.MarkAsGone();
      return None;
    case Found(model) =>
      if model.None? {
        return Some(Panicked(id, ModelNil));
      }
      if model.value.properties.None? {
        return Some(Panicked(id, PropertiesNil));
      }
      var state := ImpactConnectorsResourceModel(id.connectorName, model.value.properties.value.connectorType);
      metadata.Encode(state);
      return None;
  }

  /**
   * Update. Any Get failure, not-found included, and a nil model or nil
   * properties stop it before any write. Otherwise the fetched record is
   * written back with `ConnectorType` replaced when `connector_type`
   * changed, and left as fetched otherwise.
   */
  method Update(client: ConnectorsClient, metadata: ResourceMetaData, config: ImpactConnectorsResourceModel,
                lookup: Reply, write: Option<Fault>)
    returns (err: Option<Error>)
    modifies client
    ensures metadata.id.None? ==> err == Some(InvalidId) && client.records == old(client.records)
    ensures metadata.id.Some? ==>
      var id := metadata.id.value;
      match old(client.Get(id, lookup))
      case GetFailed(f) => err == Some(RetrieveFailed(id, RemoteFault(f))) && client.records == old(client.records)
      case NotFound => err == Some(RetrieveFailed(id, NotFoundCause)) && client.records == old(client.records)
      case Found(None) => err == Some(RetrieveFailed(id, ModelNil)) && client.records == old(client.records)
      case Found(Some(Connector(None))) =>
        err == Some(RetrieveFailed(id, PropertiesNil)) && client.records == old(client.records)
      case Found(Some(Connector(Some(p)))) =>
        var written := if metadata.HasConnectorTypeChange(config.connectorType)
                       then p.(connectorType := config.connectorType) else p;
        if write.Some? then err == Some(UpdateFailed(id, write.value)) && client.records == old(client.records)
        else err == None && client.records == old(client.records)[id := Connector(Some(written))]
    // Nothing but the type changes: the id, tenant, timestamp and provisioning state are kept.
    ensures err == None ==>
      var id := metadata.id.value;
      && id in old(client.records) && old(client.records)[id].properties.Some?
      && id in client.records && client.records[id].properties.Some?
      && var before, after := old(client.records)[id].properties.value, client.records[id].properties.value;
      && after.connectorId == before.connectorId
      && after.tenantId == before.tenantId
      && after.lastRunTimeStamp == before.lastRunTimeStamp
      && after.provisioningState == before.provisioningState
      && after.connectorType
         == (if metadata.HasConnectorTypeChange(config.connectorType) then config.connectorType
             else before.connectorType)
  {
    if metadata.id.None? {
      return Some(InvalidId);
    }
    var id := metadata.id.value;
    var existing := client.Get(id, lookup);
    match existing
    case GetFailed(f) =>
      return Some(RetrieveFailed(id, RemoteFault(f)));
    case NotFound =>
      return Some(RetrieveFailed(id, NotFoundCause));
    case Found(model) =>
      if model.None? {
        return Some(RetrieveFailed(id, ModelNil));
      }
      if model.value.properties.None? {
        return Some(RetrieveFailed(id, PropertiesNil));
      }
      var props := model.value.properties.value;
      if metadata.HasConnectorTypeChange(config.connectorType) {
        props := props.(connectorType := config.connectorType);
      }
      var writeErr := client.CreateOrUpdate(id, Connector(Some(props)), write);
      if writeErr.Some? {
        return Some(UpdateFailed(id, writeErr.value));
      }
      return None;
  }

  /** Delete. Every error of the remote Delete, not-found included, is returned. */
  method Delete(client: ConnectorsClient, metadata: ResourceMetaData, fault: Option<Fault>)
    returns (err: Option<Error>)
    modifies client
    ensures metadata.id.None? ==> err == Some(InvalidId) && client.records == old(client.records)
    ensures metadata.id.Some? && fault.Some? ==>
      err == Some(DeleteFailed(metadata.id.value, RemoteFault(fault.value)))
      && client.records == old(client.records)
    ensures metadata.id.Some? && fault.None? && metadata.id.value !in old(client.records) ==>
      err == Some(DeleteFailed(metadata.id.value, NotFoundCause)) && client.records == old(client.records)
    ensures metadata.id.Some? && fault.None? && metadata.id.value in old(client.records) ==>
      err == None && client.records == old(client.records) - {metadata.id.value}
  {
    if metadata.id.None? {
      return Some(InvalidId);
    }
    var id := metadata.id.value;
    var cause := client.Delete(id, fault);
    if cause.Some? {
      return Some(DeleteFailed(id, cause.value));
    }
    return None;
  }

  // ---------------------------------------------------------------------------
  // Scenarios from the acceptance tests, proved from the contracts above.

  /** The import step: after a successful Create, Read reproduces the configured name and type. */
  method CreateThenRead(client: ConnectorsClient, metadata: ResourceMetaData, subscriptionId: string,
                        config: ImpactConnectorsResourceModel, epochStamp: string)
    returns (createErr: Option<Error>, readErr: Option<Error>)
    requires NewConnectorID(subscriptionId, config.name) !in client.records
    modifies client, metadata
    ensures createErr == None && readErr == None
    ensures metadata.id == Some(NewConnectorID(subscriptionId, config.name))
    ensures metadata.state == Some(config)
  {
    createErr := Create(client, metadata, subscriptionId, config, Answered, None, epochStamp);
    readErr := Read(client, metadata, Answered);
  }

  /**
   * The requires-import test: a second resource with the same name and
   * subscription fails with the import error and leaves the first
   * connector in place.
   */
  method CreateTwice(client: ConnectorsClient, first: ResourceMetaData, second: ResourceMetaData,
                     subscriptionId: string, config: ImpactConnectorsResourceModel, epochStamp: string)
    returns (firstErr: Option<Error>, secondErr: Option<Error>)
    requires NewConnectorID(subscriptionId, config.name) !in client.records
    requires first != second
    modifies client, first, second
    ensures firstErr == None
    ensures secondErr == Some(RequiresImport(ResourceType, NewConnectorID(subscriptionId, config.name)))
    ensures client.records == old(client.records)[NewConnectorID(subscriptionId, config.name) := NewConnector(config, epochStamp)]
    ensures second.id == old(second.id)
  {
    firstErr := Create(client, first, subscriptionId, config, Answered, None, epochStamp);
    secondErr := Create(client, second, subscriptionId, config, Answered, None, epochStamp);
  }

  /** After a successful Delete, a Get of the same identifier reports not-found. */
  method DeleteThenGet(client: ConnectorsClient, metadata: ResourceMetaData, lookup: Reply)
    returns (err: Option<Error>, resp: GetResponse)
    requires metadata.id.Some? && !lookup.Failed?
    modifies client
    ensures err == None ==> resp == NotFound
  {
    err := Delete(client, metadata, None);
    resp := client.Get(metadata.id.value, lookup);
  }
}
