/**
  swordfish/datastorageloscapabilities.go: the DataStorageLoSCapabilities
  resource (decoded by the JSON library directly), its fetch and its list.
 */
module DataStorageLoS {
  import opened Wrappers
  import opened Transport
  import opened Common

  /** The exported members of `DataStorageLoSCapabilities` besides its Entity. */
  datatype DataStorageLoSCapabilitiesFields = DataStorageLoSCapabilitiesFields(
    odataContext: string,
    odataEtag: string,
    odataId: string,
    odataType: string,
    description: string,
    identifier: Opaque,
    maximumRecoverableCapacitySourceCount: int,
    supportedAccessCapabilities: seq<string>,
    supportedLinesOfService: seq<Opaque>,
    supportedLinesOfServiceCount: int,
    supportedProvisioningPolicies: seq<string>,
    supportedRecoveryTimeObjectives: seq<string>,
    supportsSpaceEfficiency: bool)

  datatype DataStorageLoSCapabilities = DataStorageLoSCapabilities(entity: Entity, fields: DataStorageLoSCapabilitiesFields)

  /** The envelope as the JSON library delivers it. */
  datatype DataStorageLoSCapabilitiesWire = DataStorageLoSCapabilitiesWire(entity: EntityWire, fields: DataStorageLoSCapabilitiesFields)

  /** What decoding an envelope yields: every member copied, no client yet. */
  function Project(wire: DataStorageLoSCapabilitiesWire): (caps: DataStorageLoSCapabilities)
    ensures caps.entity == Detached(wire.entity)
    ensures caps.fields == wire.fields
  {
    DataStorageLoSCapabilities(Detached(wire.entity), wire.fields)
  }

  /** The envelope a resource is decoded from. */
  function Envelope(caps: DataStorageLoSCapabilities): DataStorageLoSCapabilitiesWire {
    DataStorageLoSCapabilitiesWire(EntityWire(caps.entity.id, caps.entity.name), caps.fields)
  }

  lemma ProjectEnvelope(caps: DataStorageLoSCapabilities)
    ensures Project(Envelope(caps)) == caps.(entity := caps.entity.(client := null))
  {
  }

  /** `json.Decode` into a `DataStorageLoSCapabilities`: fails exactly when the parse fails. */
  function Decode(parse: Parser<DataStorageLoSCapabilitiesWire>, body: Bytes): (r: Option<DataStorageLoSCapabilities>)
    ensures r.None? <==> parse(body).None?
    ensures r.Some? ==> r.value == Project(parse(body).value)
  {
    match parse(body)
    case None => None
    case Some(wire) => Some(Project(wire))
  }

  /** `capabilities.SetClient(c)`: only the client changes. */
  function Attached(caps: DataStorageLoSCapabilities, c: ApiClient): (r: DataStorageLoSCapabilities)
    ensures r.entity.client == c
    ensures r.(entity := caps.entity) == caps
    ensures r.entity.id == caps.entity.id && r.entity.name == caps.entity.name
  {
    caps.(entity := SetClient(caps.entity, c))
  }

  function Build(c: ApiClient): DataStorageLoSCapabilitiesWire -> DataStorageLoSCapabilities {
    wire => Attached(Project(wire), c)
  }

  /** What `GetDataStorageLoSCapabilities(c, uri)` returns when `c` is in state `view`. */
  function FetchDataStorageLoSCapabilities(view: ClientView, c: ApiClient, uri: string, parse: Parser<DataStorageLoSCapabilitiesWire>): (r: Result<DataStorageLoSCapabilities>)
    ensures r.Ok? ==> r.value.entity.client == c
  {
    Fetch(view, uri, parse, Build(c))
  }

  function Fetcher(view: ClientView, c: ApiClient, parse: Parser<DataStorageLoSCapabilitiesWire>): string -> Result<DataStorageLoSCapabilities> {
    uri => FetchDataStorageLoSCapabilities(view, c, uri, parse)
  }

  /** Every capabilities resource a list returns carries the listing client. */
  lemma ListedCarryClient(view: ClientView, c: ApiClient, link: string, collection: CollectionOracle, parse: Parser<DataStorageLoSCapabilitiesWire>)
    ensures var l := ListDataStorageLoSCapabilities(view, c, link, collection, parse);
      forall j :: 0 <= j < |l.items| ==> l.items[j].entity.client == c
  {
    var l := ListDataStorageLoSCapabilities(view, c, link, collection, parse);
    forall j | 0 <= j < |l.items|
      ensures l.items[j].entity.client == c
    {
      assert Fetcher(view, c, parse)(collection(view, link).value[j]) == Ok(l.items[j]);
    }
  }

  /** What `ListReferencedDataStorageLoSCapabilities(c, link)` returns. */
  function ListDataStorageLoSCapabilities(view: ClientView, c: ApiClient, link: string, collection: CollectionOracle, parse: Parser<DataStorageLoSCapabilitiesWire>): (l: Listing<DataStorageLoSCapabilities>)
    ensures link == "" ==> l == Listing([], None)
    ensures link != "" && collection(view, link).Err? ==> l == Listing([], Some(collection(view, link).error))
    ensures link != "" && collection(view, link).Ok? ==> l == FetchEach(collection(view, link).value, Fetcher(view, c, parse))
  {
    if link == "" then Listing([], None)
    else ListFrom(collection(view, link), Fetcher(view, c, parse))
  }

  /** `GetDataStorageLoSCapabilities`: GET, decode into a fresh value, attach the client. */
  method GetDataStorageLoSCapabilities(c: ApiClient, uri: string, parse: Parser<DataStorageLoSCapabilitiesWire>) returns (r: Result<DataStorageLoSCapabilities>)
    ensures r == FetchDataStorageLoSCapabilities(c.View(), c, uri, parse)
    ensures Exchange(c.View(), GET, uri, None).Err? ==> r == Err(Exchange(c.View(), GET, uri, None).error)
    ensures Exchange(c.View(), GET, uri, None).Ok? && parse(Exchange(c.View(), GET, uri, None).value.body).None? ==>
      r == Err(MalformedEnvelope)
    ensures r.Ok? ==> r.value.entity.client == c
  {
    var resp := c.Get(uri);
    if resp.Err? {
      return Err(resp.error);
    }
    var capabilities := Decode(parse, resp.value.body);
    if capabilities.None? {
      return Err(MalformedEnvelope);
    }
    r := Ok(Attached(capabilities.value, c));
  }

  /**
    `ListReferencedDataStorageLoSCapabilities`: no request, and no use of a possibly nil client, for the empty link; otherwise the
    collection's members are fetched in order up to the first failure.
   */
  method ListReferencedDataStorageLoSCapabilities(c: ApiClient?, link: string, collection: CollectionOracle, parse: Parser<DataStorageLoSCapabilitiesWire>)
    returns (result: seq<DataStorageLoSCapabilities>, err: Option<Error>)
    requires link != "" ==> c != null
    ensures link == "" ==> result == [] && err == None
    ensures c != null ==> Listing(result, err) == ListDataStorageLoSCapabilities(c.View(), c, link, collection, parse)
    ensures c != null && link != "" && collection(c.View(), link).Err? ==> result == [] && err == Some(collection(c.View(), link).error)
    ensures forall j :: 0 <= j < |result| ==> result[j].entity.client == c
  {
    result := [];
    if link == "" {
      return result, None;
    }
    ListedCarryClient(c.View(), c, link, collection, parse);
    var view := c.View();
    var links := collection(view, link);
    if links.Err? {
      return result, Some(links.error);
    }
    var members := links.value;
    var outcome := Fetcher(view, c, parse);
    FetchEachStart(members, outcome);
    var i := 0;
    while i < |members|
      invariant 0 <= i <= |members|
      invariant FetchEach(members, outcome) == Prepend(result, FetchEach(members[i..], outcome))
    {
      var capabilities := GetDataStorageLoSCapabilities(c, members[i], parse);
      assert capabilities == outcome(members[i]);
      if capabilities.Err? {
        FetchEachHalt(members, outcome, i, result, capabilities.error);
        return result, Some(capabilities.error);
      }
      FetchEachAdvance(members, outcome, i, result, capabilities.value);
      result := result + [capabilities.value];
      i := i + 1;
    }
    FetchEachDone(members, outcome, result);
    err := None;
  }
}
