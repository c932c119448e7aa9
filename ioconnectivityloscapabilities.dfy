/**
  swordfish/ioconnectivityloscapabilities.go: the
  IOConnectivityLoSCapabilities resource (decoded by the JSON library
  directly), its fetch and its list, and the decode its test asserts.
 */
module IOConnectivityLoS {
  import opened Wrappers
  import opened Transport
  import opened Common

  /** One entry of `SupportedLinesOfService`, with the members its test envelope carries. */
  datatype IOConnectivityLineOfService = IOConnectivityLineOfService(
    odataContext: string,
    odataId: string,
    odataType: string,
    id: string,
    name: string,
    description: string,
    accessProtocols: seq<string>,
    maxBytesPerSecond: Int64,
    maxIOPS: int)

  /** The exported members of `IOConnectivityLoSCapabilities` besides its Entity. */
  datatype IOConnectivityLoSCapabilitiesFields = IOConnectivityLoSCapabilitiesFields(
    odataContext: string,
    odataEtag: string,
    odataId: string,
    odataType: string,
    description: string,
    identifier: Opaque,
    maxSupportedBytesPerSecond: Int64,
    maxSupportedIOPS: int,
    supportedAccessProtocols: seq<string>,
    supportedLinesOfService: seq<IOConnectivityLineOfService>,
    supportedLinesOfServiceCount: int)

  datatype IOConnectivityLoSCapabilities = IOConnectivityLoSCapabilities(entity: Entity, fields: IOConnectivityLoSCapabilitiesFields)

  /** The envelope as the JSON library delivers it. */
  datatype IOConnectivityLoSCapabilitiesWire = IOConnectivityLoSCapabilitiesWire(entity: EntityWire, fields: IOConnectivityLoSCapabilitiesFields)

  /** What decoding an envelope yields: every member copied, no client yet. */
  function Project(wire: IOConnectivityLoSCapabilitiesWire): (caps: IOConnectivityLoSCapabilities)
    ensures caps.entity == Detached(wire.entity)
    ensures caps.fields == wire.fields
  {
    IOConnectivityLoSCapabilities(Detached(wire.entity), wire.fields)
  }

  /** The envelope a resource is decoded from. */
  function Envelope(caps: IOConnectivityLoSCapabilities): IOConnectivityLoSCapabilitiesWire {
    IOConnectivityLoSCapabilitiesWire(EntityWire(caps.entity.id, caps.entity.name), caps.fields)
  }

  lemma ProjectEnvelope(caps: IOConnectivityLoSCapabilities)
    ensures Project(Envelope(caps)) == caps.(entity := caps.entity.(client := null))
  {
  }

  /** `json.Decode` into an `IOConnectivityLoSCapabilities`: fails exactly when the parse fails. */
  function Decode(parse: Parser<IOConnectivityLoSCapabilitiesWire>, body: Bytes): (r: Option<IOConnectivityLoSCapabilities>)
    ensures r.None? <==> parse(body).None?
    ensures r.Some? ==> r.value == Project(parse(body).value)
  {
    match parse(body)
    case None => None
    case Some(wire) => Some(Project(wire))
  }

  const FixtureId: string := "IOConnectivityLoSCapabilities-1"
  const FixtureName: string := "IOConnectivityLoSCapabilitiesOne"
  const FixtureProtocols: seq<string> := ["FC", "FCP", "FCoE", "iSCSI"]

  /** The first line of service of the test envelope. */
  const FixtureLineOne: IOConnectivityLineOfService := IOConnectivityLineOfService(
    "/redfish/v1/$metadata#IOConnectivityLineOfService.IOConnectivityLineOfService",
    "/redfish/v1/IOConnectivityLineOfService",
    "#IOConnectivityLineOfService.v1_1_1.IOConnectivityLineOfService",
    "IOConnectivityLineOfService-1", "IOConnectivityLineOfServiceOne", "IOConnectivityLineOfService One",
    FixtureProtocols, 5000000000, 1000000000)

  /** The second line of service of the test envelope. */
  const FixtureLineTwo: IOConnectivityLineOfService := IOConnectivityLineOfService(
    "/redfish/v1/$metadata#IOConnectivityLineOfService.IOConnectivityLineOfService",
    "/redfish/v1/IOConnectivityLineOfService",
    "#IOConnectivityLineOfService.v1_1_1.IOConnectivityLineOfService",
    "IOConnectivityLineOfService-2", "IOConnectivityLineOfServiceTwo", "IOConnectivityLineOfService Two",
    ["FC", "FCP", "FCoE"], 5000000000, 1000000000)

  /** The test envelope, as the JSON library parses it. */
  const FixtureWire: IOConnectivityLoSCapabilitiesWire := IOConnectivityLoSCapabilitiesWire(
    EntityWire(FixtureId, FixtureName),
    IOConnectivityLoSCapabilitiesFields(
      "/redfish/v1/$metadata#IOConnectivityLoSCapabilities.IOConnectivityLoSCapabilities",
      "",
      "/redfish/v1/IOConnectivityLoSCapabilities",
      "#IOConnectivityLoSCapabilities.v1_1_1.IOConnectivityLoSCapabilities",
      "IOConnectivityLoSCapabilities One",
      Opaque(""),
      5000000000,
      1000000000,
      FixtureProtocols,
      [FixtureLineOne, FixtureLineTwo],
      0))

  /** `common.FCPProtocol`. */
  const FCPProtocol: string := "FCP"

  /**
    Decoding the test envelope: the scalars are copied verbatim and the
    arrays keep wire order.
   */
  lemma DecodesFixture(parse: Parser<IOConnectivityLoSCapabilitiesWire>, body: Bytes)
    requires parse(body) == Some(FixtureWire)
    ensures Decode(parse, body).Some?
    ensures var result := Decode(parse, body).value;
      && result.entity.id == FixtureId
      && result.entity.name == FixtureName
      && result.fields.maxSupportedBytesPerSecond == 5000000000
      && result.fields.maxSupportedIOPS == 1000000000
      && |result.fields.supportedAccessProtocols| == 4
      && result.fields.supportedAccessProtocols[1] == FCPProtocol
      && |result.fields.supportedLinesOfService| == 2
      && result.fields.supportedLinesOfService[0].maxBytesPerSecond == 5000000000
  {
    var wire := FixtureWire;
    var result := Project(wire);
    assert Decode(parse, body) == Some(result);
    assert result.fields == wire.fields;
  }

  /** `capabilities.SetClient(c)`: only the client changes. */
  function Attached(caps: IOConnectivityLoSCapabilities, c: ApiClient): (r: IOConnectivityLoSCapabilities)
    ensures r.entity.client == c
    ensures r.(entity := caps.entity) == caps
    ensures r.entity.id == caps.entity.id && r.entity.name == caps.entity.name
  {
    caps.(entity := SetClient(caps.entity, c))
  }

  function Build(c: ApiClient): IOConnectivityLoSCapabilitiesWire -> IOConnectivityLoSCapabilities {
    wire => Attached(Project(wire), c)
  }

  /** What `GetIOConnectivityLoSCapabilities(c, uri)` returns when `c` is in state `view`. */
  function FetchIOConnectivityLoSCapabilities(view: ClientView, c: ApiClient, uri: string, parse: Parser<IOConnectivityLoSCapabilitiesWire>): (r: Result<IOConnectivityLoSCapabilities>)
    ensures r.Ok? ==> r.value.entity.client == c
  {
    Fetch(view, uri, parse, Build(c))
  }

  function Fetcher(view: ClientView, c: ApiClient, parse: Parser<IOConnectivityLoSCapabilitiesWire>): string -> Result<IOConnectivityLoSCapabilities> {
    uri => FetchIOConnectivityLoSCapabilities(view, c, uri, parse)
  }

  /** Every capabilities resource a list returns carries the listing client. */
  lemma ListedCarryClient(view: ClientView, c: ApiClient, link: string, collection: CollectionOracle, parse: Parser<IOConnectivityLoSCapabilitiesWire>)
    ensures var l := ListIOConnectivityLoSCapabilities(view, c, link, collection, parse);
      forall j :: 0 <= j < |l.items| ==> l.items[j].entity.client == c
  {
    var l := ListIOConnectivityLoSCapabilities(view, c, link, collection, parse);
    forall j | 0 <= j < |l.items|
      ensures l.items[j].entity.client == c
    {
      assert Fetcher(view, c, parse)(collection(view, link).value[j]) == Ok(l.items[j]);
    }
  }

  /** What `ListReferencedIOConnectivityLoSCapabilitiess(c, link)` returns. */
  function ListIOConnectivityLoSCapabilities(view: ClientView, c: ApiClient, link: string, collection: CollectionOracle, parse: Parser<IOConnectivityLoSCapabilitiesWire>): (l: Listing<IOConnectivityLoSCapabilities>)
    ensures link == "" ==> l == Listing([], None)
    ensures link != "" && collection(view, link).Err? ==> l == Listing([], Some(collection(view, link).error))
    ensures link != "" && collection(view, link).Ok? ==> l == FetchEach(collection(view, link).value, Fetcher(view, c, parse))
  {
    if link == "" then Listing([], None)
    else ListFrom(collection(view, link), Fetcher(view, c, parse))
  }

  /** `GetIOConnectivityLoSCapabilities`: GET, decode into a fresh value, attach the client. */
  method GetIOConnectivityLoSCapabilities(c: ApiClient, uri: string, parse: Parser<IOConnectivityLoSCapabilitiesWire>) returns (r: Result<IOConnectivityLoSCapabilities>)
    ensures r == FetchIOConnectivityLoSCapabilities(c.View(), c, uri, parse)
    ensures Exchange(c.View(), GET, uri, None).Err? ==> r == Err(Exchange(c.View(), GET, uri, None).error)
    ensures Exchange(c.View(), GET, uri, None).Ok? && parse(Exchange(c.View(), GET, uri, None).value.body).None? ==>
      r == Err(MalformedEnvelope)
    ensures r.Ok? ==> r.value.entity.client == c
  {
    var resp := c.Get(uri);
    if resp.Err? {
      return Err(resp.error);
    }
    var capabilities := Decode(parse, resp.value.body);
    if capabilities.None? {
      return Err(MalformedEnvelope);
    }
    r := Ok(Attached(capabilities.value, c));
  }

  /**
    `ListReferencedIOConnectivityLoSCapabilitiess`: no request, and no use of a possibly nil client, for the empty link; otherwise the
    collection's members are fetched in order up to the first failure.
   */
  method ListReferencedIOConnectivityLoSCapabilitiess(c: ApiClient?, link: string, collection: CollectionOracle, parse: Parser<IOConnectivityLoSCapabilitiesWire>)
    returns (result: seq<IOConnectivityLoSCapabilities>, err: Option<Error>)
    requires link != "" ==> c != null
    ensures link == "" ==> result == [] && err == None
    ensures c != null ==> Listing(result, err) == ListIOConnectivityLoSCapabilities(c.View(), c, link, collection, parse)
    ensures c != null && link != "" && collection(c.View(), link).Err? ==> result == [] && err == Some(collection(c.View(), link).error)
    ensures forall j :: 0 <= j < |result| ==> result[j].entity.client == c
  {
    result := [];
    if link == "" {
      return result, None;
    }
    ListedCarryClient(c.View(), c, link, collection, parse);
    var view := c.View();
    var links := collection(view, link);
    if links.Err? {
      return result, Some(links.error);
    }
    var members := links.value;
    var outcome := Fetcher(view, c, parse);
    FetchEachStart(members, outcome);
    var i := 0;
    while i < |members|
      invariant 0 <= i <= |members|
      invariant FetchEach(members, outcome) == Prepend(result, FetchEach(members[i..], outcome))
    {
      var capabilities := GetIOConnectivityLoSCapabilities(c, members[i], parse);
      assert capabilities == outcome(members[i]);
      if capabilities.Err? {
        FetchEachHalt(members, outcome, i, result, capabilities.error);
        return result, Some(capabilities.error);
      }
      FetchEachAdvance(members, outcome, i, result, capabilities.value);
      result := result + [capabilities.value];
      i := i + 1;
    }
    FetchEachDone(members, outcome, result);
    err := None;
  }
}
