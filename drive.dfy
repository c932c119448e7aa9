/**
  school/redfish/drive.go: the Drive resource, its decoder (the top-level
  `Assembly` link and the nested `Links` object with its member counts),
  `GetDrive`, `ListReferencedDrives` and the relation accessors.
 */
module Drives {
  import opened Wrappers
  import opened Transport
  import opened Common
  import Assemblies

  /** The exported members of `Drive` besides its Entity. */
  datatype DriveFields = DriveFields(
    odataContext: string,
    odataEtag: string,
    odataId: string,
    odataType: string,
    assetTag: string,
    blockSizeBytes: int,
    capableSpeedGbs: int,
    capacityBytes: Int64,
    description: string,
    encryptionAbility: string,
    encryptionStatus: string,
    failurePredicted: bool,
    hotspareReplacementMode: string,
    hotspareType: string,
    identifiers: seq<Opaque>,
    indicatorLED: string,
    location: seq<Opaque>,
    manufacturer: string,
    mediaType: string,
    model: string,
    negotiatedSpeedGbs: int,
    operations: seq<Opaque>,
    partNumber: string,
    physicalLocation: Opaque,
    predictedMediaLifeLeftPercent: int,
    protocol: string,
    revision: string,
    rotationSpeedRPM: int,
    sku: string,
    serialNumber: string,
    status: Opaque,
    statusIndicator: string,
    endpointsCount: int,
    volumesCount: int,
    pcieFunctionCount: int)

  /** `Drive`, with its private link addresses. */
  datatype Drive = Drive(
    entity: Entity,
    fields: DriveFields,
    assembly: string,
    chassis: string,
    endpoints: seq<string>,
    volumes: seq<string>,
    pcieFunctions: seq<string>)

  /** The decoder's `links`: the nested `Links` object. */
  datatype DriveLinksWire = DriveLinksWire(
    chassis: Option<WireLink>,
    endpoints: seq<WireLink>,
    endpointCount: int,
    pcieFunctions: seq<WireLink>,
    pcieFunctionsCount: int,
    volumes: seq<WireLink>,
    volumeCount: int)

  /**
    The decoder's auxiliary shape. `fields.endpointsCount` is what the tag
    `Endpoints@odata.count` fills at the top level.
   */
  datatype DriveWire = DriveWire(entity: EntityWire, fields: DriveFields, links: DriveLinksWire, assembly: Option<WireLink>)

  /** The zero `Drive` a fresh `var drive Drive` holds. */
  function Zero(): Drive {
    Drive(
      Entity("", "", null),
      DriveFields("", "", "", "", "", 0, 0, 0, "", "", "", false, "", "", [], "", [], "", "", "", 0, [], "",
        Opaque(""), 0, "", "", 0, "", "", Opaque(""), "", 0, 0, 0),
      "", "", [], [], [])
  }

  /**
    What a successful decode leaves in the receiver. The three counts come
    from the nested `Links` object, overriding the top-level
    `Endpoints@odata.count`.
   */
  function Project(wire: DriveWire): (d: Drive)
    ensures d.entity == Detached(wire.entity)
    ensures d.assembly == LinkAddress(wire.assembly)
    ensures d.chassis == LinkAddress(wire.links.chassis)
    ensures d.endpoints == ToStrings(wire.links.endpoints)
    ensures d.volumes == ToStrings(wire.links.volumes)
    ensures d.pcieFunctions == ToStrings(wire.links.pcieFunctions)
    ensures d.fields.endpointsCount == wire.links.endpointCount
    ensures d.fields.volumesCount == wire.links.volumeCount
    ensures d.fields.pcieFunctionCount == wire.links.pcieFunctionsCount
    ensures d.fields.(endpointsCount := wire.fields.endpointsCount,
                      volumesCount := wire.fields.volumesCount,
                      pcieFunctionCount := wire.fields.pcieFunctionCount) == wire.fields
  {
    Drive(
      Detached(wire.entity),
      wire.fields.(endpointsCount := wire.links.endpointCount,
                   volumesCount := wire.links.volumeCount,
                   pcieFunctionCount := wire.links.pcieFunctionsCount),
      LinkAddress(wire.assembly),
      LinkAddress(wire.links.chassis),
      ToStrings(wire.links.endpoints),
      ToStrings(wire.links.volumes),
      ToStrings(wire.links.pcieFunctions))
  }

  /** The envelope a drive is decoded from; its counts travel in `Links`. */
  function Envelope(d: Drive): DriveWire {
    DriveWire(
      EntityWire(d.entity.id, d.entity.name),
      d.fields,
      DriveLinksWire(
        EncodeLink(d.chassis),
        EncodeLinks(d.endpoints), d.fields.endpointsCount,
        EncodeLinks(d.pcieFunctions), d.fields.pcieFunctionCount,
        EncodeLinks(d.volumes), d.fields.volumesCount),
      EncodeLink(d.assembly))
  }

  lemma ProjectEnvelope(d: Drive)
    ensures Project(Envelope(d)) == d.(entity := d.entity.(client := null))
  {
    LinkRoundTrip(d.assembly);
    LinkRoundTrip(d.chassis);
    LinksRoundTrip(d.endpoints);
    LinksRoundTrip(d.volumes);
    LinksRoundTrip(d.pcieFunctions);
  }

  /** A top-level `Endpoints@odata.count` (or any top-level count) never survives decoding. */
  lemma TopLevelCountsIgnored(wire: DriveWire, endpoints: int, volumes: int, pcieFunctions: int)
    ensures Project(wire.(fields := wire.fields.(endpointsCount := endpoints,
                                                 volumesCount := volumes,
                                                 pcieFunctionCount := pcieFunctions)))
         == Project(wire)
  {
  }

  function Decode(parse: Parser<DriveWire>, body: Bytes): (r: Option<Drive>)
    ensures r.None? <==> parse(body).None?
    ensures r.Some? ==> r.value == Project(parse(body).value)
  {
    match parse(body)
    case None => None
    case Some(wire) => Some(Project(wire))
  }

  /**
    `Drive.UnmarshalJSON`: on a parse failure the receiver is returned
    untouched; otherwise it is overwritten with the typed members and then
    its link addresses and the nested counts are set one by one.
   */
  method UnmarshalJSON(receiver: Drive, b: Bytes, parse: Parser<DriveWire>) returns (decoded: Drive, err: Option<Error>)
    ensures parse(b).None? ==> decoded == receiver && err == Some(MalformedEnvelope)
    ensures parse(b).Some? ==> err == None && Some(decoded) == Decode(parse, b)
  {
    var parsed := parse(b);
    if parsed.None? {
      return receiver, Some(MalformedEnvelope);
    }
    var t := parsed.value;
    decoded := Drive(Detached(t.entity), t.fields, "", "", [], [], []);
    decoded := decoded.(assembly := LinkAddress(t.assembly));
    decoded := decoded.(chassis := LinkAddress(t.links.chassis));
    decoded := decoded.(endpoints := ToStrings(t.links.endpoints));
    decoded := decoded.(fields := decoded.fields.(endpointsCount := t.links.endpointCount));
    decoded := decoded.(volumes := ToStrings(t.links.volumes));
    decoded := decoded.(fields := decoded.fields.(volumesCount := t.links.volumeCount));
    decoded := decoded.(pcieFunctions := ToStrings(t.links.pcieFunctions));
    decoded := decoded.(fields := decoded.fields.(pcieFunctionCount := t.links.pcieFunctionsCount));
    err := None;
  }

  /** `drive.SetClient(c)`: only the client changes. */
  function Attached(x: Drive, c: ApiClient): (r: Drive)
    ensures r.entity.client == c
    ensures r.(entity := x.entity) == x
    ensures r.entity.id == x.entity.id && r.entity.name == x.entity.name
  {
    x.(entity := SetClient(x.entity, c))
  }

  function Build(c: ApiClient): DriveWire -> Drive {
    wire => Attached(Project(wire), c)
  }

  /** What `GetDrive(c, uri)` returns when `c` is in state `view`. */
  function FetchDrive(view: ClientView, c: ApiClient, uri: string, parse: Parser<DriveWire>): (r: Result<Drive>)
    ensures r.Ok? ==> r.value.entity.client == c
  {
    Fetch(view, uri, parse, Build(c))
  }

  function Fetcher(view: ClientView, c: ApiClient, parse: Parser<DriveWire>): string -> Result<Drive> {
    uri => FetchDrive(view, c, uri, parse)
  }

  /** What `ListReferencedDrives(c, link)` returns. */
  function ListDrives(view: ClientView, c: ApiClient, link: string, collection: CollectionOracle, parse: Parser<DriveWire>): (l: Listing<Drive>)
    ensures link == "" ==> l == Listing([], None)
    ensures link != "" && collection(view, link).Err? ==> l == Listing([], Some(collection(view, link).error))
    ensures link != "" && collection(view, link).Ok? ==> l == FetchEach(collection(view, link).value, Fetcher(view, c, parse))
  {
    if link == "" then Listing([], None)
    else ListFrom(collection(view, link), Fetcher(view, c, parse))
  }

  /** Every drive a list returns carries the listing client. */
  lemma ListedCarryClient(view: ClientView, c: ApiClient, link: string, collection: CollectionOracle, parse: Parser<DriveWire>)
    ensures var l := ListDrives(view, c, link, collection, parse);
      forall j :: 0 <= j < |l.items| ==> l.items[j].entity.client == c
  {
    var l := ListDrives(view, c, link, collection, parse);
    forall j | 0 <= j < |l.items|
      ensures l.items[j].entity.client == c
    {
      assert Fetcher(view, c, parse)(collection(view, link).value[j]) == Ok(l.items[j]);
    }
  }

  /** `GetDrive`: GET, decode into a zero value, attach the client. */
  method GetDrive(c: ApiClient, uri: string, parse: Parser<DriveWire>) returns (r: Result<Drive>)
    ensures r == FetchDrive(c.View(), c, uri, parse)
    ensures Exchange(c.View(), GET, uri, None).Err? ==> r == Err(Exchange(c.View(), GET, uri, None).error)
    ensures Exchange(c.View(), GET, uri, None).Ok? && parse(Exchange(c.View(), GET, uri, None).value.body).None? ==>
      r == Err(MalformedEnvelope)
    ensures r.Ok? ==> r.value.entity.client == c
  {
    var resp := c.Get(uri);
    if resp.Err? {
      return Err(resp.error);
    }
    var drive, err := UnmarshalJSON(Zero(), resp.value.body, parse);
    if err.Some? {
      return Err(err.value);
    }
    r := Ok(Attached(drive, c));
  }

  /**
    `ListReferencedDrives`: no request, and no use of a possibly nil client, for the empty link; otherwise
    the collection's members are fetched in order up to the first failure.
   */
  method ListReferencedDrives(c: ApiClient?, link: string, collection: CollectionOracle, parse: Parser<DriveWire>)
    returns (result: seq<Drive>, err: Option<Error>)
    requires link != "" ==> c != null
    ensures link == "" ==> result == [] && err == None
    ensures c != null ==> Listing(result, err) == ListDrives(c.View(), c, link, collection, parse)
    ensures c != null && link != "" && collection(c.View(), link).Err? ==> result == [] && err == Some(collection(c.View(), link).error)
    ensures forall j :: 0 <= j < |result| ==> result[j].entity.client == c
  {
    result := [];
    if link == "" {
      return result, None;
    }
    ListedCarryClient(c.View(), c, link, collection, parse);
    var view := c.View();
    var links := collection(view, link);
    if links.Err? {
      return result, Some(links.error);
    }
    var members := links.value;
    var outcome := Fetcher(view, c, parse);
    FetchEachStart(members, outcome);
    var i := 0;
    while i < |members|
      invariant 0 <= i <= |members|
      invariant FetchEach(members, outcome) == Prepend(result, FetchEach(members[i..], outcome))
    {
      var drive := GetDrive(c, members[i], parse);
      assert drive == outcome(members[i]);
      if drive.Err? {
        FetchEachHalt(members, outcome, i, result, drive.error);
        return result, Some(drive.error);
      }
      FetchEachAdvance(members, outcome, i, result, drive.value);
      result := result + [drive.value];
      i := i + 1;
    }
    FetchEachDone(members, outcome, result);
    err := None;
  }

  /**
    `Drive.Assembly`: no request for an empty address; otherwise the fetch of
    the stored address through the drive's client (a nil client cannot be
    called, hence the precondition).
   */
  function Assembly(drive: Drive, parse: Parser<Assemblies.AssemblyWire>): (r: Result<Option<Assemblies.Assembly>>)
    requires drive.assembly != "" ==> drive.entity.client != null
    reads drive.entity.client
    ensures drive.assembly == "" <==> r == Ok(None)
    ensures drive.assembly != "" ==>
      r == Present(Assemblies.FetchAssembly(drive.entity.client.View(), drive.entity.client, drive.assembly, parse))
    ensures r.Ok? && r.value.Some? ==> r.value.value.entity.client == drive.entity.client
  {
    if drive.assembly == "" then Ok(None)
    else Present(Assemblies.FetchAssembly(drive.entity.client.View(), drive.entity.client, drive.assembly, parse))
  }

  /** `Drive.Chassis`: no request for an empty address; otherwise `GetChassis` of it. */
  function Chassis<C>(drive: Drive, getChassis: Resolver<C>): (r: Result<Option<C>>)
    reads drive.entity.client
    ensures drive.chassis == "" <==> r == Ok(None)
    ensures drive.chassis != "" ==> r == Present(getChassis(ViewOf(drive.entity.client), drive.chassis))
  {
    if drive.chassis == "" then Ok(None)
    else Present(getChassis(ViewOf(drive.entity.client), drive.chassis))
  }

  /** `Drive.Endpoints`: `GetEndpoint` of each stored address, stopping at the first failure. */
  method Endpoints<E>(drive: Drive, getEndpoint: Resolver<E>) returns (result: seq<E>, err: Option<Error>)
    ensures Listing(result, err) == FetchEach(drive.endpoints, Resolving(getEndpoint, ViewOf(drive.entity.client)))
    ensures err.None? ==> |result| == |drive.endpoints|
    ensures err.Some? ==> |result| < |drive.endpoints|
  {
    result, err := FetchAll(drive.endpoints, Resolving(getEndpoint, ViewOf(drive.entity.client)));
  }

  /** `Drive.Volumes`: `GetVolume` of each stored address, stopping at the first failure. */
  method Volumes<V>(drive: Drive, getVolume: Resolver<V>) returns (result: seq<V>, err: Option<Error>)
    ensures Listing(result, err) == FetchEach(drive.volumes, Resolving(getVolume, ViewOf(drive.entity.client)))
    ensures err.None? ==> |result| == |drive.volumes|
    ensures err.Some? ==> |result| < |drive.volumes|
  {
    result, err := FetchAll(drive.volumes, Resolving(getVolume, ViewOf(drive.entity.client)));
  }

  /** `Drive.PCIeFunctions`: `GetPCIeFunction` of each stored address, stopping at the first failure. */
  method PCIeFunctions<F>(drive: Drive, getPCIeFunction: Resolver<F>) returns (result: seq<F>, err: Option<Error>)
    ensures Listing(result, err) == FetchEach(drive.pcieFunctions, Resolving(getPCIeFunction, ViewOf(drive.entity.client)))
    ensures err.None? ==> |result| == |drive.pcieFunctions|
    ensures err.Some? ==> |result| < |drive.pcieFunctions|
  {
    result, err := FetchAll(drive.pcieFunctions, Resolving(getPCIeFunction, ViewOf(drive.entity.client)));
  }
}
