/**
  redfish/computersystem.go: the Boot record and the ComputerSystem
  resource with their decoders, `GetComputerSystem`,
  `ListReferencedComputerSystems` and the relation accessors.
 */
module ComputerSystems {
  import opened Wrappers
  import opened Transport
  import opened Common

  /** The exported members of `Boot`. */
  datatype BootFields = BootFields(
    aliasBootOrder: seq<string>,
    bootNext: string,
    bootOrder: seq<string>,
    bootOrderPropertySelection: string,
    bootSourceOverrideEnabled: string,
    bootSourceOverrideMode: string,
    bootSourceOverrideTarget: string,
    uefiTargetBootSourceOverride: string)

  /** `Boot`; `bootOptions` is the private address of its boot-option collection. */
  datatype Boot = Boot(fields: BootFields, bootOptions: string)

  /** The Boot decoder's auxiliary shape: the typed members plus the `BootOptions` link. */
  datatype BootWire = BootWire(fields: BootFields, bootOptions: Option<WireLink>)

  function ProjectBoot(wire: BootWire): (boot: Boot)
    ensures boot.fields == wire.fields
    ensures boot.bootOptions == LinkAddress(wire.bootOptions)
  {
    Boot(wire.fields, LinkAddress(wire.bootOptions))
  }

  function EnvelopeBoot(boot: Boot): BootWire {
    BootWire(boot.fields, EncodeLink(boot.bootOptions))
  }

  lemma ProjectEnvelopeBoot(boot: Boot)
    ensures ProjectBoot(EnvelopeBoot(boot)) == boot
  {
    LinkRoundTrip(boot.bootOptions);
  }

  /**
    `Boot.UnmarshalJSON`: on a parse failure the receiver is returned
    untouched; otherwise it is overwritten with the typed members and then
    `bootOptions` is set from the link.
   */
  method UnmarshalBoot(receiver: Boot, b: Bytes, parse: Parser<BootWire>) returns (decoded: Boot, err: Option<Error>)
    ensures parse(b).None? ==> decoded == receiver && err == Some(MalformedEnvelope)
    ensures parse(b).Some? ==> err == None && decoded == ProjectBoot(parse(b).value)
  {
    var parsed := parse(b);
    if parsed.None? {
      return receiver, Some(MalformedEnvelope);
    }
    decoded := Boot(parsed.value.fields, "");
    decoded := decoded.(bootOptions := LinkAddress(parsed.value.bootOptions));
    err := None;
  }

  /** The exported members of `ComputerSystem` besides its Entity and its Boot. */
  datatype ComputerSystemFields = ComputerSystemFields(
    odataContext: string,
    odataEtag: string,
    odataId: string,
    odataType: string,
    actions: Opaque,
    assetTag: string,
    biosVersion: string,
    description: string,
    hostName: string,
    hostWatchdogTimer: Opaque,
    hostedServices: string,
    hostingRoles: seq<string>,
    indicatorLED: string,
    manufacturer: string,
    memorySummary: Opaque,
    model: string,
    name: string,
    pcieDevicesCount: int,
    pcieFunctionsCount: int,
    partNumber: string,
    powerRestorePolicy: string,
    powerState: string,
    processorSummary: Opaque,
    redundancy: string,
    redundancyCount: string,
    sku: string,
    serialNumber: string,
    status: Opaque,
    subModel: string,
    systemType: string,
    trustedModules: seq<Opaque>,
    uuid: string)

  /** `ComputerSystem`, with its private link addresses. */
  datatype ComputerSystem = ComputerSystem(
    entity: Entity,
    fields: ComputerSystemFields,
    boot: Boot,
    bios: string,
    ethernetInterfaces: string,
    logServices: string,
    memory: string,
    memoryDomains: string,
    networkInterfaces: string,
    pcieDevices: seq<string>,
    pcieFunctions: seq<string>,
    processors: string,
    secureBoot: string,
    simpleStorage: string,
    storage: string,
    chassis: seq<string>)

  /** `CSLinks`: the nested `Links` object; only `Chassis` is kept by the decoder. */
  datatype CSLinksWire = CSLinksWire(
    chassis: seq<WireLink>,
    chassisCount: int,
    consumingComputerSystems: seq<WireLink>,
    consumingComputerSystemsCount: int,
    cooledBy: seq<WireLink>,
    cooledByCount: int,
    endpoints: seq<WireLink>,
    endpointsCount: int,
    managedBy: seq<WireLink>,
    managedByCount: int,
    poweredBy: seq<WireLink>,
    poweredByCount: int,
    resourceBlocks: seq<WireLink>,
    resourceBlocksCount: int,
    supplyingComputerSystems: seq<WireLink>,
    supplyingComputerSystemsCount: int)

  /** The decoder's auxiliary shape: typed members, Boot, ten links, two link arrays and `Links`. */
  datatype ComputerSystemWire = ComputerSystemWire(
    entity: EntityWire,
    fields: ComputerSystemFields,
    boot: BootWire,
    bios: Option<WireLink>,
    processors: Option<WireLink>,
    memory: Option<WireLink>,
    ethernetInterfaces: Option<WireLink>,
    simpleStorage: Option<WireLink>,
    secureBoot: Option<WireLink>,
    storage: Option<WireLink>,
    networkInterfaces: Option<WireLink>,
    logServices: Option<WireLink>,
    memoryDomains: Option<WireLink>,
    pcieDevices: seq<WireLink>,
    pcieFunctions: seq<WireLink>,
    links: CSLinksWire)

  /** The zero `ComputerSystem` a fresh `var computersystem ComputerSystem` holds. */
  function Zero(): ComputerSystem {
    ComputerSystem(
      Entity("", "", null),
      ComputerSystemFields("", "", "", "", Opaque(""), "", "", "", "", Opaque(""), "", [], "", "", Opaque(""), "", "",
        0, 0, "", "", "", Opaque(""), "", "", "", "", Opaque(""), "", "", [], ""),
      Boot(BootFields([], "", [], "", "", "", "", ""), ""),
      "", "", "", "", "", "", [], [], "", "", "", "", [])
  }

  /**
    What a successful decode leaves in the receiver: each single link's
    address in the same-named slot, the two top-level link arrays, and the
    chassis array from `Links`.
   */
  function Project(wire: ComputerSystemWire): (cs: ComputerSystem)
    ensures cs.entity == Detached(wire.entity)
    ensures cs.fields == wire.fields
    ensures cs.boot == ProjectBoot(wire.boot)
    ensures cs.bios == LinkAddress(wire.bios)
    ensures cs.processors == LinkAddress(wire.processors)
    ensures cs.memory == LinkAddress(wire.memory)
    ensures cs.ethernetInterfaces == LinkAddress(wire.ethernetInterfaces)
    ensures cs.simpleStorage == LinkAddress(wire.simpleStorage)
    ensures cs.networkInterfaces == LinkAddress(wire.networkInterfaces)
    ensures cs.secureBoot == LinkAddress(wire.secureBoot)
    ensures cs.storage == LinkAddress(wire.storage)
    ensures cs.logServices == LinkAddress(wire.logServices)
    ensures cs.memoryDomains == LinkAddress(wire.memoryDomains)
    ensures cs.pcieDevices == ToStrings(wire.pcieDevices)
    ensures cs.pcieFunctions == ToStrings(wire.pcieFunctions)
    ensures cs.chassis == ToStrings(wire.links.chassis)
  {
    ComputerSystem(
      Detached(wire.entity),
      wire.fields,
      ProjectBoot(wire.boot),
      LinkAddress(wire.bios),
      LinkAddress(wire.ethernetInterfaces),
      LinkAddress(wire.logServices),
      LinkAddress(wire.memory),
      LinkAddress(wire.memoryDomains),
      LinkAddress(wire.networkInterfaces),
      ToStrings(wire.pcieDevices),
      ToStrings(wire.pcieFunctions),
      LinkAddress(wire.processors),
      LinkAddress(wire.secureBoot),
      LinkAddress(wire.simpleStorage),
      LinkAddress(wire.storage),
      ToStrings(wire.links.chassis))
  }

  /** The envelope a system is decoded from; the `Links` arrays it does not keep are empty. */
  function Envelope(cs: ComputerSystem): ComputerSystemWire {
    ComputerSystemWire(
      EntityWire(cs.entity.id, cs.entity.name),
      cs.fields,
      EnvelopeBoot(cs.boot),
      EncodeLink(cs.bios),
      EncodeLink(cs.processors),
      EncodeLink(cs.memory),
      EncodeLink(cs.ethernetInterfaces),
      EncodeLink(cs.simpleStorage),
      EncodeLink(cs.secureBoot),
      EncodeLink(cs.storage),
      EncodeLink(cs.networkInterfaces),
      EncodeLink(cs.logServices),
      EncodeLink(cs.memoryDomains),
      EncodeLinks(cs.pcieDevices),
      EncodeLinks(cs.pcieFunctions),
      CSLinksWire(EncodeLinks(cs.chassis), |cs.chassis|, [], 0, [], 0, [], 0, [], 0, [], 0, [], 0, [], 0))
  }

  lemma ProjectEnvelope(cs: ComputerSystem)
    ensures Project(Envelope(cs)) == cs.(entity := cs.entity.(client := null))
  {
    ProjectEnvelopeBoot(cs.boot);
    LinkRoundTrip(cs.bios);
    LinkRoundTrip(cs.processors);
    LinkRoundTrip(cs.memory);
    LinkRoundTrip(cs.ethernetInterfaces);
    LinkRoundTrip(cs.simpleStorage);
    LinkRoundTrip(cs.secureBoot);
    LinkRoundTrip(cs.storage);
    LinkRoundTrip(cs.networkInterfaces);
    LinkRoundTrip(cs.logServices);
    LinkRoundTrip(cs.memoryDomains);
    LinksRoundTrip(cs.pcieDevices);
    LinksRoundTrip(cs.pcieFunctions);
    LinksRoundTrip(cs.chassis);
  }

  /** Of the `Links` object only `Chassis` reaches the decoded system. */
  lemma OtherLinksIgnored(wire: ComputerSystemWire, other: CSLinksWire)
    ensures Project(wire.(links := other.(chassis := wire.links.chassis))) == Project(wire)
  {
  }

  function Decode(parse: Parser<ComputerSystemWire>, body: Bytes): (r: Option<ComputerSystem>)
    ensures r.None? <==> parse(body).None?
    ensures r.Some? ==> r.value == Project(parse(body).value)
  {
    match parse(body)
    case None => None
    case Some(wire) => Some(Project(wire))
  }

  /**
    `ComputerSystem.UnmarshalJSON`: on a parse failure the receiver is
    returned untouched; otherwise it is overwritten with the typed members
    (the Boot member decoded by its own decoder) and then its link addresses
    are set one by one.
   */
  method UnmarshalJSON(receiver: ComputerSystem, b: Bytes, parse: Parser<ComputerSystemWire>) returns (decoded: ComputerSystem, err: Option<Error>)
    ensures parse(b).None? ==> decoded == receiver && err == Some(MalformedEnvelope)
    ensures parse(b).Some? ==> err == None && Some(decoded) == Decode(parse, b)
  {
    var parsed := parse(b);
    if parsed.None? {
      return receiver, Some(MalformedEnvelope);
    }
    var t := parsed.value;
    decoded := ComputerSystem(Detached(t.entity), t.fields, ProjectBoot(t.boot), "", "", "", "", "", "", [], [], "", "", "", "", []);
    decoded := decoded.(bios := LinkAddress(t.bios));
    decoded := decoded.(processors := LinkAddress(t.processors));
    decoded := decoded.(memory := LinkAddress(t.memory));
    decoded := decoded.(ethernetInterfaces := LinkAddress(t.ethernetInterfaces));
    decoded := decoded.(simpleStorage := LinkAddress(t.simpleStorage));
    decoded := decoded.(networkInterfaces := LinkAddress(t.networkInterfaces));
    decoded := decoded.(secureBoot := LinkAddress(t.secureBoot));
    decoded := decoded.(storage := LinkAddress(t.storage));
    decoded := decoded.(logServices := LinkAddress(t.logServices));
    decoded := decoded.(memoryDomains := LinkAddress(t.memoryDomains));
    decoded := decoded.(pcieDevices := ToStrings(t.pcieDevices));
    decoded := decoded.(pcieFunctions := ToStrings(t.pcieFunctions));
    decoded := decoded.(chassis := ToStrings(t.links.chassis));
    err := None;
  }

  /** `computersystem.SetClient(c)`: only the client changes. */
  function Attached(x: ComputerSystem, c: ApiClient): (r: ComputerSystem)
    ensures r.entity.client == c
    ensures r.(entity := x.entity) == x
    ensures r.entity.id == x.entity.id && r.entity.name == x.entity.name
  {
    x.(entity := SetClient(x.entity, c))
  }

  function Build(c: ApiClient): ComputerSystemWire -> ComputerSystem {
    wire => Attached(Project(wire), c)
  }

  /** What `GetComputerSystem(c, uri)` returns when `c` is in state `view`. */
  function FetchComputerSystem(view: ClientView, c: ApiClient, uri: string, parse: Parser<ComputerSystemWire>): (r: Result<ComputerSystem>)
    ensures r.Ok? ==> r.value.entity.client == c
  {
    Fetch(view, uri, parse, Build(c))
  }

  function Fetcher(view: ClientView, c: ApiClient, parse: Parser<ComputerSystemWire>): string -> Result<ComputerSystem> {
    uri => FetchComputerSystem(view, c, uri, parse)
  }

  /** What `ListReferencedComputerSystems(c, link)` returns. */
  function ListComputerSystems(view: ClientView, c: ApiClient, link: string, collection: CollectionOracle, parse: Parser<ComputerSystemWire>): (l: Listing<ComputerSystem>)
    ensures collection(view, link).Err? ==> l == Listing([], Some(collection(view, link).error))
    ensures collection(view, link).Ok? ==> l == FetchEach(collection(view, link).value, Fetcher(view, c, parse))
  {
    ListFrom(collection(view, link), Fetcher(view, c, parse))
  }

  /** Every computer system a list returns carries the listing client. */
  lemma ListedCarryClient(view: ClientView, c: ApiClient, link: string, collection: CollectionOracle, parse: Parser<ComputerSystemWire>)
    ensures var l := ListComputerSystems(view, c, link, collection, parse);
      forall j :: 0 <= j < |l.items| ==> l.items[j].entity.client == c
  {
    var l := ListComputerSystems(view, c, link, collection, parse);
    forall j | 0 <= j < |l.items|
      ensures l.items[j].entity.client == c
    {
      assert Fetcher(view, c, parse)(collection(view, link).value[j]) == Ok(l.items[j]);
    }
  }

  /** `GetComputerSystem`: GET, decode into a zero value, attach the client. */
  method GetComputerSystem(c: ApiClient, uri: string, parse: Parser<ComputerSystemWire>) returns (r: Result<ComputerSystem>)
    ensures r == FetchComputerSystem(c.View(), c, uri, parse)
    ensures Exchange(c.View(), GET, uri, None).Err? ==> r == Err(Exchange(c.View(), GET, uri, None).error)
    ensures Exchange(c.View(), GET, uri, None).Ok? && parse(Exchange(c.View(), GET, uri, None).value.body).None? ==>
      r == Err(MalformedEnvelope)
    ensures r.Ok? ==> r.value.entity.client == c
  {
    var resp := c.Get(uri);
    if resp.Err? {
      return Err(resp.error);
    }
    var computersystem, err := UnmarshalJSON(Zero(), resp.value.body, parse);
    if err.Some? {
      return Err(err.value);
    }
    r := Ok(Attached(computersystem, c));
  }

  /**
    `ListReferencedComputerSystems`: the collection is looked up even for the empty
    link; its members are fetched in order up to the first failure.
   */
  method ListReferencedComputerSystems(c: ApiClient, link: string, collection: CollectionOracle, parse: Parser<ComputerSystemWire>)
    returns (result: seq<ComputerSystem>, err: Option<Error>)
    ensures Listing(result, err) == ListComputerSystems(c.View(), c, link, collection, parse)
    ensures collection(c.View(), link).Err? ==> result == [] && err == Some(collection(c.View(), link).error)
    ensures forall j :: 0 <= j < |result| ==> result[j].entity.client == c
  {
    ListedCarryClient(c.View(), c, link, collection, parse);
    result := [];
    var view := c.View();
    var links := collection(view, link);
    if links.Err? {
      return result, Some(links.error);
    }
    var members := links.value;
    var outcome := Fetcher(view, c, parse);
    FetchEachStart(members, outcome);
    var i := 0;
    while i < |members|
      invariant 0 <= i <= |members|
      invariant FetchEach(members, outcome) == Prepend(result, FetchEach(members[i..], outcome))
    {
      var computersystem := GetComputerSystem(c, members[i], parse);
      assert computersystem == outcome(members[i]);
      if computersystem.Err? {
        FetchEachHalt(members, outcome, i, result, computersystem.error);
        return result, Some(computersystem.error);
      }
      FetchEachAdvance(members, outcome, i, result, computersystem.value);
      result := result + [computersystem.value];
      i := i + 1;
    }
    FetchEachDone(members, outcome, result);
    err := None;
  }

  /** `ComputerSystem.Bios`: no request for an empty address; otherwise `GetBios` of it. */
  function Bios<B>(cs: ComputerSystem, getBios: Resolver<B>): (r: Result<Option<B>>)
    reads cs.entity.client
    ensures cs.bios == "" <==> r == Ok(None)
    ensures cs.bios != "" ==> r == Present(getBios(ViewOf(cs.entity.client), cs.bios))
  {
    if cs.bios == "" then Ok(None)
    else Present(getBios(ViewOf(cs.entity.client), cs.bios))
  }

  /** `ComputerSystem.SecureBoot`: no request for an empty address; otherwise `GetSecureBoot` of it. */
  function SecureBoot<S>(cs: ComputerSystem, getSecureBoot: Resolver<S>): (r: Result<Option<S>>)
    reads cs.entity.client
    ensures cs.secureBoot == "" <==> r == Ok(None)
    ensures cs.secureBoot != "" ==> r == Present(getSecureBoot(ViewOf(cs.entity.client), cs.secureBoot))
  {
    if cs.secureBoot == "" then Ok(None)
    else Present(getSecureBoot(ViewOf(cs.entity.client), cs.secureBoot))
  }

  /*
    The eight collection accessors below pass the stored address and the
    client, unguarded, to the list function of the target type; what they
    return for a decoded system is stated by RelationsFollowWire.
   */

  /** `ComputerSystem.EthernetInterfaces`. */
  function EthernetInterfaces<T>(cs: ComputerSystem, listReferenced: Lister<T>): (r: Listing<T>)
    reads cs.entity.client
  {
    listReferenced(ViewOf(cs.entity.client), cs.ethernetInterfaces)
  }

  /** `ComputerSystem.LogServices`. */
  function LogServices<T>(cs: ComputerSystem, listReferenced: Lister<T>): (r: Listing<T>)
    reads cs.entity.client
  {
    listReferenced(ViewOf(cs.entity.client), cs.logServices)
  }

  /** `ComputerSystem.Memory`. */
  function Memory<T>(cs: ComputerSystem, listReferenced: Lister<T>): (r: Listing<T>)
    reads cs.entity.client
  {
    listReferenced(ViewOf(cs.entity.client), cs.memory)
  }

  /** `ComputerSystem.MemoryDomains`. */
  function MemoryDomains<T>(cs: ComputerSystem, listReferenced: Lister<T>): (r: Listing<T>)
    reads cs.entity.client
  {
    listReferenced(ViewOf(cs.entity.client), cs.memoryDomains)
  }

  /** `ComputerSystem.NetworkInterfaces`. */
  function NetworkInterfaces<T>(cs: ComputerSystem, listReferenced: Lister<T>): (r: Listing<T>)
    reads cs.entity.client
  {
    listReferenced(ViewOf(cs.entity.client), cs.networkInterfaces)
  }

  /** `ComputerSystem.Processors`. */
  function Processors<T>(cs: ComputerSystem, listReferenced: Lister<T>): (r: Listing<T>)
    reads cs.entity.client
  {
    listReferenced(ViewOf(cs.entity.client), cs.processors)
  }

  /** `ComputerSystem.SimpleStorages`. */
  function SimpleStorages<T>(cs: ComputerSystem, listReferenced: Lister<T>): (r: Listing<T>)
    reads cs.entity.client
  {
    listReferenced(ViewOf(cs.entity.client), cs.simpleStorage)
  }

  /** `ComputerSystem.Storage`. */
  function Storage<T>(cs: ComputerSystem, listReferenced: Lister<T>): (r: Listing<T>)
    reads cs.entity.client
  {
    listReferenced(ViewOf(cs.entity.client), cs.storage)
  }

  /**
    For a system decoded from `wire` and attached to `c`, every relation
    accessor follows the same-named wire link through `c`: the two
    single-valued ones issue no request for an absent link, the eight
    collection accessors hand even the empty address to their list function.
   */
  lemma RelationsFollowWire<T>(wire: ComputerSystemWire, c: ApiClient, get: Resolver<T>, listReferenced: Lister<T>)
    ensures var cs := Attached(Project(wire), c);
      && Bios(cs, get) == (if LinkAddress(wire.bios) == "" then Ok(None) else Present(get(Some(c.View()), LinkAddress(wire.bios))))
      && SecureBoot(cs, get) == (if LinkAddress(wire.secureBoot) == "" then Ok(None) else Present(get(Some(c.View()), LinkAddress(wire.secureBoot))))
      && EthernetInterfaces(cs, listReferenced) == listReferenced(Some(c.View()), LinkAddress(wire.ethernetInterfaces))
      && LogServices(cs, listReferenced) == listReferenced(Some(c.View()), LinkAddress(wire.logServices))
      && Memory(cs, listReferenced) == listReferenced(Some(c.View()), LinkAddress(wire.memory))
      && MemoryDomains(cs, listReferenced) == listReferenced(Some(c.View()), LinkAddress(wire.memoryDomains))
      && NetworkInterfaces(cs, listReferenced) == listReferenced(Some(c.View()), LinkAddress(wire.networkInterfaces))
      && Processors(cs, listReferenced) == listReferenced(Some(c.View()), LinkAddress(wire.processors))
      && SimpleStorages(cs, listReferenced) == listReferenced(Some(c.View()), LinkAddress(wire.simpleStorage))
      && Storage(cs, listReferenced) == listReferenced(Some(c.View()), LinkAddress(wire.storage))
  {
  }

  /** `ComputerSystem.PCIeDevices`: `GetPCIeDevice` of each stored address, stopping at the first failure. */
  method PCIeDevices<D>(cs: ComputerSystem, getPCIeDevice: Resolver<D>) returns (result: seq<D>, err: Option<Error>)
    ensures Listing(result, err) == FetchEach(cs.pcieDevices, Resolving(getPCIeDevice, ViewOf(cs.entity.client)))
    ensures err.None? ==> |result| == |cs.pcieDevices|
    ensures err.Some? ==> |result| < |cs.pcieDevices|
  {
    result, err := FetchAll(cs.pcieDevices, Resolving(getPCIeDevice, ViewOf(cs.entity.client)));
  }

  /** `ComputerSystem.PCIeFunctions`: `GetPCIeFunction` of each stored address, stopping at the first failure. */
  method PCIeFunctions<F>(cs: ComputerSystem, getPCIeFunction: Resolver<F>) returns (result: seq<F>, err: Option<Error>)
    ensures Listing(result, err) == FetchEach(cs.pcieFunctions, Resolving(getPCIeFunction, ViewOf(cs.entity.client)))
    ensures err.None? ==> |result| == |cs.pcieFunctions|
    ensures err.Some? ==> |result| < |cs.pcieFunctions|
  {
    result, err := FetchAll(cs.pcieFunctions, Resolving(getPCIeFunction, ViewOf(cs.entity.client)));
  }
}
