/**
  redfish/manager.go: the Manager resource, its decoder (top-level links,
  the nested `Links` arrays and the nested member counts), `GetManager` and
  `ListReferencedManagers`.
 */
module Managers {
  import opened Wrappers
  import opened Transport
  import opened Common

  /** The exported members of `Manager` besides its Entity. */
  datatype ManagerFields = ManagerFields(
    odataContext: string,
    odataEtag: string,
    odataId: string,
    odataType: string,
    autoDSTEnabled: bool,
    commandShell: Opaque,
    dateTime: string,
    dateTimeLocalOffset: string,
    description: string,
    firmwareVersion: string,
    graphicalConsole: Opaque,
    managerType: string,
    model: string,
    powerState: string,
    redundancy: seq<Opaque>,
    redundancyCount: int,
    remoteRedfishServiceUri: string,
    serialConsole: Opaque,
    serviceEntryPointUUID: string,
    status: Opaque,
    uuid: string,
    managerForChassisCount: int,
    managerForServersCount: int,
    managerForSwitchesCount: int)

  /** `Manager`, with its private link addresses. */
  datatype Manager = Manager(
    entity: Entity,
    fields: ManagerFields,
    ethernetInterfaces: string,
    hostInterfaces: string,
    logServices: string,
    networkProtocol: string,
    remoteAccountService: string,
    serialInterfaces: string,
    virtualMedia: string,
    managerForChassis: seq<string>,
    managerForServers: seq<string>,
    managerForSwitches: seq<string>,
    managerInChassis: string)

  /** The decoder's `linkReference`: the nested `Links` object. */
  datatype ManagerLinksWire = ManagerLinksWire(
    managerForChassis: seq<WireLink>,
    managerForChassisCount: int,
    managerForServers: seq<WireLink>,
    managerForServersCount: int,
    managerForSwitches: seq<WireLink>,
    managerForSwitchesCount: int,
    managerInChassis: Option<WireLink>)

  /** The decoder's auxiliary shape: the typed members, six top-level links and `Links`. */
  datatype ManagerWire = ManagerWire(
    entity: EntityWire,
    fields: ManagerFields,
    ethernetInterfaces: Option<WireLink>,
    logServices: Option<WireLink>,
    networkProtocol: Option<WireLink>,
    remoteAccountService: Option<WireLink>,
    serialInterfaces: Option<WireLink>,
    virtualMedia: Option<WireLink>,
    links: ManagerLinksWire)

  /** The zero `Manager` a fresh `var manager Manager` holds. */
  function Zero(): Manager {
    Manager(
      Entity("", "", null),
      ManagerFields("", "", "", "", false, Opaque(""), "", "", "", "", Opaque(""), "", "", "", [], 0, "",
        Opaque(""), "", Opaque(""), "", 0, 0, 0),
      "", "", "", "", "", "", "", [], [], [], "")
  }

  /**
    What a successful decode leaves in the receiver. The three member counts
    come from the nested `Links` object, whatever the top level said; no
    member of the envelope reaches `hostInterfaces`.
   */
  function Project(wire: ManagerWire): (m: Manager)
    ensures m.entity == Detached(wire.entity)
    ensures m.ethernetInterfaces == LinkAddress(wire.ethernetInterfaces)
    ensures m.logServices == LinkAddress(wire.logServices)
    ensures m.networkProtocol == LinkAddress(wire.networkProtocol)
    ensures m.remoteAccountService == LinkAddress(wire.remoteAccountService)
    ensures m.serialInterfaces == LinkAddress(wire.serialInterfaces)
    ensures m.virtualMedia == LinkAddress(wire.virtualMedia)
    ensures m.managerForServers == ToStrings(wire.links.managerForServers)
    ensures m.managerForChassis == ToStrings(wire.links.managerForChassis)
    ensures m.managerForSwitches == ToStrings(wire.links.managerForSwitches)
    ensures m.managerInChassis == LinkAddress(wire.links.managerInChassis)
    ensures m.hostInterfaces == ""
    ensures m.fields.managerForServersCount == wire.links.managerForServersCount
    ensures m.fields.managerForChassisCount == wire.links.managerForChassisCount
    ensures m.fields.managerForSwitchesCount == wire.links.managerForSwitchesCount
    ensures m.fields.(managerForServersCount := wire.fields.managerForServersCount,
                      managerForChassisCount := wire.fields.managerForChassisCount,
                      managerForSwitchesCount := wire.fields.managerForSwitchesCount) == wire.fields
  {
    Manager(
      Detached(wire.entity),
      wire.fields.(managerForServersCount := wire.links.managerForServersCount,
                   managerForChassisCount := wire.links.managerForChassisCount,
                   managerForSwitchesCount := wire.links.managerForSwitchesCount),
      LinkAddress(wire.ethernetInterfaces),
      "",
      LinkAddress(wire.logServices),
      LinkAddress(wire.networkProtocol),
      LinkAddress(wire.remoteAccountService),
      LinkAddress(wire.serialInterfaces),
      LinkAddress(wire.virtualMedia),
      ToStrings(wire.links.managerForChassis),
      ToStrings(wire.links.managerForServers),
      ToStrings(wire.links.managerForSwitches),
      LinkAddress(wire.links.managerInChassis))
  }

  /** The envelope a manager is decoded from; its counts travel in `Links`. */
  function Envelope(m: Manager): ManagerWire {
    ManagerWire(
      EntityWire(m.entity.id, m.entity.name),
      m.fields,
      EncodeLink(m.ethernetInterfaces),
      EncodeLink(m.logServices),
      EncodeLink(m.networkProtocol),
      EncodeLink(m.remoteAccountService),
      EncodeLink(m.serialInterfaces),
      EncodeLink(m.virtualMedia),
      ManagerLinksWire(
        EncodeLinks(m.managerForChassis), m.fields.managerForChassisCount,
        EncodeLinks(m.managerForServers), m.fields.managerForServersCount,
        EncodeLinks(m.managerForSwitches), m.fields.managerForSwitchesCount,
        EncodeLink(m.managerInChassis)))
  }

  /** Every manager without a host-interfaces address is the decode of its envelope. */
  lemma ProjectEnvelope(m: Manager)
    requires m.hostInterfaces == ""
    ensures Project(Envelope(m)) == m.(entity := m.entity.(client := null))
  {
    LinkRoundTrip(m.ethernetInterfaces);
    LinkRoundTrip(m.logServices);
    LinkRoundTrip(m.networkProtocol);
    LinkRoundTrip(m.remoteAccountService);
    LinkRoundTrip(m.serialInterfaces);
    LinkRoundTrip(m.virtualMedia);
    LinkRoundTrip(m.managerInChassis);
    LinksRoundTrip(m.managerForChassis);
    LinksRoundTrip(m.managerForServers);
    LinksRoundTrip(m.managerForSwitches);
  }

  /** The top-level member counts never survive decoding. */
  lemma TopLevelCountsIgnored(wire: ManagerWire, servers: int, chassis: int, switches: int)
    ensures Project(wire.(fields := wire.fields.(managerForServersCount := servers,
                                                 managerForChassisCount := chassis,
                                                 managerForSwitchesCount := switches)))
         == Project(wire)
  {
  }

  function Decode(parse: Parser<ManagerWire>, body: Bytes): (r: Option<Manager>)
    ensures r.None? <==> parse(body).None?
    ensures r.Some? ==> r.value == Project(parse(body).value)
  {
    match parse(body)
    case None => None
    case Some(wire) => Some(Project(wire))
  }

  /**
    `Manager.UnmarshalJSON`: on a parse failure the receiver is returned
    untouched; otherwise it is overwritten with the typed members and then
    its link addresses and the nested counts are set one by one.
   */
  method UnmarshalJSON(receiver: Manager, b: Bytes, parse: Parser<ManagerWire>) returns (decoded: Manager, err: Option<Error>)
    ensures parse(b).None? ==> decoded == receiver && err == Some(MalformedEnvelope)
    ensures parse(b).Some? ==> err == None && Some(decoded) == Decode(parse, b)
  {
    var parsed := parse(b);
    if parsed.None? {
      return receiver, Some(MalformedEnvelope);
    }
    var t := parsed.value;
    decoded := Manager(Detached(t.entity), t.fields, "", "", "", "", "", "", "", [], [], [], "");
    decoded := decoded.(ethernetInterfaces := LinkAddress(t.ethernetInterfaces));
    decoded := decoded.(logServices := LinkAddress(t.logServices));
    decoded := decoded.(networkProtocol := LinkAddress(t.networkProtocol));
    decoded := decoded.(remoteAccountService := LinkAddress(t.remoteAccountService));
    decoded := decoded.(serialInterfaces := LinkAddress(t.serialInterfaces));
    decoded := decoded.(virtualMedia := LinkAddress(t.virtualMedia));
    decoded := decoded.(managerForServers := ToStrings(t.links.managerForServers));
    decoded := decoded.(fields := decoded.fields.(managerForServersCount := t.links.managerForServersCount));
    decoded := decoded.(managerForChassis := ToStrings(t.links.managerForChassis));
    decoded := decoded.(fields := decoded.fields.(managerForChassisCount := t.links.managerForChassisCount));
    decoded := decoded.(fields := decoded.fields.(managerForSwitchesCount := t.links.managerForSwitchesCount));
    decoded := decoded.(managerForSwitches := ToStrings(t.links.managerForSwitches));
    decoded := decoded.(managerInChassis := LinkAddress(t.links.managerInChassis));
    err := None;
  }

  /** `manager.SetClient(c)`: only the client changes. */
  function Attached(x: Manager, c: ApiClient): (r: Manager)
    ensures r.entity.client == c
    ensures r.(entity := x.entity) == x
    ensures r.entity.id == x.entity.id && r.entity.name == x.entity.name
  {
    x.(entity := SetClient(x.entity, c))
  }

  function Build(c: ApiClient): ManagerWire -> Manager {
    wire => Attached(Project(wire), c)
  }

  /** What `GetManager(c, uri)` returns when `c` is in state `view`. */
  function FetchManager(view: ClientView, c: ApiClient, uri: string, parse: Parser<ManagerWire>): (r: Result<Manager>)
    ensures r.Ok? ==> r.value.entity.client == c
  {
    Fetch(view, uri, parse, Build(c))
  }

  function Fetcher(view: ClientView, c: ApiClient, parse: Parser<ManagerWire>): string -> Result<Manager> {
    uri => FetchManager(view, c, uri, parse)
  }

  /** What `ListReferencedManagers(c, link)` returns. */
  function ListManagers(view: ClientView, c: ApiClient, link: string, collection: CollectionOracle, parse: Parser<ManagerWire>): (l: Listing<Manager>)
    ensures collection(view, link).Err? ==> l == Listing([], Some(collection(view, link).error))
    ensures collection(view, link).Ok? ==> l == FetchEach(collection(view, link).value, Fetcher(view, c, parse))
  {
    ListFrom(collection(view, link), Fetcher(view, c, parse))
  }

  /** Every manager a list returns carries the listing client. */
  lemma ListedCarryClient(view: ClientView, c: ApiClient, link: string, collection: CollectionOracle, parse: Parser<ManagerWire>)
    ensures var l := ListManagers(view, c, link, collection, parse);
      forall j :: 0 <= j < |l.items| ==> l.items[j].entity.client == c
  {
    var l := ListManagers(view, c, link, collection, parse);
    forall j | 0 <= j < |l.items|
      ensures l.items[j].entity.client == c
    {
      assert Fetcher(view, c, parse)(collection(view, link).value[j]) == Ok(l.items[j]);
    }
  }

  /** `GetManager`: GET, decode into a zero value, attach the client. */
  method GetManager(c: ApiClient, uri: string, parse: Parser<ManagerWire>) returns (r: Result<Manager>)
    ensures r == FetchManager(c.View(), c, uri, parse)
    ensures Exchange(c.View(), GET, uri, None).Err? ==> r == Err(Exchange(c.View(), GET, uri, None).error)
    ensures Exchange(c.View(), GET, uri, None).Ok? && parse(Exchange(c.View(), GET, uri, None).value.body).None? ==>
      r == Err(MalformedEnvelope)
    ensures r.Ok? ==> r.value.entity.client == c
  {
    var resp := c.Get(uri);
    if resp.Err? {
      return Err(resp.error);
    }
    var manager, err := UnmarshalJSON(Zero(), resp.value.body, parse);
    if err.Some? {
      return Err(err.value);
    }
    r := Ok(Attached(manager, c));
  }

  /**
    `ListReferencedManagers`: the collection is looked up even for the empty
    link; its members are fetched in order up to the first failure.
   */
  method ListReferencedManagers(c: ApiClient, link: string, collection: CollectionOracle, parse: Parser<ManagerWire>)
    returns (result: seq<Manager>, err: Option<Error>)
    ensures Listing(result, err) == ListManagers(c.View(), c, link, collection, parse)
    ensures collection(c.View(), link).Err? ==> result == [] && err == Some(collection(c.View(), link).error)
    ensures forall j :: 0 <= j < |result| ==> result[j].entity.client == c
  {
    ListedCarryClient(c.View(), c, link, collection, parse);
    result := [];
    var view := c.View();
    var links := collection(view, link);
    if links.Err? {
      return result, Some(links.error);
    }
    var members := links.value;
    var outcome := Fetcher(view, c, parse);
    FetchEachStart(members, outcome);
    var i := 0;
    while i < |members|
      invariant 0 <= i <= |members|
      invariant FetchEach(members, outcome) == Prepend(result, FetchEach(members[i..], outcome))
    {
      var manager := GetManager(c, members[i], parse);
      assert manager == outcome(members[i]);
      if manager.Err? {
        FetchEachHalt(members, outcome, i, result, manager.error);
        return result, Some(manager.error);
      }
      FetchEachAdvance(members, outcome, i, result, manager.value);
      result := result + [manager.value];
      i := i + 1;
    }
    FetchEachDone(members, outcome, result);
    err := None;
  }
}
