/**
  redfish/assembly.go: the Assembly resource, decoded by the JSON library
  directly (it has no custom decoder), fetched by `GetAssembly` and listed
  from a collection by `ListReferencedAssemblys`.
 */
module Assemblies {
  import opened Wrappers
  import opened Transport
  import opened Common

  /** `AssemblyData`: one assembly record, all members copied from the wire. */
  datatype AssemblyData = AssemblyData(
    odataId: string,
    binaryDataUri: string,
    description: string,
    engineeringChangeLevel: string,
    memberId: string,
    model: string,
    name: string,
    partNumber: string,
    physicalContext: string,
    producer: string,
    productionDate: string,
    sku: string,
    serialNumber: string,
    sparePartNumber: string,
    status: Opaque,
    vendor: string,
    version: string)

  /** The exported members of `Assembly` besides its Entity. */
  datatype AssemblyFields = AssemblyFields(
    odataContext: string,
    odataEtag: string,
    odataId: string,
    odataType: string,
    assemblies: seq<AssemblyData>,
    assembliesCount: int,
    description: string)

  datatype Assembly = Assembly(entity: Entity, fields: AssemblyFields)

  /** The envelope as the JSON library delivers it. */
  datatype AssemblyWire = AssemblyWire(entity: EntityWire, fields: AssemblyFields)

  /** What decoding an envelope yields: every member copied, no client yet. */
  function Project(wire: AssemblyWire): (a: Assembly)
    ensures a.entity == Detached(wire.entity)
    ensures a.fields == wire.fields
  {
    Assembly(Detached(wire.entity), wire.fields)
  }

  /** The envelope a resource is decoded from. */
  function Envelope(a: Assembly): AssemblyWire {
    AssemblyWire(EntityWire(a.entity.id, a.entity.name), a.fields)
  }

  lemma ProjectEnvelope(a: Assembly)
    ensures Project(Envelope(a)) == a.(entity := a.entity.(client := null))
  {
  }

  /** `json.Decode` into an `Assembly`: fails exactly when the parse fails. */
  function Decode(parse: Parser<AssemblyWire>, body: Bytes): (r: Option<Assembly>)
    ensures r.None? <==> parse(body).None?
    ensures r.Some? ==> r.value == Project(parse(body).value)
  {
    match parse(body)
    case None => None
    case Some(wire) => Some(Project(wire))
  }

  /** `assembly.SetClient(c)`: only the client changes. */
  function Attached(a: Assembly, c: ApiClient): (r: Assembly)
    ensures r.entity.client == c
    ensures r.(entity := a.entity) == a
    ensures r.entity.id == a.entity.id && r.entity.name == a.entity.name
  {
    a.(entity := SetClient(a.entity, c))
  }

  function Build(c: ApiClient): AssemblyWire -> Assembly {
    wire => Attached(Project(wire), c)
  }

  /** What `GetAssembly(c, uri)` returns when `c` is in state `view`. */
  function FetchAssembly(view: ClientView, c: ApiClient, uri: string, parse: Parser<AssemblyWire>): (r: Result<Assembly>)
    ensures r.Ok? ==> r.value.entity.client == c
  {
    Fetch(view, uri, parse, Build(c))
  }

  function Fetcher(view: ClientView, c: ApiClient, parse: Parser<AssemblyWire>): string -> Result<Assembly> {
    uri => FetchAssembly(view, c, uri, parse)
  }

  /** Every assembly a list returns carries the listing client. */
  lemma ListedCarryClient(view: ClientView, c: ApiClient, link: string, collection: CollectionOracle, parse: Parser<AssemblyWire>)
    ensures var l := ListAssemblies(view, c, link, collection, parse);
      forall j :: 0 <= j < |l.items| ==> l.items[j].entity.client == c
  {
    var l := ListAssemblies(view, c, link, collection, parse);
    forall j | 0 <= j < |l.items|
      ensures l.items[j].entity.client == c
    {
      assert Fetcher(view, c, parse)(collection(view, link).value[j]) == Ok(l.items[j]);
    }
  }

  /** What `ListReferencedAssemblys(c, link)` returns. */
  function ListAssemblies(view: ClientView, c: ApiClient, link: string, collection: CollectionOracle, parse: Parser<AssemblyWire>): (l: Listing<Assembly>)
    ensures link == "" ==> l == Listing([], None)
    ensures link != "" && collection(view, link).Err? ==> l == Listing([], Some(collection(view, link).error))
    ensures link != "" && collection(view, link).Ok? ==> l == FetchEach(collection(view, link).value, Fetcher(view, c, parse))
  {
    if link == "" then Listing([], None)
    else ListFrom(collection(view, link), Fetcher(view, c, parse))
  }

  /** `GetAssembly`: GET, decode into a fresh value, attach the client. */
  method GetAssembly(c: ApiClient, uri: string, parse: Parser<AssemblyWire>) returns (r: Result<Assembly>)
    ensures r == FetchAssembly(c.View(), c, uri, parse)
    ensures Exchange(c.View(), GET, uri, None).Err? ==> r == Err(Exchange(c.View(), GET, uri, None).error)
    ensures Exchange(c.View(), GET, uri, None).Ok? && parse(Exchange(c.View(), GET, uri, None).value.body).None? ==>
      r == Err(MalformedEnvelope)
    ensures r.Ok? ==> r.value.entity.client == c
  {
    var resp := c.Get(uri);
    if resp.Err? {
      return Err(resp.error);
    }
    var assembly := Decode(parse, resp.value.body);
    if assembly.None? {
      return Err(MalformedEnvelope);
    }
    r := Ok(Attached(assembly.value, c));
  }

  /**
    `ListReferencedAssemblys`: no request, and no use of a possibly nil client, for the empty link; otherwise the
    collection's members are fetched in order up to the first failure.
   */
  method ListReferencedAssemblys(c: ApiClient?, link: string, collection: CollectionOracle, parse: Parser<AssemblyWire>)
    returns (result: seq<Assembly>, err: Option<Error>)
    requires link != "" ==> c != null
    ensures link == "" ==> result == [] && err == None
    ensures c != null ==> Listing(result, err) == ListAssemblies(c.View(), c, link, collection, parse)
    ensures c != null && link != "" && collection(c.View(), link).Err? ==> result == [] && err == Some(collection(c.View(), link).error)
    ensures forall j :: 0 <= j < |result| ==> result[j].entity.client == c
  {
    result := [];
    if link == "" {
      return result, None;
    }
    ListedCarryClient(c.View(), c, link, collection, parse);
    var view := c.View();
    var links := collection(view, link);
    if links.Err? {
      return result, Some(links.error);
    }
    var members := links.value;
    var outcome := Fetcher(view, c, parse);
    FetchEachStart(members, outcome);
    var i := 0;
    while i < |members|
      invariant 0 <= i <= |members|
      invariant FetchEach(members, outcome) == Prepend(result, FetchEach(members[i..], outcome))
    {
      var assembly := GetAssembly(c, members[i], parse);
      assert assembly == outcome(members[i]);
      if assembly.Err? {
        FetchEachHalt(members, outcome, i, result, assembly.error);
        return result, Some(assembly.error);
      }
      FetchEachAdvance(members, outcome, i, result, assembly.value);
      result := result + [assembly.value];
      i := i + 1;
    }
    FetchEachDone(members, outcome, result);
    err := None;
  }
}
