/**
  redfish/eventservice.go: the EventService resource, its decoder (which
  keeps the `Subscriptions` link as a bare address), `GetEventService` and
  `ListReferencedEventServices`.
 */
module EventServices {
  import opened Wrappers
  import opened Transport
  import opened Common

  /** `SSEFilterPropertiesSupported`: which `$filter` properties the SSE stream accepts. */
  datatype SSEFilterPropertiesSupported = SSEFilterPropertiesSupported(
    eventFormatType: bool,
    messageId: bool,
    metricReportDefinition: bool,
    originResource: bool,
    registryPrefix: bool,
    resourceType: bool)

  /** The exported members of `EventService` besides its Entity. */
  datatype EventServiceFields = EventServiceFields(
    odataContext: string,
    odataEtag: string,
    odataId: string,
    odataType: string,
    deliveryRetryAttempts: int,
    deliveryRetryIntervalSeconds: int,
    description: string,
    eventFormatTypes: seq<string>,
    registryPrefixes: seq<string>,
    resourceTypes: seq<string>,
    sseFilterPropertiesSupported: SSEFilterPropertiesSupported,
    serverSentEventUri: string,
    serviceEnabled: bool,
    status: Opaque,
    subordinateResourcesSupported: bool)

  /** `EventService`; `subscriptions` is the private address of its subscription collection. */
  datatype EventService = EventService(entity: Entity, fields: EventServiceFields, subscriptions: string)

  /** The decoder's auxiliary shape: the typed members plus the `Subscriptions` link. */
  datatype EventServiceWire = EventServiceWire(entity: EntityWire, fields: EventServiceFields, subscriptions: Option<WireLink>)

  /** The zero `EventService` a fresh `var eventservice EventService` holds. */
  function Zero(): EventService {
    EventService(
      Entity("", "", null),
      EventServiceFields("", "", "", "", 0, 0, "", [], [], [],
        SSEFilterPropertiesSupported(false, false, false, false, false, false),
        "", false, Opaque(""), false),
      "")
  }

  /** What a successful decode leaves in the receiver. */
  function Project(wire: EventServiceWire): (e: EventService)
    ensures e.entity == Detached(wire.entity)
    ensures e.fields == wire.fields
    ensures e.subscriptions == LinkAddress(wire.subscriptions)
  {
    EventService(Detached(wire.entity), wire.fields, LinkAddress(wire.subscriptions))
  }

  /** The envelope a resource is decoded from. */
  function Envelope(e: EventService): EventServiceWire {
    EventServiceWire(EntityWire(e.entity.id, e.entity.name), e.fields, EncodeLink(e.subscriptions))
  }

  lemma ProjectEnvelope(e: EventService)
    ensures Project(Envelope(e)) == e.(entity := e.entity.(client := null))
  {
    LinkRoundTrip(e.subscriptions);
  }

  function Decode(parse: Parser<EventServiceWire>, body: Bytes): (r: Option<EventService>)
    ensures r.None? <==> parse(body).None?
    ensures r.Some? ==> r.value == Project(parse(body).value)
  {
    match parse(body)
    case None => None
    case Some(wire) => Some(Project(wire))
  }

  /**
    `EventService.UnmarshalJSON`: on a parse failure the receiver is returned
    untouched; otherwise it is overwritten with the typed members and then
    its link address is set.
   */
  method UnmarshalJSON(receiver: EventService, b: Bytes, parse: Parser<EventServiceWire>) returns (decoded: EventService, err: Option<Error>)
    ensures parse(b).None? ==> decoded == receiver && err == Some(MalformedEnvelope)
    ensures parse(b).Some? ==> err == None && Some(decoded) == Decode(parse, b)
  {
    var t := parse(b);
    if t.None? {
      return receiver, Some(MalformedEnvelope);
    }
    decoded := EventService(Detached(t.value.entity), t.value.fields, "");
    decoded := decoded.(subscriptions := LinkAddress(t.value.subscriptions));
    err := None;
  }

  /** `eventservice.SetClient(c)`: only the client changes. */
  function Attached(e: EventService, c: ApiClient): (r: EventService)
    ensures r.entity.client == c
    ensures r.(entity := e.entity) == e
    ensures r.entity.id == e.entity.id && r.entity.name == e.entity.name
  {
    e.(entity := SetClient(e.entity, c))
  }

  function Build(c: ApiClient): EventServiceWire -> EventService {
    wire => Attached(Project(wire), c)
  }

  /** What `GetEventService(c, uri)` returns when `c` is in state `view`. */
  function FetchEventService(view: ClientView, c: ApiClient, uri: string, parse: Parser<EventServiceWire>): (r: Result<EventService>)
    ensures r.Ok? ==> r.value.entity.client == c
  {
    Fetch(view, uri, parse, Build(c))
  }

  function Fetcher(view: ClientView, c: ApiClient, parse: Parser<EventServiceWire>): string -> Result<EventService> {
    uri => FetchEventService(view, c, uri, parse)
  }

  /** What `ListReferencedEventServices(c, link)` returns. */
  function ListEventServices(view: ClientView, c: ApiClient, link: string, collection: CollectionOracle, parse: Parser<EventServiceWire>): (l: Listing<EventService>)
    ensures link == "" ==> l == Listing([], None)
    ensures link != "" && collection(view, link).Err? ==> l == Listing([], Some(collection(view, link).error))
    ensures link != "" && collection(view, link).Ok? ==> l == FetchEach(collection(view, link).value, Fetcher(view, c, parse))
  {
    if link == "" then Listing([], None)
    else ListFrom(collection(view, link), Fetcher(view, c, parse))
  }

  /** Every event service a list returns carries the listing client. */
  lemma ListedCarryClient(view: ClientView, c: ApiClient, link: string, collection: CollectionOracle, parse: Parser<EventServiceWire>)
    ensures var l := ListEventServices(view, c, link, collection, parse);
      forall j :: 0 <= j < |l.items| ==> l.items[j].entity.client == c
  {
    var l := ListEventServices(view, c, link, collection, parse);
    forall j | 0 <= j < |l.items|
      ensures l.items[j].entity.client == c
    {
      assert Fetcher(view, c, parse)(collection(view, link).value[j]) == Ok(l.items[j]);
    }
  }

  /** `GetEventService`: GET, decode into a zero value, attach the client. */
  method GetEventService(c: ApiClient, uri: string, parse: Parser<EventServiceWire>) returns (r: Result<EventService>)
    ensures r == FetchEventService(c.View(), c, uri, parse)
    ensures Exchange(c.View(), GET, uri, None).Err? ==> r == Err(Exchange(c.View(), GET, uri, None).error)
    ensures Exchange(c.View(), GET, uri, None).Ok? && parse(Exchange(c.View(), GET, uri, None).value.body).None? ==>
      r == Err(MalformedEnvelope)
    ensures r.Ok? ==> r.value.entity.client == c
  {
    var resp := c.Get(uri);
    if resp.Err? {
      return Err(resp.error);
    }
    var eventservice, err := UnmarshalJSON(Zero(), resp.value.body, parse);
    if err.Some? {
      return Err(err.value);
    }
    r := Ok(Attached(eventservice, c));
  }

  /**
    `ListReferencedEventServices`: no request, and no use of a possibly nil client, for the empty link; otherwise
    the collection's members are fetched in order up to the first failure.
   */
  method ListReferencedEventServices(c: ApiClient?, link: string, collection: CollectionOracle, parse: Parser<EventServiceWire>)
    returns (result: seq<EventService>, err: Option<Error>)
    requires link != "" ==> c != null
    ensures link == "" ==> result == [] && err == None
    ensures c != null ==> Listing(result, err) == ListEventServices(c.View(), c, link, collection, parse)
    ensures c != null && link != "" && collection(c.View(), link).Err? ==> result == [] && err == Some(collection(c.View(), link).error)
    ensures forall j :: 0 <= j < |result| ==> result[j].entity.client == c
  {
    result := [];
    if link == "" {
      return result, None;
    }
    ListedCarryClient(c.View(), c, link, collection, parse);
    var view := c.View();
    var links := collection(view, link);
    if links.Err? {
      return result, Some(links.error);
    }
    var members := links.value;
    var outcome := Fetcher(view, c, parse);
    FetchEachStart(members, outcome);
    var i := 0;
    while i < |members|
      invariant 0 <= i <= |members|
      invariant FetchEach(members, outcome) == Prepend(result, FetchEach(members[i..], outcome))
    {
      var eventservice := GetEventService(c, members[i], parse);
      assert eventservice == outcome(members[i]);
      if eventservice.Err? {
        FetchEachHalt(members, outcome, i, result, eventservice.error);
        return result, Some(eventservice.error);
      }
      FetchEachAdvance(members, outcome, i, result, eventservice.value);
      result := result + [eventservice.value];
      i := i + 1;
    }
    FetchEachDone(members, outcome, result);
    err := None;
  }
}
