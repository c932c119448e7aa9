/**
  What every resource decoder and fetcher shares: links as they arrive on the
  wire and as the resources keep them, the Entity mixin, the generic
  fetch-then-attach step, and the "fetch each address in turn, stop at the
  first failure" discipline of the list functions and multi-valued accessors.
 */
module Common {
  import opened Wrappers
  import opened Transport

  /** A wire link object `{"@odata.id": odataId}`. */
  datatype WireLink = WireLink(odataId: string)

  /** Go's `int64`: a JSON number outside this range fails to decode. */
  type Int64 = x: int | -0x8000_0000_0000_0000 <= x < 0x8000_0000_0000_0000

  /** A JSON sub-object this core carries through without interpreting it. */
  datatype Opaque = Opaque(raw: string)

  /** The JSON decode capability for one target shape. */
  type Parser<W> = Bytes -> Option<W>

  /** `common.GetCollection`: the member addresses of a collection resource. */
  type CollectionOracle = (ClientView, string) -> Result<seq<string>>

  /**
    `Get<Type>` for a resource type outside this model; it receives the
    entity's client, which may be nil (None).
   */
  type Resolver<T> = (Option<ClientView>, string) -> Result<T>

  /** `ListReferenced<Type>` for a resource type outside this model. */
  type Lister<T> = (Option<ClientView>, string) -> Listing<T>

  /** `string(link)` for a `common.Link`: an absent link is the empty address. */
  function LinkAddress(link: Option<WireLink>): (address: string)
    ensures link.None? ==> address == ""
    ensures link.Some? ==> address == link.value.odataId
  {
    if link.Some? then link.value.odataId else ""
  }

  /** `Links.ToStrings`: the `@odata.id` of each link, in wire order. */
  function ToStrings(links: seq<WireLink>): (addresses: seq<string>)
    ensures |addresses| == |links|
    ensures forall i :: 0 <= i < |links| ==> addresses[i] == links[i].odataId
  {
    seq(|links|, i requires 0 <= i < |links| => links[i].odataId)
  }

  /** The link object a stored address came from (none for the empty address). */
  function EncodeLink(address: string): Option<WireLink> {
    if address == "" then None else Some(WireLink(address))
  }

  function EncodeLinks(addresses: seq<string>): seq<WireLink> {
    seq(|addresses|, i requires 0 <= i < |addresses| => WireLink(addresses[i]))
  }

  lemma LinkRoundTrip(address: string)
    ensures LinkAddress(EncodeLink(address)) == address
  {
  }

  lemma LinksRoundTrip(addresses: seq<string>)
    ensures ToStrings(EncodeLinks(addresses)) == addresses
  {
    var back := ToStrings(EncodeLinks(addresses));
    assert |back| == |addresses|;
    forall i | 0 <= i < |addresses|
      ensures back[i] == addresses[i]
    {
    }
  }

  /** `common.Entity`: identity plus the client a resource came from. */
  datatype Entity = Entity(id: string, name: string, client: ApiClient?)

  /** The identity members of a wire envelope. */
  datatype EntityWire = EntityWire(id: string, name: string)

  /**
    The Entity a fresh decode produces: no client yet. This and SetClient are
    record builders; their field-by-field ensures are what Attached and the
    ListedCarryClient lemmas of the resource modules rely on.
   */
  function Detached(wire: EntityWire): (e: Entity)
    ensures e.id == wire.id && e.name == wire.name && e.client == null
  {
    Entity(wire.id, wire.name, null)
  }

  /** `Entity.SetClient`. */
  function SetClient(e: Entity, c: ApiClient): (attached: Entity)
    ensures attached.client == c
    ensures attached.id == e.id && attached.name == e.name
  {
    e.(client := c)
  }

  /** What an entity's client looks like to a resolver: None for nil. */
  function ViewOf(c: ApiClient?): Option<ClientView>
    reads c
  {
    if c == null then None else Some(c.View())
  }

  /**
    `Get<Type>`: GET the address, decode the body into its wire shape, build
    the resource from it (projection, then attaching the client).
   */
  function Fetch<W, R>(view: ClientView, uri: string, parse: Parser<W>, build: W -> R): (r: Result<R>)
    ensures Exchange(view, GET, uri, None).Err? ==> r == Err(Exchange(view, GET, uri, None).error)
    ensures Exchange(view, GET, uri, None).Ok? ==>
      var wire := parse(Exchange(view, GET, uri, None).value.body);
      (wire.None? ==> r == Err(MalformedEnvelope)) && (wire.Some? ==> r == Ok(build(wire.value)))
  {
    match Exchange(view, GET, uri, None)
    case Err(e) => Err(e)
    case Ok(response) =>
      match parse(response.body)
      case None => Err(MalformedEnvelope)
      case Some(wire) => Ok(build(wire))
  }

  /** A resolver for a fixed client, as the per-address outcome of an accessor loop. */
  function Resolving<T>(resolver: Resolver<T>, view: Option<ClientView>): string -> Result<T> {
    address => resolver(view, address)
  }

  /** Lift a single fetch into the `(value, error)` shape of a single-valued accessor. */
  function Present<T>(r: Result<T>): (p: Result<Option<T>>)
    ensures p != Ok(None)
    ensures r.Ok? <==> p.Ok?
    ensures r.Ok? ==> p.value == Some(r.value)
    ensures r.Err? ==> p.error == r.error
  {
    match r
    case Ok(v) => Ok(Some(v))
    case Err(e) => Err(e)
  }

  /** The `(result, err)` pair a list function or multi-valued accessor returns. */
  datatype Listing<T> = Listing(items: seq<T>, err: Option<Error>)

  /**
    Fetch each address in order, appending each value; at the first failure
    return what was fetched before it together with that failure.
   */
  function FetchEach<T>(addresses: seq<string>, outcome: string -> Result<T>): (r: Listing<T>)
    ensures |r.items| <= |addresses|
    ensures forall j :: 0 <= j < |r.items| ==> outcome(addresses[j]) == Ok(r.items[j])
    ensures r.err.None? ==> |r.items| == |addresses|
    ensures r.err.Some? ==> |r.items| < |addresses| && outcome(addresses[|r.items|]) == Err(r.err.value)
    decreases |addresses|
  {
    if addresses == [] then Listing([], None)
    else
      match outcome(addresses[0])
      case Err(e) => Listing([], Some(e))
      case Ok(v) =>
        var rest := FetchEach(addresses[1..], outcome);
        Listing([v] + rest.items, rest.err)
  }

  /**
    The four facts FetchEach ensures pin its result down: any listing that
    satisfies them is FetchEach's.
   */
  lemma {:induction false} FetchEachUnique<T>(addresses: seq<string>, outcome: string -> Result<T>, l: Listing<T>)
    requires |l.items| <= |addresses|
    requires forall j :: 0 <= j < |l.items| ==> outcome(addresses[j]) == Ok(l.items[j])
    requires l.err.None? ==> |l.items| == |addresses|
    requires l.err.Some? ==> |l.items| < |addresses| && outcome(addresses[|l.items|]) == Err(l.err.value)
    ensures l == FetchEach(addresses, outcome)
  {
    var h := FetchEach(addresses, outcome);
    assert h.items == l.items;
  }

  /**
    Addresses after the first failing one are never fetched: outcomes that
    agree up to and including the first failure give the same listing.
   */
  lemma {:induction false} FetchEachStopsAtFailure<T>(addresses: seq<string>, f: string -> Result<T>, g: string -> Result<T>, k: nat)
    requires k < |addresses| && f(addresses[k]).Err?
    requires forall j :: 0 <= j <= k ==> f(addresses[j]) == g(addresses[j])
    ensures FetchEach(addresses, f) == FetchEach(addresses, g)
  {
    if f(addresses[0]).Ok? {
      assert k > 0;
      FetchEachStopsAtFailure(addresses[1..], f, g, k - 1);
    }
  }

  /** `result` fetched, then whatever the remaining addresses give. */
  function Prepend<T>(done: seq<T>, rest: Listing<T>): Listing<T> {
    Listing(done + rest.items, rest.err)
  }

  /** The loop invariant of every fetch loop, established before its first step. */
  lemma FetchEachStart<T>(addresses: seq<string>, outcome: string -> Result<T>)
    ensures FetchEach(addresses, outcome) == Prepend([], FetchEach(addresses[0..], outcome))
  {
    assert addresses[0..] == addresses;
  }

  /** One unfolding of FetchEach at a successful address. */
  lemma FetchEachUnfold<T>(addresses: seq<string>, outcome: string -> Result<T>, i: nat, v: T)
    requires i < |addresses| && outcome(addresses[i]) == Ok(v)
    ensures FetchEach(addresses[i..], outcome) == Prepend([v], FetchEach(addresses[i + 1..], outcome))
  {
    var rest := addresses[i..];
    assert rest[0] == addresses[i];
    assert rest[1..] == addresses[i + 1..];
  }

  lemma PrependTwice<T>(done: seq<T>, v: T, later: Listing<T>)
    ensures Prepend(done, Prepend([v], later)) == Prepend(done + [v], later)
  {
    assert done + ([v] + later.items) == (done + [v]) + later.items;
  }

  /** One successful step of a fetch loop keeps its invariant. */
  lemma FetchEachAdvance<T>(addresses: seq<string>, outcome: string -> Result<T>, i: nat, done: seq<T>, v: T)
    requires i < |addresses|
    requires FetchEach(addresses, outcome) == Prepend(done, FetchEach(addresses[i..], outcome))
    requires outcome(addresses[i]) == Ok(v)
    ensures FetchEach(addresses, outcome) == Prepend(done + [v], FetchEach(addresses[i + 1..], outcome))
  {
    FetchEachUnfold(addresses, outcome, i, v);
    PrependTwice(done, v, FetchEach(addresses[i + 1..], outcome));
  }

  /** A failing step of a fetch loop: the loop's early return is FetchEach's result. */
  lemma FetchEachHalt<T>(addresses: seq<string>, outcome: string -> Result<T>, i: nat, done: seq<T>, e: Error)
    requires i < |addresses|
    requires FetchEach(addresses, outcome) == Prepend(done, FetchEach(addresses[i..], outcome))
    requires outcome(addresses[i]) == Err(e)
    ensures FetchEach(addresses, outcome) == Listing(done, Some(e))
  {
    assert addresses[i..][0] == addresses[i];
  }

  /** A fetch loop that ran to the end. */
  lemma FetchEachDone<T>(addresses: seq<string>, outcome: string -> Result<T>, done: seq<T>)
    requires FetchEach(addresses, outcome) == Prepend(done, FetchEach(addresses[|addresses|..], outcome))
    ensures FetchEach(addresses, outcome) == Listing(done, None)
  {
    assert addresses[|addresses|..] == [];
  }

  /**
    A `ListReferenced<Type>` after its collection lookup: a collection error
    gives an empty result with that error, otherwise the members are fetched.
   */
  function ListFrom<T>(collection: Result<seq<string>>, outcome: string -> Result<T>): Listing<T> {
    match collection
    case Err(e) => Listing([], Some(e))
    case Ok(members) => FetchEach(members, outcome)
  }

  /**
    The loop every multi-valued accessor runs: fetch each address in order,
    append the value, return the prefix and the error at the first failure.
   */
  method FetchAll<T>(addresses: seq<string>, outcome: string -> Result<T>) returns (result: seq<T>, err: Option<Error>)
    ensures Listing(result, err) == FetchEach(addresses, outcome)
  {
    FetchEachStart(addresses, outcome);
    result := [];
    var i := 0;
    while i < |addresses|
      invariant 0 <= i <= |addresses|
      invariant FetchEach(addresses, outcome) == Prepend(result, FetchEach(addresses[i..], outcome))
    {
      var item := outcome(addresses[i]);
      if item.Err? {
        FetchEachHalt(addresses, outcome, i, result, item.error);
        return result, Some(item.error);
      }
      FetchEachAdvance(addresses, outcome, i, result, item.value);
      result := result + [item.value];
      i := i + 1;
    }
    FetchEachDone(addresses, outcome, result);
    err := None;
  }
}
