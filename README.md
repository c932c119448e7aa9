# gofish request classification and resource resolution, in Dafny

This project models the core of gofish, a Go client for Redfish and Swordfish
management services, in three layers.

- **Transport** (`transport.dfy`, from client.go).
  - `ApiClient` is a class with the fields `Endpoint`, `Token` and `httpClient`.
  - `APIClient` accepts an endpoint by a bare `"http"` prefix test.
  - `do` builds the request step by step: the empty path becomes `/redfish/v1/`, the URL is `Endpoint ++ path`, and the headers are added under conditions.
  - `checkStatus` scans the accepted status codes. Each verb has its own accepted set.
  - A reply is classified as a transport failure, a rejected status carrying the code and body, or the response.
  - The network is a total function from the request that would be sent to the reply.
- **Decoding** (one module per resource type).
  - Each `UnmarshalJSON` reads an already-parsed wire envelope: typed members plus `{"@odata.id": …}` link objects or link arrays, some nested under `Links`.
  - It projects the envelope onto a resource value. The private relation slots hold bare address strings.
  - The Manager and Drive decoders also overwrite member counts with the nested `Links` counts.
  - On a parse failure the receiver comes back unchanged.
  - The JSON library itself is an oracle `Bytes -> Option<Wire>`.
- **Fetch and traversal** (`common.dfy` plus each resource module).
  - `Get<Type>` issues the GET, decodes into a fresh value and attaches the client.
  - Single-valued accessors return `(nil, nil)` for an empty address, without a request.
  - Multi-valued accessors and the `ListReferenced<Type>` functions fetch their addresses in order. On the first failure they return the prefix fetched so far together with that error.

Three behaviours of the code are worth stating on their own:
- `ListReferencedComputerSystems` and `ListReferencedManagers` have no empty-link guard. They hand the empty link to the collection lookup and return whatever it returns.
- The other five list functions return `([], nil)` for the empty link without using the client. The model's versions therefore accept a nil client there.
- No relation accessor checks for a client. A nil client is passed on to the resolver as `None` (`Common.ViewOf`).

Resources are datatypes (values). `Entity` carries the identifier, the name and the client reference, which may be nil.

Every `Get<Type>` method and every list or accessor loop is proved against a specification function:
- `Fetch<Type>` for the fetch;
- `Common.FetchEach` for "fetch each address, stop at the first failure";
- `List<Type>s` for the list functions.

`FetchEach` is characterised by its ensures:
- every element is the fetch of the address at the same position;
- with no error, there is one element per address;
- with an error, the element count is the index of the failing address, and that address's fetch is the error.

The characterisation is pinned down by `FetchEachUnique`. `FetchEachStopsAtFailure` proves that addresses after the first failure are never consulted.

Each decoder has an inverse (`Envelope`) and a round-trip lemma.

The resource modules follow one scheme per type, as the Go files do. `Decode`, `Attached`, `Fetch<Type>`, `List<Type>s`, `ListedCarryClient`, `Get<Type>` and `ListReferenced<Type>` repeat it with that type's envelope and fields.

## Model

| member | source | states |
|---|---|---|
| Transport.APIClient | client.go:32-43 | A null client with `InvalidEndpoint` exactly when the endpoint does not start with `"http"`. Otherwise a fresh client whose `Endpoint` is the argument, whose `Token` is empty, and whose HTTP client is the one given or the default. |
| Transport.EndpointPrefixExamples | client.go:33 | The endpoint test is a bare, case-sensitive prefix test: `"ftp://x"`, `""` and `"HTTP://…"` are rejected; `"httpfoo"` and `"https://bmc.example"` are accepted. |
| Transport.ApiClient.constructor | client.go:36 | A new client has the given endpoint, an empty token and the given HTTP client. |
| Transport.RequestFor | client.go:71-93 | The request URL is the endpoint followed by the path, or by `/redfish/v1/` when the path is empty. The header keys are exactly `User-Agent` and `Accept`, plus `Content-Type` iff there is a payload, plus `X-Auth-Token` iff the token is non-empty; that token header's value is the token. `Close` is always set and the body is the payload. |
| Transport.Classify | client.go:95-109 | A transport failure gives `TransportError` before any status check. For an answered request the result is `Ok` iff the status is in the accepted list; `Ok` carries the response, and a rejection carries the status and the whole body. |
| Transport.CheckStatus | client.go:112-119 | True iff the status occurs in the list (a scan with early return). |
| Transport.ApiClient.Do | client.go:70-110 | The request built by the step-by-step path substitution and header updates is `RequestFor`'s, and the result is `Classify` of the service's reply to it with the given statuses. |
| Transport.ApiClient.Get | client.go:46-48 | `Ok` exactly when the service answers with 200. |
| Transport.ApiClient.Post | client.go:51-53 | `Ok` exactly when the service answers with 200, 201, 202 or 204. |
| Transport.ApiClient.Put | client.go:56-58 | `Ok` exactly when the service answers with 200, 201, 202 or 204. |
| Transport.ApiClient.Patch | client.go:61-63 | `Ok` exactly when the service answers with 200, 201, 202 or 204. |
| Transport.ApiClient.Delete | client.go:66-68 | `Ok` exactly when the service answers with 200, 202 or 204. |
| Common.LinkAddress | redfish/computersystem.go:509 | `string(link)`: an absent link gives the empty address, a present one its `@odata.id`. |
| Common.ToStrings | redfish/computersystem.go:519 | `Links.ToStrings`: one address per link, in wire order, each the link's `@odata.id`. |
| Common.LinkRoundTrip | redfish/computersystem.go:509 | Every stored address is recovered from the link it is encoded as. |
| Common.LinksRoundTrip | redfish/computersystem.go:519 | Every stored address array is recovered from the link array it is encoded as. |
| Common.Detached | redfish/computersystem.go:534-535 | A freshly decoded entity keeps the wire identifier and name and has no client. |
| Common.SetClient | redfish/computersystem.go:540 | Attaching sets the client and keeps identifier and name. |
| Common.Fetch | redfish/computersystem.go:527-542 | A GET error is returned as is. A body that fails to parse gives `MalformedEnvelope`. Otherwise the result is the resource built from the parsed envelope. |
| Common.Present | redfish/computersystem.go:570 | The value-or-error of a follow-up fetch, as `Some`, with the error passed through; it is never `Ok(None)`, so `Ok(None)` singles out the empty-address case. |
| Common.FetchEach | redfish/computersystem.go:553-561 | The loop's result: each element is the fetch of the same-position address. With no error there is one element per address. With an error, the elements are those before the first failing address, and the error is that address's. |
| Common.FetchEachUnique | redfish/computersystem.go:553-561 | Any listing with those four properties is `FetchEach`'s, so they describe the loop completely. |
| Common.FetchEachStopsAtFailure | redfish/computersystem.go:554-557 | Addresses after the first failing one are never fetched: outcomes that agree up to it give the same listing. |
| Common.FetchAll | redfish/computersystem.go:598-609 | The append loop with early return computes `FetchEach` of its addresses. |
| Assemblies.Project | redfish/assembly.go:43-47 | Decoding copies the envelope's members and leaves the client unset. |
| Assemblies.ProjectEnvelope | redfish/assembly.go:15-33 | Every assembly (minus its client) is the decode of its envelope. |
| Assemblies.Decode | redfish/assembly.go:44-47 | Decoding fails exactly when parsing fails. |
| Assemblies.Attached | redfish/assembly.go:49 | `SetClient` changes the client and nothing else. |
| Assemblies.FetchAssembly | redfish/assembly.go:36-51 | A fetched assembly carries the fetching client. |
| Assemblies.ListAssemblies | redfish/assembly.go:55-75 | The empty link gives `([], nil)`. A collection error gives `[]` with that error. Otherwise the members are listed by `FetchEach`. |
| Assemblies.ListedCarryClient | redfish/assembly.go:66-72 | Every listed assembly carries the listing client. |
| Assemblies.GetAssembly | redfish/assembly.go:36-51 | GET error gives `(nil, err)`; parse failure gives `MalformedEnvelope`; success is `FetchAssembly` of the client's state and carries the client. |
| Assemblies.ListReferencedAssemblys | redfish/assembly.go:55-75 | With a client, the loop computes `ListAssemblies`: no request for the empty link, `[]` with the collection's error, else the in-order prefix up to the first failure. A nil client is accepted only for the empty link, which gives `([], nil)`. |
| DataStorageLoS.Project | swordfish/datastorageloscapabilities.go:93-97 | Decoding copies the envelope's members and leaves the client unset. |
| DataStorageLoS.ProjectEnvelope | swordfish/datastorageloscapabilities.go:50-83 | Every resource (minus its client) is the decode of its envelope. |
| DataStorageLoS.Decode | swordfish/datastorageloscapabilities.go:94-97 | Decoding fails exactly when parsing fails. |
| DataStorageLoS.Attached | swordfish/datastorageloscapabilities.go:99 | `SetClient` changes the client and nothing else. |
| DataStorageLoS.FetchDataStorageLoSCapabilities | swordfish/datastorageloscapabilities.go:86-101 | A fetched resource carries the fetching client. |
| DataStorageLoS.ListDataStorageLoSCapabilities | swordfish/datastorageloscapabilities.go:105-125 | The empty link gives `([], nil)`. A collection error gives `[]` with that error. Otherwise the members are listed by `FetchEach`. |
| DataStorageLoS.ListedCarryClient | swordfish/datastorageloscapabilities.go:116-122 | Every listed resource carries the listing client. |
| DataStorageLoS.GetDataStorageLoSCapabilities | swordfish/datastorageloscapabilities.go:86-101 | GET error gives `(nil, err)`; parse failure gives `MalformedEnvelope`; success is the fetch spec and carries the client. |
| DataStorageLoS.ListReferencedDataStorageLoSCapabilities | swordfish/datastorageloscapabilities.go:105-125 | With a client, the loop computes the list spec: no request for the empty link, `[]` with the collection's error, else the in-order prefix up to the first failure. A nil client is accepted only for the empty link, which gives `([], nil)`. |
| IOConnectivityLoS.Project | swordfish/ioconnectivityloscapabilities.go:55-59 | Decoding copies the envelope's members and leaves the client unset. |
| IOConnectivityLoS.ProjectEnvelope | swordfish/ioconnectivityloscapabilities.go:15-44 | Every resource (minus its client) is the decode of its envelope. |
| IOConnectivityLoS.Decode | swordfish/ioconnectivityloscapabilities.go:56-59 | Decoding fails exactly when parsing fails. |
| IOConnectivityLoS.DecodesFixture | swordfish/ioconnectivityloscapabilities_test.go:74-96 | Decoding the test envelope gives identifier `IOConnectivityLoSCapabilities-1`, its name, 5000000000 bytes/s, 1000000000 IOPS, `FCP` as the second access protocol and 5000000000 bytes/s on the first line of service (wire order kept). |
| IOConnectivityLoS.Attached | swordfish/ioconnectivityloscapabilities.go:61 | `SetClient` changes the client and nothing else. |
| IOConnectivityLoS.FetchIOConnectivityLoSCapabilities | swordfish/ioconnectivityloscapabilities.go:48-63 | A fetched resource carries the fetching client. |
| IOConnectivityLoS.ListIOConnectivityLoSCapabilities | swordfish/ioconnectivityloscapabilities.go:67-87 | The empty link gives `([], nil)`. A collection error gives `[]` with that error. Otherwise the members are listed by `FetchEach`. |
| IOConnectivityLoS.ListedCarryClient | swordfish/ioconnectivityloscapabilities.go:78-84 | Every listed resource carries the listing client. |
| IOConnectivityLoS.GetIOConnectivityLoSCapabilities | swordfish/ioconnectivityloscapabilities.go:48-63 | GET error gives `(nil, err)`; parse failure gives `MalformedEnvelope`; success is the fetch spec and carries the client. |
| IOConnectivityLoS.ListReferencedIOConnectivityLoSCapabilitiess | swordfish/ioconnectivityloscapabilities.go:67-87 | With a client, the loop computes the list spec: no request for the empty link, `[]` with the collection's error, else the in-order prefix up to the first failure. A nil client is accepted only for the empty link, which gives `([], nil)`. |
| EventServices.Project | redfish/eventservice.go:97-99 | `subscriptions` is the address of the wire `Subscriptions` link; all other members are copied; no client. |
| EventServices.ProjectEnvelope | redfish/eventservice.go:85-102 | Every event service (minus its client) is the decode of its envelope. |
| EventServices.Decode | redfish/eventservice.go:92-99 | Decoding fails exactly when parsing fails. |
| EventServices.UnmarshalJSON | redfish/eventservice.go:85-102 | On a parse failure the receiver is returned unchanged with an error; otherwise the field-by-field result is the decode. |
| EventServices.Attached | redfish/eventservice.go:118 | `SetClient` changes the client and nothing else. |
| EventServices.FetchEventService | redfish/eventservice.go:105-120 | A fetched event service carries the fetching client. |
| EventServices.ListEventServices | redfish/eventservice.go:124-144 | The empty link gives `([], nil)`. A collection error gives `[]` with that error. Otherwise the members are listed by `FetchEach`. |
| EventServices.ListedCarryClient | redfish/eventservice.go:135-141 | Every listed event service carries the listing client. |
| EventServices.GetEventService | redfish/eventservice.go:105-120 | GET error gives `(nil, err)`; parse failure gives `MalformedEnvelope`; success is the fetch spec and carries the client. |
| EventServices.ListReferencedEventServices | redfish/eventservice.go:124-144 | With a client, the loop computes the list spec: no request for the empty link, `[]` with the collection's error, else the in-order prefix up to the first failure. A nil client is accepted only for the empty link, which gives `([], nil)`. |
| Managers.Project | redfish/manager.go:290-303 | The six top-level links land in the same-named slots. The three `managerFor*` arrays and `managerInChassis` come from `Links`. The three counts equal the nested `Links` counts, whatever the top level said. Every other member is copied. `hostInterfaces` is always empty. |
| Managers.ProjectEnvelope | redfish/manager.go:262-306 | Every manager without a host-interfaces address (minus its client) is the decode of its envelope. |
| Managers.TopLevelCountsIgnored | redfish/manager.go:298-302 | Changing the top-level member counts of an envelope never changes the decoded manager. |
| Managers.Decode | redfish/manager.go:284-290 | Decoding fails exactly when parsing fails. |
| Managers.UnmarshalJSON | redfish/manager.go:262-306 | On a parse failure the receiver is returned unchanged with an error; otherwise the field-by-field result, count overwrites included, is the decode. |
| Managers.Attached | redfish/manager.go:322 | `SetClient` changes the client and nothing else. |
| Managers.FetchManager | redfish/manager.go:309-324 | A fetched manager carries the fetching client. |
| Managers.ListManagers | redfish/manager.go:327-343 | With no empty-link guard, the collection is looked up for every link: an error gives `[]` with that error; otherwise the members are listed by `FetchEach`. |
| Managers.ListedCarryClient | redfish/manager.go:334-340 | Every listed manager carries the listing client. |
| Managers.GetManager | redfish/manager.go:309-324 | GET error gives `(nil, err)`; parse failure gives `MalformedEnvelope`; success is the fetch spec and carries the client. |
| Managers.ListReferencedManagers | redfish/manager.go:327-343 | The loop computes the list spec: `[]` with the collection's error (the empty link included), else the in-order prefix up to the first failure. |
| Drives.Project | school/redfish/drive.go:255-263 | `assembly` comes from the top-level link; `chassis`, `endpoints`, `volumes` and `pcieFunctions` come from `Links`. The three counts equal the nested `Links` counts, overriding a top-level `Endpoints@odata.count`. Every other member is copied. |
| Drives.ProjectEnvelope | school/redfish/drive.go:228-266 | Every drive (minus its client) is the decode of its envelope. |
| Drives.TopLevelCountsIgnored | school/redfish/drive.go:259-263 | Changing the top-level counts of an envelope never changes the decoded drive. |
| Drives.Decode | school/redfish/drive.go:249-255 | Decoding fails exactly when parsing fails. |
| Drives.UnmarshalJSON | school/redfish/drive.go:228-266 | On a parse failure the receiver is returned unchanged with an error; otherwise the field-by-field result is the decode. |
| Drives.Attached | school/redfish/drive.go:282 | `SetClient` changes the client and nothing else. |
| Drives.FetchDrive | school/redfish/drive.go:269-284 | A fetched drive carries the fetching client. |
| Drives.ListDrives | school/redfish/drive.go:287-307 | The empty link gives `([], nil)`. A collection error gives `[]` with that error. Otherwise the members are listed by `FetchEach`. |
| Drives.ListedCarryClient | school/redfish/drive.go:298-304 | Every listed drive carries the listing client. |
| Drives.GetDrive | school/redfish/drive.go:269-284 | GET error gives `(nil, err)`; parse failure gives `MalformedEnvelope`; success is the fetch spec and carries the client. |
| Drives.ListReferencedDrives | school/redfish/drive.go:287-307 | With a client, the loop computes the list spec: no request for the empty link, `[]` with the collection's error, else the in-order prefix up to the first failure. A nil client is accepted only for the empty link, which gives `([], nil)`. |
| Drives.Assembly | school/redfish/drive.go:310-316 | `Ok(None)` exactly when the address is empty. Otherwise the result is the assembly fetch of the stored address through the drive's client, and it carries that client. |
| Drives.Chassis | school/redfish/drive.go:319-325 | `Ok(None)` exactly when the address is empty; otherwise `GetChassis` of the stored address through the drive's client. |
| Drives.Endpoints | school/redfish/drive.go:328-340 | `FetchEach` of the stored endpoint addresses: one element per address on success, a strictly shorter prefix on failure. |
| Drives.Volumes | school/redfish/drive.go:343-355 | `FetchEach` of the stored volume addresses: one element per address on success, a strictly shorter prefix on failure. |
| Drives.PCIeFunctions | school/redfish/drive.go:358-370 | `FetchEach` of the stored PCIe function addresses: one element per address on success, a strictly shorter prefix on failure. |
| ComputerSystems.ProjectBoot | redfish/computersystem.go:302-305 | `bootOptions` is the address of the wire `BootOptions` link; every other Boot member is copied. |
| ComputerSystems.ProjectEnvelopeBoot | redfish/computersystem.go:290-308 | Every Boot is the decode of its envelope. |
| ComputerSystems.UnmarshalBoot | redfish/computersystem.go:290-308 | On a parse failure the receiver is returned unchanged with an error; otherwise the result is the projected Boot. |
| ComputerSystems.Project | redfish/computersystem.go:506-521 | Each of the ten single links lands in the same-named slot. `pcieDevices` and `pcieFunctions` come from the top-level arrays and `chassis` from `Links.Chassis`. The Boot member is decoded by the Boot decoder. Every other member is copied. |
| ComputerSystems.ProjectEnvelope | redfish/computersystem.go:482-524 | Every system (minus its client) is the decode of its envelope. |
| ComputerSystems.OtherLinksIgnored | redfish/computersystem.go:519-521 | The `Links` arrays other than `Chassis` never reach the decoded system. |
| ComputerSystems.Decode | redfish/computersystem.go:501-506 | Decoding fails exactly when parsing fails. |
| ComputerSystems.UnmarshalJSON | redfish/computersystem.go:482-524 | On a parse failure the receiver is returned unchanged with an error; otherwise the field-by-field result is the decode. |
| ComputerSystems.Attached | redfish/computersystem.go:540 | `SetClient` changes the client and nothing else. |
| ComputerSystems.FetchComputerSystem | redfish/computersystem.go:527-542 | A fetched system carries the fetching client. |
| ComputerSystems.ListComputerSystems | redfish/computersystem.go:546-562 | With no empty-link guard, the collection is looked up for every link: an error gives `[]` with that error; otherwise the members are listed by `FetchEach`. |
| ComputerSystems.ListedCarryClient | redfish/computersystem.go:553-559 | Every listed system carries the listing client. |
| ComputerSystems.GetComputerSystem | redfish/computersystem.go:527-542 | GET error gives `(nil, err)`; parse failure gives `MalformedEnvelope`; success is the fetch spec and carries the client. |
| ComputerSystems.ListReferencedComputerSystems | redfish/computersystem.go:546-562 | The loop computes the list spec: `[]` with the collection's error (the empty link included), else the in-order prefix up to the first failure. |
| ComputerSystems.Bios | redfish/computersystem.go:565-571 | `Ok(None)` exactly when the address is empty (no request); otherwise `GetBios` of the stored address through the system's client. |
| ComputerSystems.SecureBoot | redfish/computersystem.go:630-636 | `Ok(None)` exactly when the address is empty (no request); otherwise `GetSecureBoot` of the stored address through the system's client. |
| ComputerSystems.RelationsFollowWire | redfish/computersystem.go:564-646 | For a system decoded from an envelope and attached to a client, each of the ten relation accessors follows the same-named wire link through that client. `Bios` and `SecureBoot` give `Ok(None)` for an absent link and otherwise the resolver's result. `EthernetInterfaces`, `LogServices`, `Memory`, `MemoryDomains`, `NetworkInterfaces`, `Processors`, `SimpleStorages` and `Storage` give the list function's result for the link's address, the empty address included. |
| ComputerSystems.PCIeDevices | redfish/computersystem.go:598-609 | `FetchEach` of the stored PCIe device addresses: one element per address on success, a strictly shorter prefix on failure. |
| ComputerSystems.PCIeFunctions | redfish/computersystem.go:612-622 | `FetchEach` of the stored PCIe function addresses: one element per address on success, a strictly shorter prefix on failure. |

## Left out

- The real network: `net/http`, `httpClient.Do`, reading and closing bodies. The service is a total function from the request to either a transport failure or a status with the fully read body. The error from reading a rejected response's body (client.go:101-104) is not modelled.
- `http.NewRequest` failing (client.go:77-86), for instance for the endpoint `"http://a b"`, which passes the prefix test. For a request without a payload the error is returned at client.go:84-86, and the model folds it into the service oracle's transport failure. For a request with a payload, client.go:82 sets the `Content-Type` header on the nil request before the error is checked, so Go panics. The model does not capture that panic.
- Transport.APIClient: the default `&http.Client{}` is the `defaultHttp` parameter.
- The exact `fmt.Errorf` texts (client.go:34, 106). Errors are `InvalidEndpoint`, `TransportError(reason)`, `RequestFailed(status, body)` and `MalformedEnvelope`.
- Header-name canonicalisation by `net/http` is not modelled; the header map uses the names as written.
- `encoding/json` itself, struct tags and the streaming decoder: each wire envelope is an already-parsed datatype, and parsing is an abstract `Bytes -> Option<Wire>` function. Which Go field a JSON member reaches, the `Name` of a ComputerSystem included (its own `Name` field sits beside `Entity`'s), is part of that parse. So is the rejection of a JSON number for the string-typed `Redundancy@odata.count`.
- Enum string types (power state, manager type, protocols and the like) are plain strings. Sub-objects that carry no link logic (status, actions, summaries with `float32` sizes, identifiers, locations) are `Opaque`.
- IOConnectivityLoS.IOConnectivityLineOfService: its Go declaration is not part of this model. The record has exactly the members the test envelope carries.
- The common package is not part of this model. `common.GetCollection` is an oracle from client state and link to member addresses. `Link`, `Links.ToStrings`, `Entity` and `SetClient` are modelled from their uses; `DefaultServiceRoot` is taken to be `/redfish/v1/`.
- `GetBios`, `GetSecureBoot`, `GetChassis`, `GetPCIeDevice`, `GetPCIeFunction`, `GetEndpoint`, `GetVolume` and the `ListReferenced*` functions of other resource types are not shown. They are oracles that receive the entity's client (possibly nil) and the address.
- Drives.Assembly: the school package's own `GetAssembly` is not shown. The model uses redfish/assembly.go's, requires a client whenever the address is non-empty (a nil client cannot be called), and leaves the nil-client case out.
- Resources are values: the `*Type` references `Get<Type>` returns, their identity and aliasing, are not modelled. The client is a shared object reference.
- Managers.Project: `hostInterfaces` is declared but never set by the decoder, so the model always leaves it empty. No operation in the core reads it.
- Go's `int` is taken to be unbounded. `int64` members are restricted to the signed 64-bit range, and an out-of-range number is a parse failure.
