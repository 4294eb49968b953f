# digits: a Dafny model of the phone-identity gate

This project models the decision logic of the `digits` Go middleware. The
middleware is an HTTP gate. It takes the verification provider that a request
names in a header and checks that provider's host against a fixed whitelist.
It then asks that provider to verify the credential the request forwards, and
passes the verified `Identity` on to the next handler. Any error goes to an
error handler instead. The model also covers the package's in-memory identity
store.

Files:

- `wrappers.dfy`: `Option`, which stands for Go's nil-able pointers.
- `identity.dfy`: `Identity`, `AccessToken` and the zero identity. The `id`
  field is Go's `int`, taken as 64-bit (`int64`).
- `gate.dfy` (module `Gate`) covers these operations:
  - `New` and `Default` fill in configuration defaults.
  - `Verify` makes the upstream exchange and decides on its result.
  - `Resolution` is the specification of `FromRequest`.
  - `FromRequest` is the method that scans the whitelist with a `matched`
    flag. It is proved to compute `Resolution`.
  - `ServeHTTP` dispatches to the error handler or to `next`.
- `gate_laws.dfy` (module `GateLaws`): what the gate promises, stated as
  lemmas over `Verify`, `Resolution` and `ServeHTTP`.
- `store_memory.dfy` (module `StoreMemory`): the `MemoryStore` class, whose
  map field `Save` updates in place. It also holds the Go map-lookup semantics
  as a function with lemmas, and client methods that mirror the store's tests.

The libraries the gate calls are abstract inputs, collected in `Gate.Env`:

- `url.Parse` gives a host or an error.
- `http.NewRequest` may fail for a URL.
- `client.Do` gives either a transport error, or a status code plus a body.
- `ioutil.ReadAll` and `json.Unmarshal` together give that body's outcome:
  unreadable, decoded, or malformed with a partially filled identity.

Go's result pair `(*Identity, error)` is `Gate.Outcome`, which has two
optional halves. The pair is needed because `Verify` can return a non-nil
identity together with a decoding error.

`FromRequest` never consults an identity store (digits.go:118-150): the
store is a separate component, and the model keeps the two apart. `Verify`
never closes `resp.Body` on any path (digits.go:162-177).

## Model

| member | source | states |
|---|---|---|
| `Gate.New` | digits.go:58-96 | the provider and credentials headers are the given names, or the defaults `X-Auth-Service-Provider` / `X-Verify-Credentials-Authorization` when empty; the whitelist is always exactly `["api.digits.com", "api.twitter.com"]`; a nil client / error handler becomes the default one; the phone number and debug flag are taken as given; the result is `Configured` |
| `Gate.Default` | digits.go:98-100 | the configuration equals the all-defaults one: default headers, default whitelist, default client and handler, no phone number, no logger |
| `Gate.Verify` | digits.go:152-178 | the result always has an identity or an error (never both nil); an identity is returned only if the request could be built, the exchange with the given (or default) client for a GET carrying the credential as `Authorization` got a response, its status was 200 and its body was read |
| `Gate.Resolution` | digits.go:118-150 | every outcome of `FromRequest` holds an identity or an error |
| `Gate.FromRequest` | digits.go:118-150 | the whitelist scan with its `matched` flag and early break returns exactly `Resolution`: the static phone identity, the parse error, "unauthorized service provider" when no entry equals the host, or `Verify` of the raw provider header |
| `Gate.ServeHTTP` | digits.go:102-116 | `next` is called exactly when resolution has no error; calling a nil error handler (a panic in Go) happens exactly when there is an error and no handler is configured |
| `GateLaws.VerifyRejectsNon200` | digits.go:166-168 | any status other than 200 gives the "unsuccessful response" error and no identity, whatever the body |
| `GateLaws.VerifyDecodes200` | digits.go:169-177 | on 200 with a readable body the decoded identity is returned; if decoding fails, the partially decoded identity is returned together with the decoding error |
| `GateLaws.VerifyPropagatesLibraryErrors` | digits.go:153-172 | a request-building, transport or body-read failure is returned unchanged with no identity |
| `GateLaws.VerifySendsOneRequest` | digits.go:153-162 | the result depends on the network only through one GET to the given URL with `Authorization` set to the raw credential, made with the given client |
| `GateLaws.VerifyNilClientIsDefault` | digits.go:159-161 | a nil client behaves as the package default client |
| `GateLaws.VerifySuccessExample` | digits_test.go:11-27 | a 200 response decoding to the sample identity gives that identity (phone, verification type, both ids, creation time) and no error |
| `GateLaws.VerifyUnauthorizedExample` | digits_test.go:29-38 | a 401 response gives an error |
| `GateLaws.StaticPhoneBypass` | digits.go:119-121 | with a static phone number the result is the identity with only that phone number set, whatever the request's headers and the environment, so nothing is parsed or verified |
| `GateLaws.UnparsableProviderFails` | digits.go:122-126 | a provider claim the URL parser rejects yields that parse error and no identity |
| `GateLaws.UnlistedHostRejected` | digits.go:128-138 | a host equal to no whitelist entry yields "unauthorized service provider", and the result does not depend on the network, so `Verify` is not reached |
| `GateLaws.ListedHostVerifies` | digits.go:128-149 | a host equal to a whitelist entry yields exactly `Verify` of the raw provider header (not the parsed URL), the credentials header and the configured client |
| `GateLaws.CoherentNoRequestError` | digits.go:153-156 | when, as in Go, every provider string `url.Parse` accepts can also be built into a GET request, `FromRequest` never returns a request-building error |
| `GateLaws.DefaultWhitelistExact` | digits.go:60 | the default whitelist admits a host exactly when it is `api.digits.com` or `api.twitter.com` |
| `GateLaws.DefaultWhitelistRejectsPortsAndEmpty` | digits.go:128-134 | exact matching: an empty host, or one carrying a port (`:`), is never in the default whitelist |
| `GateLaws.MissingProviderHeaderRejected` | digits.go:122-138 | with the default whitelist, a request without a provider header (empty URL, empty host) is refused as an unauthorized provider |
| `GateLaws.ServeErrorCallsHandler` | digits.go:103-110 | on an error, the configured handler receives the original request and that error, and `next` is not called |
| `GateLaws.ServeSuccessCallsNext` | digits.go:111-115 | on success the identity is non-nil and `next` receives the request, headers unchanged, with that identity attached under `Key` |
| `GateLaws.ServeMalformedBodyCallsHandler` | digits.go:103-110 | a 200 response whose body fails to decode reaches the error handler with the decoding error, although `Verify` produced an identity |
| `GateLaws.ConfiguredNeverPanics` | digits.go:81-85 | a gate built by `New` always has an error handler to call |
| `StoreMemory.LookupEmpty` | store_memory.go:12-20 | a fresh table answers nil for every credential |
| `StoreMemory.LookupAfterStore` | store_memory.go:16-26 | after storing under a credential, it yields the stored identity; every other credential yields what it did before |
| `StoreMemory.StoreOverwrites` | store_memory.go:25 | last write wins: a second store under the same credential replaces the first |
| `StoreMemory.NilAndAbsentAlike` | store_memory.go:18 | a missing key and a key saved with nil both load as nil |
| `StoreMemory.MemoryStore.constructor` | store_memory.go:12-14 | a new store has an empty table |
| `StoreMemory.MemoryStore.Load` | store_memory.go:16-21 | returns the stored identity when the key is present and nil otherwise, and changes nothing |
| `StoreMemory.MemoryStore.Save` | store_memory.go:23-27 | the table afterwards is the old table with the key mapped to the new identity |
| `StoreMemory.LoadUnexisting` | store_memory_test.go:9-15 | a fresh store answers nil twice in a row |
| `StoreMemory.SaveAndLoad` | store_memory_test.go:17-27 | after `Save(c, idt)`, `Load(c)` returns `idt` and a credential never saved still returns nil |
| `StoreMemory.SaveTwice` | store_memory.go:23-26 | after saving `a` then `b` under one credential, loading it gives `b`, and another credential loads the same as before |
| `StoreMemory.LoadTwice` | store_memory.go:16-21 | two consecutive loads of one credential agree |

## Left out

- The HTTP transport is abstract (`Env.newRequest`, `Env.send`). This covers `http.NewRequest`, `client.Do`, `ioutil.ReadAll` and the default client's 10-second timeout. Timeouts appear only as some transport error.
- JSON decoding of `Identity` is an abstract outcome (`Decoding`). The model has no parser for the wire format.
- `url.Parse` is an abstract function (`Env.parseUrl`) that gives a host or an error.
- `Header.Get` is modelled as an exact-key lookup of the first value. MIME canonicalisation of header names is not modelled.
- The store's `sync.RWMutex` is not modelled. The model gives sequential map semantics only.
- Logging is reduced to whether a logger exists (`Digits.logging`). Its output has no effect on results.
- `context.WithValue` is modelled as the `identity` field of the request handed to `next`.
- The default error handler's `401` response (`http.Error`) is not modelled. The model records which handler was invoked, with which request and error.
- Pointer identity is modelled as value equality. The store test's "same memory address" check becomes equality of the stored and loaded values.
- `MemoryStore` values not created by `NewMemoryStore` have a nil map, and `Save` on them panics in Go. Only the constructor is modelled.
- `Options.Client` is modelled as an opaque handle. Client configuration other than being the default or not is left out.
- `Verify` never closes the response body (the connection is not returned to the client's pool); the model has no body resource, so this leak is not represented.
- `Identity.Id` is Go's `int`, whose width depends on the platform (32 bits on 386 and arm); the model takes it as 64-bit.
- `Env` lets `newRequest` fail on a string `parseUrl` accepts, which Go cannot do. Environments without that mismatch are `Gate.Coherent`; under it `FromRequest` never returns a request-building error (`GateLaws.CoherentNoRequestError`).
