/**
 * The authentication gate of digits.go: building its configuration (`New`,
 * `Default`), resolving the identity a request claims (`FromRequest`,
 * `Verify`) and dispatching to the error handler or the next handler
 * (`ServeHTTP`).
 *
 * The libraries the gate calls are abstract inputs gathered in `Env`:
 * `url.Parse`, `http.NewRequest`, and the exchange made by `client.Do`,
 * `ioutil.ReadAll` and `json.Unmarshal`.
 */
module Gate {
  import opened Wrappers
  import opened Identities

  const DefaultProviderHeader := "X-Auth-Service-Provider"
  const DefaultCredentialsHeader := "X-Verify-Credentials-Authorization"
  /** The only hosts accepted as verification providers. */
  const DefaultWhitelist: seq<string> := ["api.digits.com", "api.twitter.com"]
  /** The status code of "200 OK". */
  const StatusOK := 200

  /** An `*http.Client`: the package's own default one, or one the caller supplies. */
  datatype Client = DefaultClient | SuppliedClient(handle: nat)

  /** An `ErrorHandler` function value. */
  datatype ErrorHandler = DefaultErrorHandler | SuppliedErrorHandler(handle: nat)

  /** `Options`: the zero value of a field means "use the default". */
  datatype Options = Options(
    providerHeader: string,
    credentialsHeader: string,
    client: Option<Client>,
    errorHandler: Option<ErrorHandler>,
    phoneNumber: string,
    debug: bool)

  /** The `Digits` struct; `logging` stands for a non-nil `Logger`. */
  datatype Digits = Digits(
    logging: bool,
    providerHeader: string,
    credentialsHeader: string,
    whitelist: seq<string>,
    client: Option<Client>,
    errorHandler: Option<ErrorHandler>,
    phoneNumber: string)

  /** Request headers: name to values, keys already in canonical form. */
  type Header = map<string, seq<string>>

  /** An inbound request; `identity` is the value its context holds under `Key`. */
  datatype Request = Request(header: Header, identity: Option<Identity>)

  /** `Header.Get`: the first value stored under `name`, or "" when there is none. */
  function HeaderGet(h: Header, name: string): string
  {
    if name in h && |h[name]| > 0 then h[name][0] else ""
  }

  /** The errors the gate returns; `detail` is the message of a library error. */
  datatype Error =
    | UrlError(detail: string)          // from url.Parse
    | UnauthorizedServiceProvider
    | RequestError(detail: string)      // from http.NewRequest
    | TransportError(detail: string)    // from client.Do
    | UnsuccessfulResponse
    | ReadError(detail: string)         // from ioutil.ReadAll
    | DecodeError(detail: string)       // from json.Unmarshal
  {
    /** `err.Error()`. */
    function Message(): string
    {
      match this
      case UnauthorizedServiceProvider => "unauthorized service provider"
      case UnsuccessfulResponse => "unsuccessful response"
      case UrlError(d) => d
      case RequestError(d) => d
      case TransportError(d) => d
      case ReadError(d) => d
      case DecodeError(d) => d
    }
  }

  /** The Go result pair `(*Identity, error)`; nil is `None`. */
  datatype Outcome = Outcome(identity: Option<Identity>, err: Option<Error>)

  function Succeeded(idt: Identity): Outcome { Outcome(Some(idt), None) }
  function Failed(e: Error): Outcome { Outcome(None, Some(e)) }

  /** What `url.Parse` makes of a string: its `Host`, or an error. */
  datatype UrlParse = Parsed(host: string) | Unparsable(detail: string)

  /** The outbound request `Verify` sends: method, URL and `Authorization` header. */
  datatype Outbound = Outbound(verb: string, url: string, authorization: string)

  /** What `json.Unmarshal` leaves in a fresh `Identity{}`, and whether it failed. */
  datatype Decoding = Decoded(identity: Identity) | Malformed(partial: Identity, detail: string)

  /** The outcome of `ioutil.ReadAll` on the response body, then of decoding it. */
  datatype Body = Unreadable(detail: string) | Readable(decoding: Decoding)

  /** The outcome of `client.Do`: no response, or a status code and a body. */
  datatype Exchange = Unsent(detail: string) | Responded(status: int, body: Body)

  /**
   * The environment: `parseUrl` is `url.Parse`; `newRequest(u)` is the error
   * `http.NewRequest("GET", u, nil)` gives, if any; `send(c, req)` is what
   * client `c` obtains for `req`.
   */
  datatype Env = Env(
    parseUrl: string -> UrlParse,
    newRequest: string -> Option<string>,
    send: (Client, Outbound) -> Exchange)

  /** In Go, `http.NewRequest("GET", u, nil)` fails only when `url.Parse(u)`
      fails, so a provider string that parses can always be built into a request. */
  ghost predicate Coherent(env: Env)
  {
    forall u :: env.parseUrl(u).Parsed? ==> env.newRequest(u).None?
  }

  /** What `ServeHTTP` does in the end. */
  datatype Action =
    | ErrorHandled(handler: ErrorHandler, request: Request, err: Error)
    | NextCalled(request: Request)
    | NilErrorHandler(err: Error)   // calling a nil ErrorHandler panics

  /** What every `Digits` that `New` builds satisfies. */
  predicate Configured(dig: Digits)
  {
    && dig.providerHeader != ""
    && dig.credentialsHeader != ""
    && dig.whitelist == DefaultWhitelist
    && dig.client.Some?
    && dig.errorHandler.Some?
  }

  /** `New`: each option left at its zero value falls back to its default. */
  method New(options: Options) returns (dig: Digits)
    ensures Configured(dig)
    ensures options.providerHeader == "" ==> dig.providerHeader == DefaultProviderHeader
    ensures options.providerHeader != "" ==> dig.providerHeader == options.providerHeader
    ensures options.credentialsHeader == "" ==> dig.credentialsHeader == DefaultCredentialsHeader
    ensures options.credentialsHeader != "" ==> dig.credentialsHeader == options.credentialsHeader
    ensures options.client.None? ==> dig.client == Some(DefaultClient)
    ensures options.client.Some? ==> dig.client == options.client
    ensures options.errorHandler.None? ==> dig.errorHandler == Some(DefaultErrorHandler)
    ensures options.errorHandler.Some? ==> dig.errorHandler == options.errorHandler
    ensures dig.phoneNumber == options.phoneNumber
    ensures dig.logging == options.debug
  {
    dig := Digits(false, "", "", DefaultWhitelist, None, None, "");

    if options.providerHeader == "" {
      dig := dig.(providerHeader := DefaultProviderHeader);
    } else {
      dig := dig.(providerHeader := options.providerHeader);
    }

    if options.credentialsHeader == "" {
      dig := dig.(credentialsHeader := DefaultCredentialsHeader);
    } else {
      dig := dig.(credentialsHeader := options.credentialsHeader);
    }

    if options.client.None? {
      dig := dig.(client := Some(DefaultClient));
    } else {
      dig := dig.(client := options.client);
    }

    if options.errorHandler.None? {
      dig := dig.(errorHandler := Some(DefaultErrorHandler));
    } else {
      dig := dig.(errorHandler := options.errorHandler);
    }

    if options.phoneNumber != "" {
      dig := dig.(phoneNumber := options.phoneNumber);
    }

    if options.debug {
      dig := dig.(logging := true);
    }
  }

  /** `Default`: `New` with every option at its zero value. */
  method Default() returns (dig: Digits)
    ensures dig == Digits(false, DefaultProviderHeader, DefaultCredentialsHeader,
                          DefaultWhitelist, Some(DefaultClient), Some(DefaultErrorHandler), "")
  {
    dig := New(Options("", "", None, None, "", false));
  }

  /**
   * `Verify`: GET `serviceProvider` with `Authorization: credentials` through
   * `client` (nil meaning the package default). A non-200 status is an error
   * whatever the body; on 200 the identity is returned together with the
   * decoding error, so it is there even when decoding fails.
   */
  function Verify(serviceProvider: string, credentials: string, client: Option<Client>, env: Env): (o: Outcome)
    ensures o.identity.Some? || o.err.Some?
    ensures o.identity.Some? ==>
              && env.newRequest(serviceProvider).None?
              && var ex := env.send(if client.None? then DefaultClient else client.value,
                                    Outbound("GET", serviceProvider, credentials));
                 ex.Responded? && ex.status == StatusOK && ex.body.Readable?
  {
    match env.newRequest(serviceProvider)
    case Some(detail) => Failed(RequestError(detail))
    case None =>
      var c := if client.None? then DefaultClient else client.value;
      match env.send(c, Outbound("GET", serviceProvider, credentials))
      case Unsent(detail) => Failed(TransportError(detail))
      case Responded(status, body) =>
        if status != StatusOK then Failed(UnsuccessfulResponse)
        else
          match body
          case Unreadable(detail) => Failed(ReadError(detail))
          case Readable(Decoded(idt)) => Succeeded(idt)
          case Readable(Malformed(partial, detail)) => Outcome(Some(partial), Some(DecodeError(detail)))
  }

  /**
   * What `FromRequest` returns: the static phone number when one is
   * configured; otherwise the provider header must parse and its host must
   * be a whitelist entry, and then `Verify` decides with the raw header value.
   */
  function Resolution(dig: Digits, r: Request, env: Env): (o: Outcome)
    ensures o.identity.Some? || o.err.Some?
  {
    if dig.phoneNumber != "" then
      Succeeded(ZeroIdentity.(phoneNumber := dig.phoneNumber))
    else
      var provider := HeaderGet(r.header, dig.providerHeader);
      match env.parseUrl(provider)
      case Unparsable(detail) => Failed(UrlError(detail))
      case Parsed(host) =>
        if host !in dig.whitelist then Failed(UnauthorizedServiceProvider)
        else Verify(provider, HeaderGet(r.header, dig.credentialsHeader), dig.client, env)
  }

  /** `FromRequest`, with its scan of the whitelist for the provider's host. */
  method FromRequest(dig: Digits, r: Request, env: Env) returns (o: Outcome)
    ensures o == Resolution(dig, r, env)
  {
    if dig.phoneNumber != "" {
      return Succeeded(ZeroIdentity.(phoneNumber := dig.phoneNumber));
    }
    var provider := HeaderGet(r.header, dig.providerHeader);
    var u := env.parseUrl(provider);
    if u.Unparsable? {
      return Failed(UrlError(u.detail));
    }

    var matched := false;
    for i := 0 to |dig.whitelist|
      invariant !matched
      invariant forall j :: 0 <= j < i ==> dig.whitelist[j] != u.host
    {
      if dig.whitelist[i] == u.host {
        matched := true;
        break;
      }
    }

    if !matched {
      return Failed(UnauthorizedServiceProvider);
    }

    var credentials := HeaderGet(r.header, dig.credentialsHeader);
    o := Verify(provider, credentials, dig.client, env);
  }

  /**
   * `ServeHTTP`: on an error the configured handler gets the original
   * request and the error and `next` is not called; otherwise `next` gets
   * the request with the identity attached under `Key`.
   */
  function ServeHTTP(dig: Digits, r: Request, env: Env): (a: Action)
    ensures a.NextCalled? <==> Resolution(dig, r, env).err.None?
    ensures a.NilErrorHandler? <==> Resolution(dig, r, env).err.Some? && dig.errorHandler.None?
  {
    var o := Resolution(dig, r, env);
    if o.err.Some? then
      if dig.errorHandler.None? then NilErrorHandler(o.err.value)
      else ErrorHandled(dig.errorHandler.value, r, o.err.value)
    else
      NextCalled(r.(identity := o.identity))
  }
}
