/**
 * What the gate promises its callers, stated over `Gate.Verify`,
 * `Gate.Resolution` (which `Gate.FromRequest` is proved to compute) and
 * `Gate.ServeHTTP`.
 */
module GateLaws {
  import opened Wrappers
  import opened Identities
  import opened Gate

  /** The header value `FromRequest` reads as the provider claim. */
  function ProviderOf(dig: Digits, r: Request): string
  {
    HeaderGet(r.header, dig.providerHeader)
  }

  /** The header value `FromRequest` forwards as the credential. */
  function CredentialsOf(dig: Digits, r: Request): string
  {
    HeaderGet(r.header, dig.credentialsHeader)
  }

  // ---------------------------------------------------------------- Verify

  /** A status other than 200 is "unsuccessful response", whatever the body. */
  lemma VerifyRejectsNon200(url: string, creds: string, client: Option<Client>, env: Env, status: int, body: Body)
    requires env.newRequest(url).None?
    requires env.send(if client.None? then DefaultClient else client.value,
                      Outbound("GET", url, creds)) == Responded(status, body)
    requires status != StatusOK
    ensures Verify(url, creds, client, env) == Failed(UnsuccessfulResponse)
    ensures Verify(url, creds, client, env).err.value.Message() == "unsuccessful response"
  {
  }

  /** On 200 the decoded identity is returned, alongside the decoding error if
      there was one: the identity is non-nil even when decoding fails. */
  lemma VerifyDecodes200(url: string, creds: string, client: Option<Client>, env: Env, d: Decoding)
    requires env.newRequest(url).None?
    requires env.send(if client.None? then DefaultClient else client.value,
                      Outbound("GET", url, creds)) == Responded(StatusOK, Readable(d))
    ensures d.Decoded? ==> Verify(url, creds, client, env) == Succeeded(d.identity)
    ensures d.Malformed? ==>
              Verify(url, creds, client, env) == Outcome(Some(d.partial), Some(DecodeError(d.detail)))
  {
  }

  /** Failures to build the request, to send it, or to read the body are
      returned unchanged and without an identity. */
  lemma VerifyPropagatesLibraryErrors(url: string, creds: string, client: Option<Client>, env: Env)
    ensures env.newRequest(url).Some? ==>
              Verify(url, creds, client, env) == Failed(RequestError(env.newRequest(url).value))
    ensures env.newRequest(url).None? ==>
              var ex := env.send(if client.None? then DefaultClient else client.value,
                                 Outbound("GET", url, creds));
              && (ex.Unsent? ==> Verify(url, creds, client, env) == Failed(TransportError(ex.detail)))
              && (ex.Responded? && ex.status == StatusOK && ex.body.Unreadable? ==>
                    Verify(url, creds, client, env) == Failed(ReadError(ex.body.detail)))
  {
  }

  /** `Verify` makes exactly one exchange: a GET of the URL carrying the raw
      credential as `Authorization`, through the given client or the default
      one. Two environments that agree on that exchange give the same result. */
  lemma VerifySendsOneRequest(url: string, creds: string, client: Option<Client>, env1: Env, env2: Env)
    requires env1.newRequest(url) == env2.newRequest(url)
    requires var c := if client.None? then DefaultClient else client.value;
             env1.send(c, Outbound("GET", url, creds)) == env2.send(c, Outbound("GET", url, creds))
    ensures Verify(url, creds, client, env1) == Verify(url, creds, client, env2)
  {
  }

  /** A nil client means the package's default client. */
  lemma VerifyNilClientIsDefault(url: string, creds: string, env: Env)
    ensures Verify(url, creds, None, env) == Verify(url, creds, Some(DefaultClient), env)
  {
  }

  /** The successful verification of digits_test.go: a 200 response whose body
      decodes to the sample identity yields that identity and no error. */
  lemma VerifySuccessExample(url: string, client: Option<Client>, env: Env)
    requires env.newRequest(url).None?
    requires env.send(if client.None? then DefaultClient else client.value,
                      Outbound("GET", url, "Dummy")) ==
             Responded(StatusOK, Readable(Decoded(Identity(
               "+331234567890", 716736250749784014, "716736250749784014", "sms",
               "Mon Nov 01 07:34:53 +0000 2016", AccessToken("XXXXXXX-XXXXXXYZ", "XXXXXXXXYZ")))))
    ensures var o := Verify(url, "Dummy", client, env);
            && o.err.None?
            && o.identity.Some?
            && o.identity.value.phoneNumber == "+331234567890"
            && o.identity.value.verificationType == "sms"
            && o.identity.value.idStr == "716736250749784014"
            && o.identity.value.id == 716736250749784014
            && o.identity.value.createdAt == "Mon Nov 01 07:34:53 +0000 2016"
  {
  }

  /** The rejected verification of digits_test.go: a 401 response is an error. */
  lemma VerifyUnauthorizedExample(url: string, client: Option<Client>, env: Env, body: Body)
    requires env.newRequest(url).None?
    requires env.send(if client.None? then DefaultClient else client.value,
                      Outbound("GET", url, "Dummy")) == Responded(401, body)
    ensures Verify(url, "Dummy", client, env).err.Some?
  {
    VerifyRejectsNon200(url, "Dummy", client, env, 401, body);
  }

  // ----------------------------------------------------------- FromRequest

  /** With a static phone number the result is an identity carrying only that
      number, whatever the request and the environment: no header is read, no
      URL parsed, nothing verified. */
  lemma StaticPhoneBypass(dig: Digits, r1: Request, r2: Request, env1: Env, env2: Env)
    requires dig.phoneNumber != ""
    ensures Resolution(dig, r1, env1) == Resolution(dig, r2, env2)
    ensures Resolution(dig, r1, env1) ==
            Succeeded(Identity(dig.phoneNumber, 0, "", "", "", AccessToken("", "")))
  {
  }

  /** A provider claim `url.Parse` rejects yields that error and no identity. */
  lemma UnparsableProviderFails(dig: Digits, r: Request, env: Env)
    requires dig.phoneNumber == ""
    requires env.parseUrl(ProviderOf(dig, r)).Unparsable?
    ensures Resolution(dig, r, env) == Failed(UrlError(env.parseUrl(ProviderOf(dig, r)).detail))
  {
  }

  /** A host that is no whitelist entry is refused with "unauthorized service
      provider", and the network is never consulted: environments that differ
      in everything but the URL parser give the same result. */
  lemma UnlistedHostRejected(dig: Digits, r: Request, env1: Env, env2: Env, host: string)
    requires dig.phoneNumber == ""
    requires env1.parseUrl(ProviderOf(dig, r)) == Parsed(host)
    requires env2.parseUrl(ProviderOf(dig, r)) == Parsed(host)
    requires forall i :: 0 <= i < |dig.whitelist| ==> dig.whitelist[i] != host
    ensures Resolution(dig, r, env1) == Failed(UnauthorizedServiceProvider)
    ensures Resolution(dig, r, env2) == Resolution(dig, r, env1)
    ensures Resolution(dig, r, env1).err.value.Message() == "unauthorized service provider"
  {
  }

  /** A host equal to a whitelist entry leads to exactly what `Verify` returns
      for the raw provider string (not the parsed URL), the credential header
      and the configured client. */
  lemma ListedHostVerifies(dig: Digits, r: Request, env: Env, i: nat)
    requires dig.phoneNumber == ""
    requires i < |dig.whitelist|
    requires env.parseUrl(ProviderOf(dig, r)) == Parsed(dig.whitelist[i])
    ensures Resolution(dig, r, env) == Verify(ProviderOf(dig, r), CredentialsOf(dig, r), dig.client, env)
  {
  }

  /** In an environment where a parsable URL can always be built into a
      request, as in Go, resolution never fails to build the request. */
  lemma CoherentNoRequestError(dig: Digits, r: Request, env: Env)
    requires Coherent(env)
    ensures Resolution(dig, r, env).err.Some? ==> !Resolution(dig, r, env).err.value.RequestError?
  {
    var provider := ProviderOf(dig, r);
    if dig.phoneNumber == "" && env.parseUrl(provider).Parsed? {
      assert env.newRequest(provider).None?;
    }
  }

  /** The default whitelist admits exactly its two hosts. */
  lemma DefaultWhitelistExact(host: string)
    ensures host in DefaultWhitelist <==> host == "api.digits.com" || host == "api.twitter.com"
  {
  }

  /** Matching is exact: a host that carries a port, or an empty host (what a
      missing provider header parses to), is not in the default whitelist. */
  lemma DefaultWhitelistRejectsPortsAndEmpty(host: string)
    requires host == "" || ':' in host
    ensures host !in DefaultWhitelist
  {
  }

  /** A gate built with the default whitelist refuses a request whose
      provider header is missing, when `url.Parse` gives the empty string an
      empty host, as the standard library does. */
  lemma MissingProviderHeaderRejected(dig: Digits, r: Request, env: Env)
    requires dig.phoneNumber == "" && dig.whitelist == DefaultWhitelist
    requires dig.providerHeader !in r.header
    requires env.parseUrl("") == Parsed("")
    ensures Resolution(dig, r, env) == Failed(UnauthorizedServiceProvider)
  {
    DefaultWhitelistRejectsPortsAndEmpty("");
  }

  // ------------------------------------------------------------- ServeHTTP

  /** On an error the configured handler receives the original request and
      that very error, and `next` is not called. */
  lemma ServeErrorCallsHandler(dig: Digits, r: Request, env: Env)
    requires Resolution(dig, r, env).err.Some?
    requires dig.errorHandler.Some?
    ensures ServeHTTP(dig, r, env) ==
            ErrorHandled(dig.errorHandler.value, r, Resolution(dig, r, env).err.value)
  {
  }

  /** On success `next` receives the request with the resolved, non-nil
      identity attached under `Key`, its headers untouched. */
  lemma ServeSuccessCallsNext(dig: Digits, r: Request, env: Env)
    requires Resolution(dig, r, env).err.None?
    ensures Resolution(dig, r, env).identity.Some?
    ensures ServeHTTP(dig, r, env) == NextCalled(Request(r.header, Resolution(dig, r, env).identity))
  {
  }

  /** A body that fails to decode reaches the error handler although `Verify`
      produced an identity. */
  lemma ServeMalformedBodyCallsHandler(dig: Digits, r: Request, env: Env, partial: Identity, detail: string)
    requires dig.phoneNumber == "" && dig.errorHandler.Some?
    requires env.parseUrl(ProviderOf(dig, r)).Parsed?
    requires env.parseUrl(ProviderOf(dig, r)).host in dig.whitelist
    requires env.newRequest(ProviderOf(dig, r)).None?
    requires env.send(if dig.client.None? then DefaultClient else dig.client.value,
                      Outbound("GET", ProviderOf(dig, r), CredentialsOf(dig, r))) ==
             Responded(StatusOK, Readable(Malformed(partial, detail)))
    ensures ServeHTTP(dig, r, env) == ErrorHandled(dig.errorHandler.value, r, DecodeError(detail))
  {
  }

  /** A gate built by `New` never calls a nil error handler. */
  lemma ConfiguredNeverPanics(dig: Digits, r: Request, env: Env)
    requires Configured(dig)
    ensures !ServeHTTP(dig, r, env).NilErrorHandler?
  {
  }
}
