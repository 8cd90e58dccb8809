/** The request that carries a webhook to its target. The forwarder
    (src/bin/kwp/background/forward.rs) and the manual retry (src/bin/kwp/route/queue.rs)
    each build it with code of their own; both meet one specification. */
module Requests {
  import opened Wrappers
  import opened Configuration
  import opened Headers
  import opened Statuses
  import opened Webhooks

  type Header = (string, string)

  datatype Request = Request(url: string, timeout: nat, headers: seq<Header>, body: Bytes) {
    /** `RequestBuilder::header` appends. */
    function WithHeader(name: string, value: string): Request {
      this.(headers := headers + [(name, value)])
    }
  }

  /** HMAC-SHA256 in hexadecimal and the template engine. */
  datatype Crypto = Crypto(hmac: (string, Bytes) -> string,
                           renderSign: (string, string) -> Result<string, string>,
                           renderExtract: (string, string) -> Result<string, string>)

  datatype SigningError = NoSecret | TemplateFailed

  const CONTENT_TYPE: Header := ("content-type", "application/json")

  // ---- the specification ----

  /** The value the signature header has to carry for a body. */
  function Signature(crypto: Crypto, ch: ChannelConfig, fwd: ForwardConfig, body: Bytes): Result<string, SigningError> {
    var secret := EffectiveSecret(ch, fwd);
    if secret.None? then Failure(NoSecret)
    else
      var hex := crypto.hmac(secret.value, body);
      if fwd.signTemplate.None? then Success(hex)
      else
        match crypto.renderSign(fwd.signTemplate.value, hex)
        case Success(value) => Success(value)
        case Failure(_) => Failure(TemplateFailed)
  }

  /** A stored header travels on unless it is ignored or is the one to be signed anew. */
  predicate Travels(name: string, ignored: set<string>, fwd: ForwardConfig) {
    name !in ignored && !(fwd.signHeader.Some? && EqIgnoreCase(fwd.signHeader.value, name))
  }

  function Copied(headers: map<string, string>, names: set<string>, ignored: set<string>,
                  fwd: ForwardConfig): set<Header>
    requires names <= headers.Keys
  {
    set name | name in names && Travels(name, ignored, fwd) :: (name, headers[name])
  }

  /** The request that is to be sent for a webhook; the order of its headers is free. */
  ghost predicate IsForwardOf(r: Request, webhook: Content, ch: ChannelConfig, fwd: ForwardConfig,
                              ignored: set<string>, crypto: Crypto)
  {
    && r.body == webhook.payload && r.url == fwd.url && r.timeout == fwd.timeoutSeconds
    && (fwd.signHeader.Some? ==> Signature(crypto, ch, fwd, r.body).Success?)
    && multiset(r.headers)
       == multiset{CONTENT_TYPE} + multiset(Copied(webhook.headers, webhook.headers.Keys, ignored, fwd))
          + if fwd.signHeader.Some? then multiset{(fwd.signHeader.value, Signature(crypto, ch, fwd, r.body).value)}
            else multiset{}
  }

  // ---- what a signature is ----

  /** The header value for a hexadecimal signature: its rendering by the template, if there
      is one. */
  predicate IsRendering(crypto: Crypto, fwd: ForwardConfig, hex: string, value: string) {
    match fwd.signTemplate
    case None => value == hex
    case Some(template) => crypto.renderSign(template, hex) == Success(value)
  }

  /** The body is signed with the sign secret, whatever the webhook secret is, and with the
      webhook secret if there is no other. */
  predicate IsSigned(crypto: Crypto, ch: ChannelConfig, fwd: ForwardConfig, body: Bytes, value: string) {
    match (fwd.signSecret, ch.webhookSecret)
    case (Some(sign), _) => IsRendering(crypto, fwd, crypto.hmac(sign, body), value)
    case (None, Some(webhook)) => IsRendering(crypto, fwd, crypto.hmac(webhook, body), value)
    case (None, None) => false
  }

  /** Both secrets are absent, or the template cannot render the signature. */
  predicate IsUnsignable(crypto: Crypto, ch: ChannelConfig, fwd: ForwardConfig, body: Bytes) {
    match (fwd.signSecret, ch.webhookSecret)
    case (Some(sign), _) =>
      fwd.signTemplate.Some? && crypto.renderSign(fwd.signTemplate.value, crypto.hmac(sign, body)).Failure?
    case (None, Some(webhook)) =>
      fwd.signTemplate.Some? && crypto.renderSign(fwd.signTemplate.value, crypto.hmac(webhook, body)).Failure?
    case (None, None) => true
  }

  /** A channel that signs and can carries the signature. */
  ghost predicate CarriesSignature(r: Request, crypto: Crypto, ch: ChannelConfig, fwd: ForwardConfig, body: Bytes) {
    fwd.signHeader.Some? ==>
      exists value :: IsSigned(crypto, ch, fwd, body, value) && (fwd.signHeader.value, value) in r.headers
  }

  lemma {:induction false} SignatureIsExact(crypto: Crypto, ch: ChannelConfig, fwd: ForwardConfig, body: Bytes,
                                            value: string)
    ensures Signature(crypto, ch, fwd, body) == Success(value) <==> IsSigned(crypto, ch, fwd, body, value)
    ensures Signature(crypto, ch, fwd, body).Failure? <==> IsUnsignable(crypto, ch, fwd, body)
  {
  }

  // ---- the two builders ----

  /** The request so far: the content type and what was copied under these names. */
  ghost predicate HasCopied(r: Request, webhook: Content, names: set<string>, ignored: set<string>, fwd: ForwardConfig)
    requires names <= webhook.headers.Keys
  {
    && r.url == fwd.url && r.timeout == fwd.timeoutSeconds && r.body == webhook.payload
    && multiset(r.headers) == multiset{CONTENT_TYPE} + multiset(Copied(webhook.headers, names, ignored, fwd))
  }

  lemma {:induction false} CopiesNext(r: Request, webhook: Content, names: set<string>, name: string,
                                      ignored: set<string>, fwd: ForwardConfig)
    requires names <= webhook.headers.Keys && name in webhook.headers && name !in names
    requires HasCopied(r, webhook, names, ignored, fwd)
    ensures HasCopied(if Travels(name, ignored, fwd) then r.WithHeader(name, webhook.headers[name]) else r,
                    webhook, names + {name}, ignored, fwd)
  {
    var before, header := Copied(webhook.headers, names, ignored, fwd), (name, webhook.headers[name]);
    assert header !in before;
    if Travels(name, ignored, fwd) {
      assert Copied(webhook.headers, names + {name}, ignored, fwd) == before + {header};
      assert multiset(r.headers + [header]) == multiset(r.headers) + multiset{header};
    } else {
      assert Copied(webhook.headers, names + {name}, ignored, fwd) == before;
    }
  }

  lemma {:induction false} CompletesUnsigned(r: Request, webhook: Content, ch: ChannelConfig, fwd: ForwardConfig,
                                             ignored: set<string>, crypto: Crypto)
    requires HasCopied(r, webhook, webhook.headers.Keys, ignored, fwd) && fwd.signHeader.None?
    ensures IsForwardOf(r, webhook, ch, fwd, ignored, crypto)
    ensures CarriesSignature(r, crypto, ch, fwd, webhook.payload)
  {
  }

  lemma {:induction false} CompletesSigned(r: Request, webhook: Content, ch: ChannelConfig, fwd: ForwardConfig,
                                           ignored: set<string>, crypto: Crypto, value: string)
    requires HasCopied(r, webhook, webhook.headers.Keys, ignored, fwd) && fwd.signHeader.Some?
    requires IsSigned(crypto, ch, fwd, webhook.payload, value)
    ensures IsForwardOf(r.WithHeader(fwd.signHeader.value, value), webhook, ch, fwd, ignored, crypto)
    ensures CarriesSignature(r.WithHeader(fwd.signHeader.value, value), crypto, ch, fwd, webhook.payload)
    ensures !IsUnsignable(crypto, ch, fwd, webhook.payload)
  {
    SignatureIsExact(crypto, ch, fwd, webhook.payload, value);
  }

  /** The forwarder's `build_request`. */
  method ForwarderRequest(webhook: Content, ch: ChannelConfig, fwd: ForwardConfig, ignored: set<string>, crypto: Crypto)
    returns (r: Option<Request>)
    ensures r.Some? ==> IsForwardOf(r.value, webhook, ch, fwd, ignored, crypto)
    ensures r.Some? ==> CarriesSignature(r.value, crypto, ch, fwd, webhook.payload)
    ensures r.None? <==> fwd.signHeader.Some? && IsUnsignable(crypto, ch, fwd, webhook.payload)
  {
    var request := Request(fwd.url, fwd.timeoutSeconds, [CONTENT_TYPE], webhook.payload);
    var left := webhook.headers.Keys;
    ghost var all := left;
    assert all - left == {};
    while left != {}
      invariant left <= all == webhook.headers.Keys
      invariant HasCopied(request, webhook, all - left, ignored, fwd)
    {
      var key :| key in left;
      CopiesNext(request, webhook, all - left, key, ignored, fwd);
      assert all - (left - {key}) == (all - left) + {key};
      left := left - {key};
      if key in ignored {
        continue;
      }
      if fwd.signHeader.Some? && EqIgnoreCase(fwd.signHeader.value, key) {
        continue;
      }
      request := request.WithHeader(key, webhook.headers[key]);
    }
    assert all - {} == all;
    if fwd.signHeader.None? {
      CompletesUnsigned(request, webhook, ch, fwd, ignored, crypto);
      return Some(request);
    }
    var headerValue := ForwarderSignature(webhook.payload, ch, fwd, crypto);
    if headerValue.None? {
      return None;
    }
    CompletesSigned(request, webhook, ch, fwd, ignored, crypto, headerValue.value);
    return Some(request.WithHeader(fwd.signHeader.value, headerValue.value));
  }

  /** The end of the forwarder's `build_request`. */
  method ForwarderSignature(payload: Bytes, ch: ChannelConfig, fwd: ForwardConfig, crypto: Crypto)
    returns (r: Option<string>)
    ensures r.Some? ==> IsSigned(crypto, ch, fwd, payload, r.value)
    ensures r.None? <==> IsUnsignable(crypto, ch, fwd, payload)
  {
    var effectiveSecret := if fwd.signSecret.Some? then fwd.signSecret else ch.webhookSecret;
    if effectiveSecret.None? {
      return None;
    }
    var signature := crypto.hmac(effectiveSecret.value, payload);
    if fwd.signTemplate.None? {
      return Some(signature);
    }
    var rendered := crypto.renderSign(fwd.signTemplate.value, signature);
    match rendered
    case Success(value) => return Some(value);
    case Failure(_) => return None;
  }

  /** `sign`: the manual retry's signature, or the answer to the operator. */
  method Sign(payload: Bytes, ch: ChannelConfig, fwd: ForwardConfig, crypto: Crypto) returns (r: Result<string, int>)
    ensures r.Success? ==> IsSigned(crypto, ch, fwd, payload, r.value)
    ensures r.Failure? ==> r.error == 500
    ensures r.Failure? <==> IsUnsignable(crypto, ch, fwd, payload)
  {
    var effectiveSecret := if fwd.signSecret.Some? then fwd.signSecret else ch.webhookSecret;
    if effectiveSecret.None? {
      return Failure(INTERNAL_SERVER_ERROR);
    }
    var sig := crypto.hmac(effectiveSecret.value, payload);
    if fwd.signTemplate.None? {
      return Success(sig);
    }
    var rendered := crypto.renderSign(fwd.signTemplate.value, sig);
    match rendered
    case Success(value) => return Success(value);
    case Failure(_) => return Failure(INTERNAL_SERVER_ERROR);
  }

  /** The manual retry's `build_request`. */
  method RetryRequest(webhook: Content, ch: ChannelConfig, fwd: ForwardConfig, ignored: set<string>, crypto: Crypto)
    returns (r: Result<Request, int>)
    ensures r.Success? ==> IsForwardOf(r.value, webhook, ch, fwd, ignored, crypto)
    ensures r.Success? ==> CarriesSignature(r.value, crypto, ch, fwd, webhook.payload)
    ensures r.Failure? ==> r.error == 500
    ensures r.Failure? <==> fwd.signHeader.Some? && IsUnsignable(crypto, ch, fwd, webhook.payload)
  {
    var request := Request(fwd.url, fwd.timeoutSeconds, [CONTENT_TYPE], webhook.payload);
    var left := webhook.headers.Keys;
    ghost var all := left;
    assert all - left == {};
    while left != {}
      invariant left <= all == webhook.headers.Keys
      invariant HasCopied(request, webhook, all - left, ignored, fwd)
    {
      var key :| key in left;
      CopiesNext(request, webhook, all - left, key, ignored, fwd);
      assert all - (left - {key}) == (all - left) + {key};
      left := left - {key};
      if key in ignored {
        continue;
      }
      if fwd.signHeader.Some? && EqIgnoreCase(fwd.signHeader.value, key) {
        continue;
      }
      request := request.WithHeader(key, webhook.headers[key]);
    }
    assert all - {} == all;
    if fwd.signHeader.None? {
      CompletesUnsigned(request, webhook, ch, fwd, ignored, crypto);
      return Success(request);
    }
    var headerValue :- Sign(webhook.payload, ch, fwd, crypto);
    CompletesSigned(request, webhook, ch, fwd, ignored, crypto, headerValue);
    return Success(request.WithHeader(fwd.signHeader.value, headerValue));
  }

  // ---- what the target sees ----

  /** For a validated channel neither builder ever lacks a secret: they fail only if the
      template does. */
  lemma {:induction false} SecretIsNeverMissing(channels: seq<ChannelConfig>, compiles: string -> bool, i: nat,
                                                body: Bytes, crypto: Crypto)
    requires ValidateTemplates(channels, compiles).Success? && i < |channels|
    requires channels[i].forward.Some? && channels[i].forward.value.signHeader.Some?
    ensures Signature(crypto, channels[i], channels[i].forward.value, body) != Failure(NoSecret)
    ensures channels[i].forward.value.signTemplate.None? ==>
        Signature(crypto, channels[i], channels[i].forward.value, body).Success?
  {
    TemplateValidationIsExact(channels, compiles);
    assert IsServable(channels[i], compiles);
  }

  /** The header is in the request to sign it. */
  predicate Signs(h: Header, body: Bytes, ch: ChannelConfig, fwd: ForwardConfig, crypto: Crypto) {
    fwd.signHeader == Some(h.0) && IsSigned(crypto, ch, fwd, body, h.1)
  }

  /** The header was stored with the webhook, is not ignored, and is not to be signed anew. */
  predicate WasStored(h: Header, webhook: Content, ignored: set<string>, fwd: ForwardConfig) {
    && h.0 in webhook.headers && webhook.headers[h.0] == h.1 && h.0 !in ignored
    && (fwd.signHeader.Some? ==> !EqIgnoreCase(fwd.signHeader.value, h.0))
  }

  /** The request holds a header as often as there are reasons for it. */
  lemma {:induction false} Occurrences(r: Request, webhook: Content, ch: ChannelConfig, fwd: ForwardConfig,
                                       ignored: set<string>, crypto: Crypto, h: Header)
    requires IsForwardOf(r, webhook, ch, fwd, ignored, crypto)
    ensures multiset(r.headers)[h]
         == (if h == ("content-type", "application/json") then 1 else 0)
            + (if WasStored(h, webhook, ignored, fwd) then 1 else 0)
            + (if Signs(h, webhook.payload, ch, fwd, crypto) then 1 else 0)
  {
    var copied := Copied(webhook.headers, webhook.headers.Keys, ignored, fwd);
    assert h in copied <==> WasStored(h, webhook, ignored, fwd);
    SignatureIsExact(crypto, ch, fwd, webhook.payload, h.1);
  }

  /** The target gets every stored header that is to travel and nothing without a reason:
      the fixed content type, a stored header that is not ignored, or the signature. */
  lemma {:induction false} TargetSees(r: Request, webhook: Content, ch: ChannelConfig, fwd: ForwardConfig,
                                      ignored: set<string>, crypto: Crypto, h: Header)
    requires IsForwardOf(r, webhook, ch, fwd, ignored, crypto)
    ensures r.body == webhook.payload && r.url == fwd.url && r.timeout == fwd.timeoutSeconds
    ensures h in r.headers <==>
              || h == ("content-type", "application/json")
              || WasStored(h, webhook, ignored, fwd)
              || Signs(h, webhook.payload, ch, fwd, crypto)
  {
    Occurrences(r, webhook, ch, fwd, ignored, crypto, h);
    assert h in r.headers <==> multiset(r.headers)[h] > 0;
  }

  /** The signature over the body that is sent is there exactly once, and nothing else under
      its name, unless the channel is configured to sign in the content type. */
  lemma {:induction false} SignatureStandsAloneIff(r: Request, webhook: Content, ch: ChannelConfig, fwd: ForwardConfig,
                                                   ignored: set<string>, crypto: Crypto, signature: Header)
    requires IsForwardOf(r, webhook, ch, fwd, ignored, crypto) && Signs(signature, r.body, ch, fwd, crypto)
    ensures signature in r.headers
    ensures && multiset(r.headers)[signature] == 1
            && (forall h :: h in r.headers && EqIgnoreCase(h.0, signature.0) ==> h == signature)
            <==> !EqIgnoreCase(signature.0, "content-type")
  {
    Occurrences(r, webhook, ch, fwd, ignored, crypto, signature);
    TargetSees(r, webhook, ch, fwd, ignored, crypto, signature);
    TargetSees(r, webhook, ch, fwd, ignored, crypto, CONTENT_TYPE);
    SignatureIsExact(crypto, ch, fwd, r.body, signature.1);
    forall h | h in r.headers && EqIgnoreCase(h.0, signature.0) ensures h == signature || h == CONTENT_TYPE {
      TargetSees(r, webhook, ch, fwd, ignored, crypto, h);
      SignatureIsExact(crypto, ch, fwd, r.body, h.1);
    }
  }

  /** Both builders send the same request, up to the order of its headers, or both none. */
  method BuildBoth(webhook: Content, ch: ChannelConfig, fwd: ForwardConfig, ignored: set<string>, crypto: Crypto)
    returns (forwarded: Option<Request>, retried: Result<Request, int>)
    ensures forwarded.Some? <==> retried.Success?
    ensures forwarded.Some? ==>
              && forwarded.value.(headers := []) == retried.value.(headers := [])
              && multiset(forwarded.value.headers) == multiset(retried.value.headers)
  {
    forwarded := ForwarderRequest(webhook, ch, fwd, ignored, crypto);
    retried := RetryRequest(webhook, ch, fwd, ignored, crypto);
  }

  // ---- from the sender to the target ----

  /** Between the two ends nothing gets lost or added: what a target gets are the received
      body and the received headers that are text, not ignored, not the signature's and not
      replaced by a later one of their name, besides the content type and the signature. */
  lemma {:induction false} ReceivedIsForwarded(r: Request, webhook: Content, headers: HeaderMap, body: Bytes,
                                               ch: ChannelConfig, fwd: ForwardConfig, ignored: set<string>,
                                               crypto: Crypto, h: Header)
    requires IsForwardOf(r, webhook, ch, fwd, ignored, crypto)
    requires webhook.payload == body && forall name, value :: Stored(webhook, name, value) <==>
               name !in ignored && IsKept(headers, name, value)
    ensures r.body == body
    ensures h in r.headers <==>
              || h == ("content-type", "application/json")
              || (IsKept(headers, h.0, h.1) && h.0 !in ignored
                  && (fwd.signHeader.Some? ==> !EqIgnoreCase(fwd.signHeader.value, h.0)))
              || Signs(h, body, ch, fwd, crypto)
  {
    TargetSees(r, webhook, ch, fwd, ignored, crypto, h);
    assert Stored(webhook, h.0, h.1) <==> h.0 !in ignored && IsKept(headers, h.0, h.1);
  }

  predicate Stored(webhook: Content, name: string, value: string) {
    name in webhook.headers && webhook.headers[name] == value
  }

  /** No stored header is an ignored one in another spelling. */
  lemma {:induction false} NoIgnoredHeaderTravels(headers: HeaderMap, ignored: set<string>, h: Header, other: string)
    requires forall name :: name in ignored ==> Lower(name) == name
    requires h.0 in StoredHeaders(headers, ignored) && other in ignored
    ensures !EqIgnoreCase(h.0, other)
  {
    StoredNames(headers, ignored, h.0);
  }
}
