/** The producer (src/bin/kwp/route/receive_webhook.rs): every check a webhook has to pass
    before it is stored, in the order the route makes them. */
module Receive {
  import opened Wrappers
  import opened Configuration
  import opened Headers
  import opened Requests
  import opened Webhooks
  import opened Protocol
  import opened Process
  import opened Routes
  import opened Statuses

  const DEFAULT_EXTRACT_TEMPLATE: string := "{{ raw }}"

  /** A request as it arrives: the channel in its path, its headers and its body; `covers`
      says which entries of an allow list match the client, `isJson` whether the body parses. */
  datatype Incoming = Incoming(channel: string, headers: HeaderMap, body: Bytes, covers: string -> bool, isJson: bool)

  /** The refusal that is answered with a status. */
  type Gate = Result<(), int>

  // ---- the checks ----

  function VerifyHmacSecret(ch: ChannelConfig, secret: string, provided: Option<string>, body: Bytes,
                            crypto: Crypto): Result<bool, int>
  {
    if provided.None? then Failure(UNAUTHORIZED)
    else
      match crypto.renderExtract(GetOr(ch.secretExtractTemplate, DEFAULT_EXTRACT_TEMPLATE), provided.value)
      case Failure(_) => Failure(INTERNAL_SERVER_ERROR)
      case Success(expected) => Success(EqIgnoreCase(expected, crypto.hmac(secret, body)))
  }

  function VerifySecret(ch: ChannelConfig, incoming: Incoming, crypto: Crypto): Gate {
    if ch.webhookSecret.None? || ch.secretHeader.None? then Success(())
    else
      var provided := Get(incoming.headers, ch.secretHeader.value);
      var verified :- match ch.secretType
        case Plain => Success(provided == ch.webhookSecret)
        case HmacSha256 => VerifyHmacSecret(ch, ch.webhookSecret.value, provided, incoming.body, crypto);
      if verified then Success(()) else Failure(UNAUTHORIZED)
  }

  predicate IsJsonType(headers: HeaderMap) {
    "application/json" <= GetOr(Get(headers, "content-type"), "")
  }

  function ValidateBody(app: AppConfig, ch: ChannelConfig, incoming: Incoming): Gate {
    if |incoming.body| > EffectiveLimit(ch, app.defaultBodyLimit) then Failure(PAYLOAD_TOO_LARGE)
    else if !IsJsonType(incoming.headers) then Failure(UNSUPPORTED_MEDIA_TYPE)
    else if !incoming.isJson then Failure(UNPROCESSABLE_ENTITY)
    else Success(())
  }

  /** All the gates of the route, in order. */
  function Admit(app: AppConfig, incoming: Incoming, crypto: Crypto): Gate {
    var ch := FindChannelByName(app.channels, incoming.channel);
    if ch.None? then Failure(NOT_FOUND)
    else if !IsIpAllowed(ch.value, incoming.covers) then Failure(FORBIDDEN)
    else
      var _ :- VerifySecret(ch.value, incoming, crypto);
      ValidateBody(app, ch.value, incoming)
  }

  // ---- what passing them means ----

  /** The sender has shown that it knows the secret of the channel: it repeats it, or it
      signed this very body with it. */
  predicate KnowsSecret(ch: ChannelConfig, incoming: Incoming, crypto: Crypto)
    requires ch.webhookSecret.Some? && ch.secretHeader.Some?
  {
    var provided := Get(incoming.headers, ch.secretHeader.value);
    && provided.Some?
    && match ch.secretType
       case Plain => provided.value == ch.webhookSecret.value
       case HmacSha256 =>
         var signature := crypto.renderExtract(GetOr(ch.secretExtractTemplate, DEFAULT_EXTRACT_TEMPLATE),
             provided.value);
         signature.Success? && EqIgnoreCase(signature.value, crypto.hmac(ch.webhookSecret.value, incoming.body))
  }

  /** A channel without a secret, or without a header to read it from, is open. */
  predicate Authentic(ch: ChannelConfig, incoming: Incoming, crypto: Crypto) {
    ch.webhookSecret.Some? && ch.secretHeader.Some? ==> KnowsSecret(ch, incoming, crypto)
  }

  /** The header of the channel's signature reads as this one. */
  predicate Presents(ch: ChannelConfig, incoming: Incoming, crypto: Crypto, provided: string, signature: string)
    requires ch.secretHeader.Some?
  {
    && Shows(incoming.headers, ch.secretHeader.value, provided)
    && Extracted(ch, crypto, provided) == Success(signature)
  }

  function Extracted(ch: ChannelConfig, crypto: Crypto, provided: string): Result<string, string> {
    match ch.secretExtractTemplate
    case Some(template) => crypto.renderExtract(template, provided)
    case None => crypto.renderExtract("{{ raw }}", provided)
  }

  /** Without a secret or a header to read it from everybody passes. Otherwise the first
      header of that name has to be the secret itself, or, by way of the template, the
      signature of this very body, in either case of its letters. 401 means that the secret is
      missing or wrong, 500 that the template could not read the header. */
  lemma {:induction false} VerifySecretIsExact(ch: ChannelConfig, incoming: Incoming, crypto: Crypto)
    ensures var verdict := VerifySecret(ch, incoming, crypto);
            && (verdict.Success? <==> Authentic(ch, incoming, crypto))
            && (verdict.Failure? ==> verdict.error in {401, 500})
            && (ch.webhookSecret.None? || ch.secretHeader.None? ==> verdict == Success(()))
            && (ch.webhookSecret.Some? && ch.secretHeader.Some? ==>
                  match ch.secretType
                  case Plain =>
                    && (verdict.Success? <==> Shows(incoming.headers, ch.secretHeader.value, ch.webhookSecret.value))
                    && verdict != Failure(500)
                  case HmacSha256 =>
                    && (verdict.Success? <==>
                          exists provided, signature :: Presents(ch, incoming, crypto, provided, signature)
                            && EqIgnoreCase(signature, crypto.hmac(ch.webhookSecret.value, incoming.body)))
                    && (verdict == Failure(500) <==>
                          exists provided :: Shows(incoming.headers, ch.secretHeader.value, provided)
                            && Extracted(ch, crypto, provided).Failure?))
  {
    if ch.webhookSecret.Some? && ch.secretHeader.Some? {
      var name := ch.secretHeader.value;
      forall value ensures Get(incoming.headers, name) == Some(value) <==> Shows(incoming.headers, name, value) {
        GetIsExact(incoming.headers, name, value);
      }
      var provided := Get(incoming.headers, name);
      if ch.secretType.HmacSha256? && provided.Some? && Extracted(ch, crypto, provided.value).Success? {
        assert Presents(ch, incoming, crypto, provided.value, Extracted(ch, crypto, provided.value).value);
      }
    }
  }

  // ---- the gates in order ----

  /** The client is on the channel's list, if it has one. */
  predicate AllowsClient(ch: ChannelConfig, covers: string -> bool) {
    match ch.allowedIps
    case None => true
    case Some(entries) => exists entry :: entry in entries && covers(entry)
  }

  /** The body is no larger than the channel's own limit, or the default if it has none. */
  predicate Fits(ch: ChannelConfig, default: nat, body: Bytes) {
    match ch.maxBodySize
    case Some(own) => |body| <= own
    case None => |body| <= default
  }

  /** The first content type starts with that of JSON. */
  ghost predicate DeclaresJson(headers: HeaderMap) {
    exists value :: Shows(headers, "content-type", value) && "application/json" <= value
  }

  lemma {:induction false} JsonTypeIsExact(headers: HeaderMap)
    ensures IsJsonType(headers) <==> DeclaresJson(headers)
  {
    var found := Get(headers, "content-type");
    assert IsJsonType(headers) <==> found.Some? && "application/json" <= found.value;
    if found.Some? {
      GetIsExact(headers, "content-type", found.value);
    }
    forall value | Shows(headers, "content-type", value) ensures found == Some(value) {
      GetIsExact(headers, "content-type", value);
    }
  }

  lemma {:induction false} ClientsAreExact(ch: ChannelConfig, covers: string -> bool)
    ensures IsIpAllowed(ch, covers) <==> AllowsClient(ch, covers)
  {
  }

  /** Each refusal of a body names the first check that fails. */
  lemma {:induction false} ValidateBodyIsExact(app: AppConfig, ch: ChannelConfig, incoming: Incoming)
    ensures var fits, declared := Fits(ch, app.defaultBodyLimit, incoming.body), DeclaresJson(incoming.headers);
            ValidateBody(app, ch, incoming)
            == if !fits then Failure(413)
               else if !declared then Failure(415)
               else if !incoming.isJson then Failure(422)
               else Success(())
  {
    JsonTypeIsExact(incoming.headers);
  }

  /** A webhook is admitted exactly if its channel exists and allows the client, the sender
      knows the channel's secret where there is one to check, and the body is small enough,
      declared as JSON and JSON. Each refusal names the first of these that fails, and the
      limit in front of all routes stops nothing that would be admitted. */
  lemma {:induction false} AdmitIsExact(app: AppConfig, incoming: Incoming, crypto: Crypto)
    ensures Admit(app, incoming, crypto) == Failure(404) <==>
              forall i :: 0 <= i < |app.channels| ==> app.channels[i].name != incoming.channel
    ensures var verdict, found := Admit(app, incoming, crypto), FindChannelByName(app.channels, incoming.channel);
            found.Some? ==>
              var ch := found.value;
              && ch.name == incoming.channel
              && if !AllowsClient(ch, incoming.covers) then verdict == Failure(403)
                 else if !Authentic(ch, incoming, crypto) then verdict in {Failure(401), Failure(500)}
                 else if !Fits(ch, app.defaultBodyLimit, incoming.body) then verdict == Failure(413)
                 else if !DeclaresJson(incoming.headers) then verdict == Failure(415)
                 else if !incoming.isJson then verdict == Failure(422)
                 else verdict == Success(()) && |incoming.body| <= MaxBodyLimit(app)
  {
    var found := FindChannelByName(app.channels, incoming.channel);
    FindsTheFirst(app.channels, incoming.channel);
    if found.Some? {
      ClientsAreExact(found.value, incoming.covers);
      VerifySecretIsExact(found.value, incoming, crypto);
      ValidateBodyIsExact(app, found.value, incoming);
      if Fits(found.value, app.defaultBodyLimit, incoming.body) {
        FitsMaxBodyLimit(app, found.value, incoming.body);
      }
    }
  }

  lemma {:induction false} FitsMaxBodyLimit(app: AppConfig, ch: ChannelConfig, body: Bytes)
    requires ch in app.channels && Fits(ch, app.defaultBodyLimit, body)
    ensures |body| <= MaxBodyLimit(app)
  {
    MaxBodyLimitIsExact(app, |body|);
  }

  /** On a validated configuration nothing reaches an HMAC channel without a signature of
      its own body under the channel's secret. */
  lemma {:induction false} HmacChannelsAuthenticate(app: AppConfig, compiles: string -> bool, incoming: Incoming,
                                                    crypto: Crypto)
    requires ValidateTemplates(app.channels, compiles).Success?
    requires Admit(app, incoming, crypto).Success?
    requires FindChannelByName(app.channels, incoming.channel).value.secretType == HmacSha256
    ensures var ch := FindChannelByName(app.channels, incoming.channel).value;
            && ch.webhookSecret.Some? && ch.secretHeader.Some?
            && exists provided, signature :: Presents(ch, incoming, crypto, provided, signature)
                 && EqIgnoreCase(signature, crypto.hmac(ch.webhookSecret.value, incoming.body))
  {
    FindsTheFirst(app.channels, incoming.channel);
    var ch := FindChannelByName(app.channels, incoming.channel).value;
    var i :| 0 <= i < |app.channels| && ch == app.channels[i];
    TemplateValidationIsExact(app.channels, compiles);
    assert IsServable(app.channels[i], compiles);
    AdmitIsExact(app, incoming, crypto);
    VerifySecretIsExact(ch, incoming, crypto);
  }

  lemma {:induction false} RefusalIsNoSuccess(app: AppConfig, incoming: Incoming, crypto: Crypto)
    ensures Admit(app, incoming, crypto).Failure? ==> Admit(app, incoming, crypto).error !in {200, 503}
  {
    var found := FindChannelByName(app.channels, incoming.channel);
    if found.Some? {
      VerifySecretIsExact(found.value, incoming, crypto);
      ValidateBodyIsExact(app, found.value, incoming);
    }
  }

  // ---- the route ----

  /** What is stored of an admitted webhook. */
  function Kept(app: AppConfig, incoming: Incoming, now: int): Content {
    Content(incoming.channel, StoredHeaders(incoming.headers, Ignored(app)), incoming.body, now)
  }

  /** The content holds the body as it came, the time, and of the headers, under lower-case
      names, the last text value of each that is not ignored. */
  ghost predicate HoldsRequest(content: Content, app: AppConfig, incoming: Incoming, now: int) {
    && content.channel == incoming.channel && content.payload == incoming.body && content.receivedAt == now
    && forall name, value :: Stored(content, name, value) <==>
         name !in app.ignoredHeaders && IsKept(incoming.headers, name, value)
  }

  lemma {:induction false} KeptHoldsRequest(app: AppConfig, incoming: Incoming, now: int)
    ensures HoldsRequest(Kept(app, incoming, now), app, incoming, now)
  {
    forall name, value
      ensures Stored(Kept(app, incoming, now), name, value) <==>
          name !in app.ignoredHeaders && IsKept(incoming.headers, name, value)
    {
      StoredHeadersAreExact(incoming.headers, Ignored(app), name, value);
    }
  }

  /** A fresh row: never tried, and due at once. */
  predicate IsFresh(row: Row) {
    row.attempts == 0 && row.nextAt.None? && row.lastAt.None? && row.lastError.None?
  }

  lemma {:induction false} InsertAddsOne(t: Table, id: nat, content: Content)
    ensures var t' := Insert(t, id, content);
            && t'.highWater == id && id in t'.rows && t'.rows[id].content == content && IsFresh(t'.rows[id])
            && t'.rows - {id} == t.rows - {id}
  {
  }

  /** The table has got one row, for this request, and nothing else has changed. */
  ghost predicate AddsRow(before: Table, after: Table, id: nat, app: AppConfig, incoming: Incoming, now: int) {
    && before.highWater < id == after.highWater
    && id in after.rows && after.rows - {id} == before.rows - {id}
    && HoldsRequest(after.rows[id].content, app, incoming, now) && IsFresh(after.rows[id])
  }

  /** `receive_webhook_route`: 200 exactly when the webhook was admitted and one row with
      its body and headers was added; every other answer leaves the table as it was. */
  method ReceiveWebhook(shared: Shared, app: AppConfig, incoming: Incoming, crypto: Crypto)
    returns (status: int, ghost id: nat)
    requires shared.Valid()
    modifies shared, shared.db
    ensures shared.Valid()
    ensures Admit(app, incoming, crypto).Failure? ==> status == Admit(app, incoming, crypto).error
    ensures Admit(app, incoming, crypto).Success? ==> status in {200, 503, 500}
    ensures status == 200 ==>
              && Admit(app, incoming, crypto).Success?
              && AddsRow(old(shared.db.View()), shared.db.View(), id, app, incoming, old(shared.clock))
              && shared.trace == old(shared.trace) + [Protocol.Receive(id, shared.db.rows[id].content)]
    ensures status != 200 ==> shared.db.View() == old(shared.db.View()) && shared.trace == old(shared.trace)
    ensures status == 503 ==> Admit(app, incoming, crypto).Success?
  {
    var admitted := Admit(app, incoming, crypto);
    if admitted.Failure? {
      RefusalIsNoSuccess(app, incoming, crypto);
      return admitted.error, 0;
    }
    var content := Kept(app, incoming, shared.clock);
    KeptHoldsRequest(app, incoming, shared.clock);
    status, id := StoreWebhook(shared, content);
    if status == OK {
      InsertAddsOne(old(shared.db.View()), id, content);
    }
  }

  /** The webhook's body reaches the target as it was received, with the headers that are
      kept and travel, as long as the row holds what was received (`CodeConservesWebhooks`). */
  lemma {:induction false} ForwardsWhatItReceived(shared: Shared, app: AppConfig, incoming: Incoming, now: int, id: nat,
                                                  content: Content, r: Request, ch: ChannelConfig, fwd: ForwardConfig,
                                                  crypto: Crypto, h: Header)
    requires shared.Valid() && Bounded(shared.cfg) && Protocol.Receive(id, content) in shared.trace
    requires HoldsRequest(content, app, incoming, now) && id in shared.db.rows
    requires IsForwardOf(r, shared.db.rows[id].content, ch, fwd, Ignored(app), crypto)
    ensures r.body == incoming.body
    ensures h in r.headers <==>
              || h == ("content-type", "application/json")
              || (IsKept(incoming.headers, h.0, h.1) && h.0 !in app.ignoredHeaders
                  && (fwd.signHeader.Some? ==> !EqIgnoreCase(fwd.signHeader.value, h.0)))
              || Signs(h, incoming.body, ch, fwd, crypto)
  {
    CodeConservesWebhooks(shared, id, content);
    ReceivedIsForwarded(r, content, incoming.headers, incoming.body, ch, fwd, Ignored(app), crypto, h);
  }
}
