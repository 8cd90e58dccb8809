/** The HTTP handlers that share the table with the forwarders
    (src/bin/kwp/route): receive, poll, clear, delete, pause, resume and manual retry. */
module Routes {
  import opened Wrappers
  import opened Sets
  import opened Configuration
  import opened Requests
  import opened Schedules
  import opened Statuses
  import opened Backoff
  import opened Webhooks
  import opened Protocol
  import opened Invariant
  import opened Guarantees
  import opened Process
  import opened RetryAfter
  import opened Forwarding

  function ErrorStatus(error: RepositoryError): (status: int)
    ensures status in {503, 500} && (status == 503 <==> error == Busy)
  {
    match error
    case Busy => SERVICE_UNAVAILABLE
    case Other => INTERNAL_SERVER_ERROR
  }

  /** Storing a webhook adds one row, with a new id, no failures and due at once, and is
      answered 200; or it changes nothing and is answered 503 or 500. */
  ghost predicate Stores(before: Table, after: Table, status: int, id: nat, content: Content) {
    if status == 200 then before.highWater < id && after == Insert(before, id, content)
    else status in {503, 500} && after == before
  }

  /** Stores a webhook that passed every check. */
  method StoreWebhook(shared: Shared, content: Content) returns (status: int, ghost id: nat)
    requires shared.Valid()
    modifies shared, shared.db
    ensures shared.Valid()
    ensures Stores(old(shared.db.View()), shared.db.View(), status, id, content)
    ensures shared.trace == if status == 200 then old(shared.trace) + [Receive(id, content)] else old(shared.trace)
  {
    ghost var before := shared.db.View();
    var stored := shared.db.InsertWebhook(content);
    if stored.Failure? {
      return ErrorStatus(stored.error), 0;
    }
    id := stored.value;
    shared.TakeStored(Receive(id, content), before);
    status := OK;
  }

  /** A destructive poll returns what it deletes and deletes what it returns. */
  method ReadWebhooks(shared: Shared, channel: string) returns (status: int, items: map<nat, Row>)
    requires shared.Valid()
    modifies shared, shared.db
    ensures shared.Valid()
    ensures status in {200, 503, 500}
    ensures status == 200 ==>
              && IsOldestBatch(old(shared.db.View()), channel, 1000, items.Keys)
              && (forall id :: id in items ==> id in old(shared.db.rows) && items[id] == old(shared.db.rows)[id])
              && shared.db.rows == old(shared.db.rows) - items.Keys
              && shared.trace == old(shared.trace) + [Poll(channel, items.Keys)]
    ensures forall taken :: status == 200 && taken in items ==>
              && items[taken].content.channel == channel
              && forall left :: left in shared.db.rows && shared.db.rows[left].content.channel == channel ==>
                   items[taken].content.receivedAt <= shared.db.rows[left].content.receivedAt
    ensures status != 200 ==>
              items == map[] && shared.db.View() == old(shared.db.View()) && shared.trace == old(shared.trace)
  {
    ghost var before := shared.db.View();
    var read := shared.db.ReadAndDeleteByChannel(channel, READ_LIMIT);
    if read.Failure? {
      return ErrorStatus(read.error), map[];
    }
    shared.TakeStored(Poll(channel, read.value.Keys), before);
    return OK, read.value;
  }

  method ClearQueue(shared: Shared, channel: string) returns (status: int)
    requires shared.Valid()
    modifies shared, shared.db
    ensures shared.Valid()
    ensures status in {204, 503, 500}
    ensures status == 204 ==>
              && (forall id :: id in shared.db.rows <==>
                    id in old(shared.db.rows) && old(shared.db.rows)[id].content.channel != channel)
              && (forall id :: id in shared.db.rows ==> shared.db.rows[id] == old(shared.db.rows)[id])
              && shared.trace == old(shared.trace) + [Clear(channel)]
    ensures status != 204 ==> shared.db.View() == old(shared.db.View()) && shared.trace == old(shared.trace)
  {
    ghost var before := shared.db.View();
    var cleared := shared.db.ClearByChannel(channel);
    if cleared.Failure? {
      return ErrorStatus(cleared.error);
    }
    shared.TakeStored(Clear(channel), before);
    shared.UpdateStatus(channel, (st: ChannelForwardStatus) => st.(queueSize := 0));
    return NO_CONTENT;
  }

  /** The route checks the channel of the token, but the statement deletes by id alone. */
  method DeleteWebhook(shared: Shared, id: nat) returns (status: int)
    requires shared.Valid()
    modifies shared, shared.db
    ensures shared.Valid()
    ensures status in {204, 503, 500}
    ensures status == 204 ==>
              shared.db.rows == old(shared.db.rows) - {id} && shared.trace == old(shared.trace) + [Discard(id)]
    ensures status != 204 ==> shared.db.View() == old(shared.db.View()) && shared.trace == old(shared.trace)
  {
    ghost var before := shared.db.View();
    var deleted := shared.db.DeleteById(id);
    if deleted.Failure? {
      return ErrorStatus(deleted.error);
    }
    shared.TakeStored(Discard(id), before);
    return NO_CONTENT;
  }

  /** `paused = true` or `false`, for the channels that have a forwarder. */
  method SetPaused(shared: Shared, channel: string, paused: bool) returns (status: int)
    requires shared.Valid()
    modifies shared
    ensures shared.Valid()
    ensures status == if channel in shared.cfg then 204 else 400
    ensures status == 204 ==>
              shared.model.paused == if paused then old(shared.model).paused + {channel}
                  else old(shared.model).paused - {channel}
    ensures status == 204 ==>
              shared.trace == old(shared.trace) + [if paused then Pause(channel) else Resume(channel)]
    ensures status != 204 ==> shared.statuses == old(shared.statuses) && shared.trace == old(shared.trace)
  {
    if channel !in shared.statuses {
      return BAD_REQUEST;
    }
    shared.statuses := shared.statuses[channel := shared.statuses[channel].(paused := paused)];
    shared.Take(if paused then Pause(channel) else Resume(channel));
    return NO_CONTENT;
  }

  // ---- manual retry ----

  /** What the steps of one manual retry share. */
  datatype RetryContext = RetryContext(
    channel: ChannelConfig, forward: ForwardConfig, backoff: SafeBackoff, ignored: set<string>, crypto: Crypto)
  {
    predicate Meets(answer: Answer) {
      answer.Response? && answer.status == forward.expectedStatus
    }

    /** What the protocol knows of the channel is what this retry is configured with. */
    ghost predicate Agrees(cfg: Config) {
      channel.name in cfg && cfg[channel.name] == TargetOf(forward.expectedStatus, backoff)
    }
  }

  /** The steps of a manual retry that has loaded a webhook of this body: a delivery is
      deleted, any other answer recorded as a failure; or nothing is sent, exactly if the
      body cannot be signed. */
  ghost predicate IsRetry(ctx: RetryContext, who: Actor, id: nat, body: Bytes, steps: seq<Action>, status: int) {
    && who.Retry?
    && if ctx.forward.signHeader.Some? && IsUnsignable(ctx.crypto, ctx.channel, ctx.forward, body) then
         steps == [Load(who.task, id), Abandon(who)] && status == 500
       else
         && |steps| == 3 && status == 200
         && steps[0] == Load(who.task, id) && steps[1].Respond? && steps[1].who == who
         && if IsDelivery(steps[1].answer, ctx.forward.expectedStatus) then steps[2].Forget? && steps[2].who == who
            else steps[2].Park? && steps[2].who == who
                 && exists text :: IsWholeMessage(steps[1].message, steps[1].answer, text)
  }

  /** The message holds the whole text of the answer. */
  predicate IsWholeMessage(message: string, answer: Answer, text: string) {
    match answer
    case NetworkError => message == "network error: " + text
    case Response(status, _) => message == "HTTP " + Decimal(status) + ": " + text
  }

  twostate predicate Took(shared: Shared, who: Actor, steps: seq<Action>)
    reads shared
  {
    old(shared.trace) <= shared.trace && Own(shared.trace, who) == Own(old(shared.trace), who) + steps
  }

  /** `find_forward_target`. */
  function ForwardTarget(app: AppConfig, channel: string): Result<(ChannelConfig, ForwardConfig), int> {
    var found := FindChannelByName(app.channels, channel);
    if found.None? then Failure(NOT_FOUND)
    else if found.value.forward.None? then Failure(BAD_REQUEST)
    else Success((found.value, found.value.forward.value))
  }

  /** `load_webhook_to_retry`: a webhook of another channel is not found. */
  method LoadWebhookToRetry(shared: Shared, channel: string, id: nat) returns (r: Result<Row, int>)
    ensures r.Success? ==> id in shared.db.rows && r.value == shared.db.rows[id] && r.value.content.channel == channel
    ensures r.Failure? ==> r.error in {404, 503, 500}
    ensures r == Failure(404) ==> id !in shared.db.rows || shared.db.rows[id].content.channel != channel
  {
    var loaded := shared.db.GetById(id);
    if loaded.Failure? {
      return Failure(ErrorStatus(loaded.error));
    }
    if loaded.value.None? || loaded.value.value.content.channel != channel {
      return Failure(NOT_FOUND);
    }
    return Success(loaded.value.value);
  }

  /** `retry_webhook_route`, once the caller is authorized: it takes no step, or the steps of
      a retry of the very webhook under the id. */
  method RetryWebhook(shared: Shared, app: AppConfig, crypto: Crypto, channel: string, id: nat)
    returns (status: int, ghost who: Actor, ghost steps: seq<Action>, ghost loadedFor: Option<RetryContext>)
    requires shared.Valid() && Serves(shared.cfg, app)
    modifies shared, shared.db
    ensures shared.Valid() && Took(shared, who, steps)
    ensures loadedFor.None? ==>
              steps == [] && status in {404, 400, 503, 500}
    ensures loadedFor.Some? ==>
              var ctx := loadedFor.value;
              && FindChannelByName(app.channels, channel) == Some(ctx.channel)
              && ctx.channel.forward == Some(ctx.forward) && ctx.crypto == crypto
              && IsScheduleOf(ctx.backoff, ctx.forward, app.forwardBackoff)
              && (forall name :: name in ctx.ignored <==> name in app.ignoredHeaders)
              && id in old(shared.db.rows) && old(shared.db.rows)[id].content.channel == channel
              && IsRetry(ctx, who, id, old(shared.db.rows)[id].content.payload, steps, status)
    ensures var found := FindChannelByName(app.channels, channel);
            && (found.None? ==> status == 404 && loadedFor.None?)
            && (found.Some? && found.value.forward.None? ==> status == 400 && loadedFor.None?)
  {
    ghost var task := FreshNumber(shared.model.started.Keys);
    who, steps := Retry(task), [];
    loadedFor := None;
    assert Own(shared.trace, who) == Own(shared.trace, who) + [];
    var target := ForwardTarget(app, channel);
    if target.Failure? {
      status := target.error;
      return;
    }
    FindsTheFirst(app.channels, channel);
    assert channel in shared.cfg;
    var ctx := RetryContext(target.value.0, target.value.1, Resolve(target.value.1, app.forwardBackoff),
                            Ignored(app), crypto);
    ResolveIsExact(ctx.forward, app.forwardBackoff, ctx.backoff);
    var loaded := LoadWebhookToRetry(shared, channel, id);
    if loaded.Failure? {
      status := loaded.error;
      return;
    }
    loadedFor := Some(ctx);
    status, steps := LoadAndSend(shared, ctx, id, loaded.value, task);
  }

  method LoadAndSend(shared: Shared, ctx: RetryContext, id: nat, webhook: Row, ghost task: nat)
    returns (status: int, ghost steps: seq<Action>)
    requires shared.Valid() && ctx.Agrees(shared.cfg) && webhook.content.channel == ctx.channel.name
    requires task !in shared.model.started && id in shared.db.rows && shared.db.rows[id] == webhook
    modifies shared, shared.db
    ensures shared.Valid() && Took(shared, Retry(task), steps)
    ensures IsRetry(ctx, Retry(task), id, webhook.content.payload, steps, status)
  {
    ghost var before := Own(shared.trace, Retry(task));
    ghost var load := Load(task, id);
    shared.TakeQuiet(load);
    assert Own(shared.trace, Retry(task)) == before + [load];
    ghost var rest;
    status, rest := SendByHand(shared, ctx, id, webhook, task);
    steps := [load] + rest;
    assert before + [load] + rest == before + steps;
  }

  method SendByHand(shared: Shared, ctx: RetryContext, id: nat, webhook: Row, ghost task: nat)
    returns (status: int, ghost steps: seq<Action>)
    requires shared.Valid() && ctx.Agrees(shared.cfg) && webhook.content.channel == ctx.channel.name
    requires InFlight(shared.model, Retry(task)) && FlightOf(shared.model, Retry(task)) == Sending(id, webhook)
    modifies shared, shared.db
    ensures shared.Valid() && Took(shared, Retry(task), steps)
    ensures IsRetry(ctx, Retry(task), id, webhook.content.payload, [Load(task, id)] + steps, status)
  {
    ghost var who := Retry(task);
    var request := RetryRequest(webhook.content, ctx.channel, ctx.forward, ctx.ignored, ctx.crypto);
    if request.Failure? {
      shared.TakeQuiet(Abandon(who));
      return request.error, [Abandon(who)];
    }
    shared.Await(who);
    var reply := SendRequest(request.value, webhook.content, ctx.channel, ctx.forward, ctx.ignored, ctx.crypto);
    if ctx.Meets(reply.answer) {
      steps := OnAccepted(shared, ctx, id, webhook, reply.answer, task);
    } else {
      ghost var unit: real;
      var message := FailureMessage(reply.answer, reply.text);
      steps, unit := RecordRetryFailure(shared, ctx, id, webhook, reply.answer, message, task);
      assert IsWholeMessage(message, reply.answer, reply.text);
    }
    status := OK;
  }

  method OnAccepted(shared: Shared, ctx: RetryContext, id: nat, ghost webhook: Row, ghost answer: Answer,
                    ghost task: nat)
    returns (ghost steps: seq<Action>)
    requires shared.Valid() && ctx.Agrees(shared.cfg) && webhook.content.channel == ctx.channel.name
    requires InFlight(shared.model, Retry(task)) && FlightOf(shared.model, Retry(task)) == Sending(id, webhook)
    requires ctx.Meets(answer)
    modifies shared, shared.db
    ensures shared.Valid() && Took(shared, Retry(task), steps)
    ensures |steps| == 2 && steps[0].Respond? && steps[0].who == Retry(task) && steps[0].answer == answer
    ensures steps[1].Forget? && steps[1].who == Retry(task)
  {
    ghost var response := Respond(Retry(task), answer, 0.0, "");
    shared.TakeQuiet(response);
    ghost var forget := ForgetDelivered(shared, ctx.channel.name, id, task);
    steps := [response, forget];
  }

  method ForgetDelivered(shared: Shared, channel: string, id: nat, ghost task: nat) returns (ghost forget: Action)
    requires shared.Valid() && InFlight(shared.model, Retry(task))
    requires FlightOf(shared.model, Retry(task)).Delivered? && FlightOf(shared.model, Retry(task)).id == id
    modifies shared, shared.db
    ensures shared.Valid() && forget.Forget? && forget.who == Retry(task)
    ensures Took(shared, Retry(task), [forget])
    ensures forget.ok ==> id !in shared.db.rows
    ensures channel in shared.statuses ==> shared.statuses[channel].lastSuccessAt == Some(shared.clock)
  {
    shared.Await(Retry(task));
    ghost var before := shared.db.View();
    var removed := shared.db.DeleteById(id);
    forget := Forget(Retry(task), removed.Success?);
    shared.TakeStored(forget, before);
    var now := shared.clock;
    shared.UpdateStatus(channel, (st: ChannelForwardStatus) =>
      st.(lastSuccessAt := Some(now), queueSize := if st.queueSize > 1 then st.queueSize - 1 else 0));
  }

  /** The same schedule as the forwarder's, from the attempt count that was loaded. */
  method RecordRetryFailure(shared: Shared, ctx: RetryContext, id: nat, webhook: Row, answer: Answer, message: string,
                            ghost task: nat)
    returns (ghost steps: seq<Action>, ghost unit: real)
    requires shared.Valid() && ctx.Agrees(shared.cfg) && webhook.content.channel == ctx.channel.name
    requires InFlight(shared.model, Retry(task)) && FlightOf(shared.model, Retry(task)) == Sending(id, webhook)
    requires !ctx.Meets(answer)
    modifies shared, shared.db
    ensures shared.Valid() && Took(shared, Retry(task), steps)
    ensures |steps| == 2 && steps[0] == Respond(Retry(task), answer, unit, message)
    ensures steps[1].Park? && steps[1].who == Retry(task)
    ensures steps[1].ok && id in shared.db.rows ==>
              var delay := WholeDelay(ctx.backoff, KindOf(answer), webhook.attempts + 1, RequestedDelay(answer), unit);
              IsParked(shared.db.rows[id], DueAt(old(shared.clock), delay), message)
    ensures steps[1].ok && id in shared.db.rows && old(shared.clock) + ctx.backoff.max < TWO_TO_63 ==>
              && shared.db.rows[id].nextAt.Some?
              && IsDueAfter(ctx.backoff, answer, webhook.attempts + 1, old(shared.clock),
                            shared.db.rows[id].nextAt.value)
    ensures ctx.channel.name in shared.statuses ==>
              ShowsFailure(shared.statuses[ctx.channel.name], shared.clock, message)
  {
    var jitter: real := *;
    var delay := WholeDelay(ctx.backoff, KindOf(answer), webhook.attempts + 1, RequestedDelay(answer), jitter);
    var nextAt := DueAt(shared.clock, delay);
    unit := jitter;
    if shared.clock + ctx.backoff.max < TWO_TO_63 {
      DueByAnswer(ctx.backoff, answer, webhook.attempts + 1, jitter, shared.clock);
    }
    steps := StoreRetryRefusal(shared, ctx, id, webhook, answer, unit, nextAt, message, task);
    ShowFailure(shared, ctx.channel.name, message);
  }

  method StoreRetryRefusal(shared: Shared, ghost ctx: RetryContext, id: nat, ghost webhook: Row, ghost answer: Answer,
                           ghost unit: real, nextAt: int, message: string, ghost task: nat)
    returns (ghost steps: seq<Action>)
    requires shared.Valid() && ctx.Agrees(shared.cfg) && webhook.content.channel == ctx.channel.name
    requires InFlight(shared.model, Retry(task)) && FlightOf(shared.model, Retry(task)) == Sending(id, webhook)
    requires !ctx.Meets(answer)
    requires nextAt == DueAt(shared.clock, DelayOf(shared.cfg[ctx.channel.name], webhook, answer, unit))
    modifies shared, shared.db
    ensures shared.Valid() && Took(shared, Retry(task), steps)
    ensures |steps| == 2 && steps[0] == Respond(Retry(task), answer, unit, message)
    ensures steps[1].Park? && steps[1].who == Retry(task)
    ensures steps[1].ok && id in shared.db.rows ==> IsParked(shared.db.rows[id], nextAt, message)
  {
    var at := shared.clock;
    ghost var response := Respond(Retry(task), answer, unit, message);
    shared.TakeQuiet(response);
    ghost var park := StoreRetryFailure(shared, id, at, message, nextAt, webhook, task);
    steps := [response, park];
  }

  method StoreRetryFailure(shared: Shared, id: nat, at: int, message: string, nextAt: int, ghost webhook: Row,
                           ghost task: nat)
    returns (ghost park: Action)
    requires shared.Valid() && at == shared.clock && InFlight(shared.model, Retry(task))
    requires FlightOf(shared.model, Retry(task)) == Refused(id, webhook, at, nextAt, message)
    modifies shared, shared.db
    ensures shared.Valid() && Took(shared, Retry(task), [park])
    ensures park.Park? && park.who == Retry(task)
    ensures park.ok && id in shared.db.rows ==> IsParked(shared.db.rows[id], nextAt, message)
  {
    shared.Await(Retry(task));
    ghost var before := shared.db.View();
    var recorded := shared.db.RecordForwardFailure(id, at, message, nextAt);
    park := Park(Retry(task), recorded.Success?, at);
    shared.TakeParked(park, before);
  }

  // ---- what the code inherits ----

  /** The guarantees of the protocol hold of the real table: whatever the code did, every
      webhook it answered 200 is in a row with the content it was received with, or one
      step of the run took it out, and the counters are those of the recorded failures. */
  lemma {:induction false} CodeConservesWebhooks(shared: Shared, id: nat, content: Content)
    requires shared.Valid() && Bounded(shared.cfg) && Receive(id, content) in shared.trace
    ensures shared.model.received.Keys >= {id} && shared.model.received[id] == content
    ensures id in shared.db.rows ==>
              && shared.db.rows[id].content == content
              && RowInv(shared.cfg, shared.db.rows[id], shared.model.recorded[id], shared.clock)
    ensures id !in shared.db.rows ==>
              id in shared.model.gone && Explained(shared.model, shared.trace, id)
  {
    var s := Initial(shared.cfg, shared.start);
    var i :| 0 <= i < |shared.trace| && shared.trace[i] == Receive(id, content);
    Conservation(shared.cfg, shared.start, shared.trace, id);
    RowsKeepTheirShape(shared.cfg, shared.start, shared.trace, id);
    InitialInv(shared.cfg, shared.start);
    var j :| 0 <= j < |shared.trace| && shared.trace[j] == Receive(id, shared.model.received[id]);
    if i < j {
      IdsAreNeverReused(shared.cfg, s, shared.trace, i, j);
    } else if j < i {
      IdsAreNeverReused(shared.cfg, s, shared.trace, j, i);
    }
  }

  /** And every delivery by the code is accounted for: per webhook at most one by the
      forwarder beyond its failed deletes and the restarts, and one per manual retry. */
  lemma {:induction false} CodeBoundsDuplicates(shared: Shared, id: nat)
    requires shared.Valid() && Bounded(shared.cfg)
    ensures shared.model.forwarded[id] + |AcceptedRetriesOf(shared.model, id)|
         <= 1 + shared.model.failedDeletes[id] + shared.model.restarts + |RetriesOf(shared.model, id)|
  {
    DuplicateBound(shared.cfg, shared.start, shared.trace, id);
  }
}
