/**
 * The one-shot message waiter: a filter over incoming messages, and `WaitForMessage`, which
 * registers a listener on the bot's `on_message` list, settles its result with the first
 * matching message, calls `on_event` for every matching message, and always unregisters.
 *
 * Time and the event loop are abstracted into a trace of events: a message delivered to the
 * listener, the waiting task being resumed, or the timeout elapsing. A trace that ends before
 * the wait does stands for the waiting task being cancelled.
 */
module EventWaiter {
  import opened Wrappers
  import opened Decimal
  import opened Discord

  /** The filter arguments of `wait_for_message`; `None` and `false` switch a check off. */
  datatype Filter = Filter(
    channel: Option<nat>,
    dmOnly: bool,
    mentionOnly: bool,
    sender: Option<UserId>,
    contentRegex: Option<string>)

  /** The filter that switches every check off. */
  const NoFilter := Filter(None, false, false, None, None)

  /** `_message_matches_filters`: the first failing check rejects the message. */
  predicate MessageMatchesFilters(m: Message, f: Filter, botUser: UserId, search: Search)
    ensures MessageMatchesFilters(m, f, botUser, search) ==>
      (f.channel.None? || m.channelId == f.channel.value) && (f.sender.None? || m.authorId == f.sender.value)
  {
    if f.channel.Some? && m.channelId != f.channel.value then false
    else if f.dmOnly && m.guild.Some? then false
    else if f.mentionOnly && botUser !in m.mentions then false
    else if f.sender.Some? && m.authorId != f.sender.value then false
    else if f.contentRegex.Some? && !search(f.contentRegex.value, m.content) then false
    else true
  }

  /** Each check on its own: it is switched off, or the message passes it. */
  predicate ChannelOk(m: Message, f: Filter) { f.channel.None? || m.channelId == f.channel.value }
  predicate DmOk(m: Message, f: Filter) { !f.dmOnly || m.guild.None? }
  predicate MentionOk(m: Message, f: Filter, botUser: UserId) { !f.mentionOnly || botUser in m.mentions }
  predicate SenderOk(m: Message, f: Filter) { f.sender.None? || m.authorId == f.sender.value }
  predicate RegexOk(m: Message, f: Filter, search: Search) {
    f.contentRegex.None? || search(f.contentRegex.value, m.content)
  }

  /** A message matches exactly when every check that is switched on holds. */
  lemma MatchIffEveryCheckHolds(m: Message, f: Filter, botUser: UserId, search: Search)
    ensures MessageMatchesFilters(m, f, botUser, search)
        <==> ChannelOk(m, f) && DmOk(m, f) && MentionOk(m, f, botUser) && SenderOk(m, f) && RegexOk(m, f, search)
  {
  }

  /** With every check switched off, every message matches. */
  lemma NoFilterMatchesAll(m: Message, botUser: UserId, search: Search)
    ensures MessageMatchesFilters(m, NoFilter, botUser, search)
  {
  }

  /** `narrow` switches on every check `wide` has on, with the same value (and maybe more). */
  predicate Narrows(narrow: Filter, wide: Filter) {
    (wide.channel.Some? ==> narrow.channel == wide.channel)
    && (wide.dmOnly ==> narrow.dmOnly)
    && (wide.mentionOnly ==> narrow.mentionOnly)
    && (wide.sender.Some? ==> narrow.sender == wide.sender)
    && (wide.contentRegex.Some? ==> narrow.contentRegex == wide.contentRegex)
  }

  /** Switching on more checks never lets more messages through. */
  lemma NarrowerMatchesLess(m: Message, narrow: Filter, wide: Filter, botUser: UserId, search: Search)
    requires Narrows(narrow, wide)
    ensures MessageMatchesFilters(m, narrow, botUser, search) ==> MessageMatchesFilters(m, wide, botUser, search)
  {
  }

  /** The dictionary the waiter's future is settled with. */
  datatype Delivered = Delivered(id: string, author: string, content: string, timestamp: string, channelId: string)

  /** The record built from a matching message: ids printed in decimal, the content as it is. */
  function Deliver(m: Message): (r: Delivered)
    ensures IsDecimal(r.id) && Read(r.id) == m.id
    ensures IsDecimal(r.channelId) && Read(r.channelId) == m.channelId
    ensures r.content == m.content && r.author == m.author && r.timestamp == m.stamp
  {
    ReadShow(m.id);
    ReadShow(m.channelId);
    Delivered(Show(m.id), m.author, m.content, m.stamp, Show(m.channelId))
  }

  /** What the waiting task can observe while its listener is registered. */
  datatype Event =
    | Incoming(message: Message)   // the client dispatches `on_message` to the listener
    | Wake                         // the waiting task runs again
    | Elapsed                      // the timeout of `asyncio.wait_for` expires

  predicate IsMatch(e: Event, f: Filter, botUser: UserId, search: Search) {
    e.Incoming? && MessageMatchesFilters(e.message, f, botUser, search)
  }

  /** Every matching message of the trace, in order: the messages `on_event` is called with. */
  function Matched(es: seq<Event>, f: Filter, botUser: UserId, search: Search): (r: seq<Message>)
    ensures |r| <= |es|
  {
    if es == [] then []
    else
      var last := es[|es| - 1];
      Matched(es[..|es| - 1], f, botUser, search) + if IsMatch(last, f, botUser, search) then [last.message] else []
  }

  /** The message the future holds after the trace: set once, by the first match, never replaced. */
  function FirstMatch(es: seq<Event>, f: Filter, botUser: UserId, search: Search): Option<Message> {
    if es == [] then None
    else
      var before := FirstMatch(es[..|es| - 1], f, botUser, search);
      var last := es[|es| - 1];
      if before.Some? then before
      else if IsMatch(last, f, botUser, search) then Some(last.message)
      else None
  }

  /** The wait ends at `e`: the task resumes with a settled future, or the timeout expires. */
  predicate Ends(e: Event, settled: bool, timed: bool) {
    (settled && (e.Wake? || e.Elapsed?)) || (timed && e.Elapsed?)
  }

  datatype WaitOutcome = Received(record: Delivered) | TimedOut | Interrupted

  /** The future is settled by the first of all the matching messages. */
  lemma {:induction false} FirstMatchIsFirstMatched(es: seq<Event>, f: Filter, botUser: UserId, search: Search)
    ensures FirstMatch(es, f, botUser, search)
      == if Matched(es, f, botUser, search) == [] then None else Some(Matched(es, f, botUser, search)[0])
  {
    if es != [] {
      FirstMatchIsFirstMatched(es[..|es| - 1], f, botUser, search);
    }
  }

  /** At most once: once settled, later events, matching or not, leave the result as it is. */
  lemma {:induction false} SettledStaysSettled(es: seq<Event>, more: seq<Event>, f: Filter, botUser: UserId, search: Search)
    requires FirstMatch(es, f, botUser, search).Some?
    ensures FirstMatch(es + more, f, botUser, search) == FirstMatch(es, f, botUser, search)
  {
    if more != [] {
      assert (es + more)[..|es + more| - 1] == es + more[..|more| - 1];
      SettledStaysSettled(es, more[..|more| - 1], f, botUser, search);
    } else {
      assert es + more == es;
    }
  }

  /** Events that do not match leave the future unsettled and call `on_event` with nothing. */
  lemma {:induction false} NonMatchingLeaveUnsettled(es: seq<Event>, f: Filter, botUser: UserId, search: Search)
    requires forall i :: 0 <= i < |es| ==> !IsMatch(es[i], f, botUser, search)
    ensures FirstMatch(es, f, botUser, search) == None
    ensures Matched(es, f, botUser, search) == []
  {
    if es != [] {
      NonMatchingLeaveUnsettled(es[..|es| - 1], f, botUser, search);
    }
  }

  /** `on_event` runs for every match, also for those that arrive after the future is settled. */
  lemma {:induction false} MatchedConcat(es: seq<Event>, more: seq<Event>, f: Filter, botUser: UserId, search: Search)
    ensures Matched(es + more, f, botUser, search) == Matched(es, f, botUser, search) + Matched(more, f, botUser, search)
  {
    if more != [] {
      assert (es + more)[..|es + more| - 1] == es + more[..|more| - 1];
      MatchedConcat(es, more[..|more| - 1], f, botUser, search);
    } else {
      assert es + more == es;
    }
  }

  /** A message is passed to `on_event` exactly when the trace delivers it and it matches. */
  lemma {:induction false} MatchedMembers(es: seq<Event>, m: Message, f: Filter, botUser: UserId, search: Search)
    ensures m in Matched(es, f, botUser, search)
        <==> Incoming(m) in es && MessageMatchesFilters(m, f, botUser, search)
  {
    if es != [] {
      var init := es[..|es| - 1];
      MatchedMembers(init, m, f, botUser, search);
      assert es == init + [es[|es| - 1]];
    }
  }

  /** One more event of the trace, as the listener sees it. */
  lemma Step(events: seq<Event>, k: nat, f: Filter, botUser: UserId, search: Search)
    requires k < |events|
    ensures events[..k + 1][..k] == events[..k]
    ensures FirstMatch(events[..k + 1], f, botUser, search)
      == if FirstMatch(events[..k], f, botUser, search).Some? then FirstMatch(events[..k], f, botUser, search)
         else if IsMatch(events[k], f, botUser, search) then Some(events[k].message) else None
    ensures Matched(events[..k + 1], f, botUser, search)
      == Matched(events[..k], f, botUser, search) + if IsMatch(events[k], f, botUser, search) then [events[k].message] else []
  {
    assert events[..k + 1][..k] == events[..k];
  }

  /**
   * `wait_for_message(client, ...)`. The listener is added before the first event and removed
   * after the last one the wait consumes, whatever way the wait ends, so the registry is as it
   * was. `consumed` counts the events the listener saw; the event at `consumed`, if any, is the
   * one that ended the wait.
   */
  method WaitForMessage(bot: Bot, f: Filter, timeout: Option<real>, onEvent: bool, search: Search, events: seq<Event>)
    returns (outcome: WaitOutcome, notified: seq<Message>, consumed: nat, ghost l: Listener)
    modifies bot`listeners, bot`registryOps
    ensures bot.listeners == old(bot.listeners)
    ensures l !in old(bot.listeners) && bot.registryOps == old(bot.registryOps) + [Added(l), Removed(l)]
    ensures consumed <= |events|
    ensures forall i :: 0 <= i < consumed ==> !Ends(events[i], FirstMatch(events[..i], f, bot.user, search).Some?, timeout.Some?)
    ensures consumed < |events| ==> Ends(events[consumed], FirstMatch(events[..consumed], f, bot.user, search).Some?, timeout.Some?)
    ensures outcome.Interrupted? <==> consumed == |events|
    ensures outcome.Received? <==> consumed < |events| && FirstMatch(events[..consumed], f, bot.user, search).Some?
    ensures outcome.Received? ==> outcome.record == Deliver(FirstMatch(events[..consumed], f, bot.user, search).value)
    ensures notified == if onEvent then Matched(events[..consumed], f, bot.user, search) else []
  {
    var listener := new Listener();
    l := listener;
    bot.AddListener(listener);
    var future;
    future, notified, consumed := Listen(bot.user, f, timeout, onEvent, search, events);
    assert Waiting(events, consumed, f, bot.user, search, timeout.Some?);
    // the `finally` clause
    bot.RemoveListener(listener);
    RemoveAppended(old(bot.listeners), listener);
    if consumed == |events| {
      outcome := Interrupted;
    } else if future.Some? {
      outcome := Received(future.value);
    } else {
      outcome := TimedOut;
    }
  }

  /** The wait has not ended at any of the first `k` events. */
  predicate Waiting(events: seq<Event>, k: nat, f: Filter, botUser: UserId, search: Search, timed: bool) {
    k <= |events|
    && forall i :: 0 <= i < k ==> !Ends(events[i], FirstMatch(events[..i], f, botUser, search).Some?, timed)
  }

  lemma WaitingStep(events: seq<Event>, k: nat, f: Filter, botUser: UserId, search: Search, timed: bool)
    requires Waiting(events, k, f, botUser, search, timed) && k < |events|
    requires !Ends(events[k], FirstMatch(events[..k], f, botUser, search).Some?, timed)
    ensures Waiting(events, k + 1, f, botUser, search, timed)
  {
  }

  /**
   * The listener's callback for one event: a matching message settles the future if it is
   * still open, and goes to `on_event` when one is given.
   */
  method OnMessage(e: Event, f: Filter, botUser: UserId, search: Search, onEvent: bool,
                   future: Option<Delivered>, notified: seq<Message>)
    returns (future': Option<Delivered>, notified': seq<Message>)
    ensures future.Some? ==> future' == future
    ensures future.None? && IsMatch(e, f, botUser, search) ==> future' == Some(Deliver(e.message))
    ensures future.None? && !IsMatch(e, f, botUser, search) ==> future' == None
    ensures notified' == notified + if onEvent && IsMatch(e, f, botUser, search) then [e.message] else []
  {
    future', notified' := future, notified;
    if e.Incoming? && MessageMatchesFilters(e.message, f, botUser, search) {
      if future.None? {
        future' := Some(Deliver(e.message));
      }
      if onEvent {
        notified' := notified + [e.message];
      }
    }
  }

  /**
   * The events as the registered listener and the waiting task see them: each matching message
   * settles the future if it is still open and goes to `on_event`; the wait stops at the first
   * event that ends it, and runs to the end of the trace otherwise.
   */
  method Listen(botUser: UserId, f: Filter, timeout: Option<real>, onEvent: bool, search: Search, events: seq<Event>)
    returns (future: Option<Delivered>, notified: seq<Message>, consumed: nat)
    ensures Waiting(events, consumed, f, botUser, search, timeout.Some?)
    ensures consumed < |events| ==> Ends(events[consumed], future.Some?, timeout.Some?)
    ensures future.Some? <==> FirstMatch(events[..consumed], f, botUser, search).Some?
    ensures future.Some? ==> future.value == Deliver(FirstMatch(events[..consumed], f, botUser, search).value)
    ensures notified == if onEvent then Matched(events[..consumed], f, botUser, search) else []
  {
    future := None;
    notified := [];
    consumed := 0;
    while consumed < |events|
      invariant Waiting(events, consumed, f, botUser, search, timeout.Some?)
      invariant future.Some? <==> FirstMatch(events[..consumed], f, botUser, search).Some?
      invariant future.Some? ==> future.value == Deliver(FirstMatch(events[..consumed], f, botUser, search).value)
      invariant notified == if onEvent then Matched(events[..consumed], f, botUser, search) else []
    {
      var e := events[consumed];
      if Ends(e, future.Some?, timeout.Some?) {
        break;
      }
      WaitingStep(events, consumed, f, botUser, search, timeout.Some?);
      Step(events, consumed, f, botUser, search);
      future, notified := OnMessage(e, f, botUser, search, onEvent, future, notified);
      consumed := consumed + 1;
    }
  }
}
