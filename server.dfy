/**
 * Two branches of the server's tool dispatcher beyond `get_unread_messages`: the
 * `wait_for_message` tool, which parses its arguments and awaits the event waiter, and
 * `set_agent_status`, which records the agent's status on the bot and mirrors it in the bot's
 * Discord presence.
 */
module Server {
  import opened Wrappers
  import opened Decimal
  import opened Text
  import opened Discord
  import opened EventWaiter

  // ---------------------------------------------------------------------------------------
  // `wait_for_message`

  /** The tool's arguments; `None` stands for an absent key. */
  datatype WaitArgs = WaitArgs(
    channelId: Option<string>,
    dmOnly: bool,
    mentionOnly: bool,
    senderId: Option<string>,
    contentRegex: Option<string>,
    timeout: Option<real>)

  /** `int(arguments[key]) if key in arguments and arguments[key] else None`. */
  function OptionalId(s: Option<string>): (r: Result<Option<nat>, Failure>)
    ensures !Truthy(s) ==> r == Ok(None)
    ensures Truthy(s) && IsDecimal(s.value) ==> r == Ok(Some(Read(s.value)))
    ensures Truthy(s) && !IsDecimal(s.value) ==> r == Err(ValueError(s.value))
  {
    if Truthy(s) then
      match ParseInt(s.value)
      case None => Err(ValueError(s.value))
      case Some(n) => Ok(Some(n))
    else Ok(None)
  }

  /**
   * `float(arguments["timeout"]) if "timeout" in arguments and arguments["timeout"] else None`:
   * a timeout of zero is falsy, so it waits without a limit.
   */
  function WaitTimeout(t: Option<real>): (r: Option<real>)
    ensures r.Some? <==> t.Some? && t.value != 0.0
    ensures r.Some? ==> r == t
  {
    if t.Some? && t.value != 0.0 then t else None
  }

  /** The filter the tool hands to the waiter: the channel is parsed first, then the sender. */
  function WaitFilter(args: WaitArgs): (r: Result<Filter, Failure>)
    ensures r.Ok? <==> OptionalId(args.channelId).Ok? && OptionalId(args.senderId).Ok?
    ensures r.Ok? ==>
      r.value.dmOnly == args.dmOnly && r.value.mentionOnly == args.mentionOnly && r.value.contentRegex == args.contentRegex
  {
    match OptionalId(args.channelId)
    case Err(e) => Err(e)
    case Ok(channel) =>
      match OptionalId(args.senderId)
      case Err(e) => Err(e)
      case Ok(sender) => Ok(Filter(channel, args.dmOnly, args.mentionOnly, sender, args.contentRegex))
  }

  /** The arguments a client writes to ask for the filter `f`: ids as decimal strings. */
  function ArgsFor(f: Filter, timeout: Option<real>): WaitArgs {
    WaitArgs(
      if f.channel.Some? then Some(Show(f.channel.value)) else None,
      f.dmOnly,
      f.mentionOnly,
      if f.sender.Some? then Some(Show(f.sender.value)) else None,
      f.contentRegex,
      timeout)
  }

  /** Every filter the waiter understands can be asked for through the tool's arguments. */
  lemma WaitFilterRoundTrip(f: Filter, timeout: Option<real>)
    ensures WaitFilter(ArgsFor(f, timeout)) == Ok(f)
  {
    if f.channel.Some? {
      ParseShow(f.channel.value);
    }
    if f.sender.Some? {
      ParseShow(f.sender.value);
    }
  }

  /** Python's `repr` of a string without quotes, backslashes or control characters. */
  function Quoted(s: string): string {
    "'" + s + "'"
  }

  /** The dictionary after its `'id'` entry. */
  function OtherFields(d: Delivered): string {
    ", 'author': " + Quoted(d.author) + ", 'content': " + Quoted(d.content)
      + ", 'timestamp': " + Quoted(d.timestamp) + ", 'channel_id': " + Quoted(d.channelId) + "}"
  }

  /** A text made of a prefix, a field and a rest shows the field right after the prefix. */
  lemma FieldAfter(p: string, x: string, rest: string)
    requires |rest| > 0
    ensures (p + x + rest)[..|p| + |x|] == p + x && (p + x + rest)[|p| + |x|] == rest[0]
  {
  }

  /**
   * `f"Received message: {msg}"`, with the dictionary in its insertion order. The message id
   * can be read off the text: it stands between the opening quote and the next quote.
   */
  function ReceivedText(d: Delivered): (text: string)
    ensures var p := "Received message: {'id': '";
      |p| + |d.id| < |text| && text[..|p| + |d.id|] == p + d.id && text[|p| + |d.id|] == '\''
  {
    var p := "Received message: {'id': '";
    var rest := "'" + OtherFields(d);
    FieldAfter(p, d.id, rest);
    assert "Received message: {'id': " + Quoted(d.id) + OtherFields(d) == p + d.id + rest;
    p + d.id + rest
  }

  const TimeoutText := "Timeout: No matching message received."

  /** A client can tell the two replies apart by their first word. */
  lemma RepliesDistinguishable(d: Delivered)
    ensures ReceivedText(d) != TimeoutText
    ensures |ReceivedText(d)| > 0 && ReceivedText(d)[0] == 'R' && TimeoutText[0] == 'T'
  {
  }

  /**
   * `call_tool("wait_for_message", arguments)`. A malformed id fails before any listener is
   * registered; otherwise the reply reports the first matching message, or the timeout, and a
   * cancelled wait propagates. The listener registry ends as it started.
   */
  method WaitForMessageTool(bot: Bot, args: WaitArgs, search: Search, events: seq<Event>)
    returns (r: Result<string, Failure>, ghost consumed: nat)
    modifies bot`listeners, bot`registryOps
    ensures bot.listeners == old(bot.listeners)
    ensures consumed <= |events|
    ensures WaitFilter(args).Err? ==> r == Err(WaitFilter(args).error) && bot.registryOps == old(bot.registryOps)
    ensures WaitFilter(args).Ok? ==>
      var f := WaitFilter(args).value;
      var timed := WaitTimeout(args.timeout).Some?;
      var first := FirstMatch(events[..consumed], f, bot.user, search);
      |bot.registryOps| == |old(bot.registryOps)| + 2
      && (forall i :: 0 <= i < consumed ==> !Ends(events[i], FirstMatch(events[..i], f, bot.user, search).Some?, timed))
      && (consumed < |events| ==> Ends(events[consumed], first.Some?, timed))
      && (consumed == |events| ==> r == Err(Cancelled))
      && (consumed < |events| && first.Some? ==> r == Ok(ReceivedText(Deliver(first.value))))
      && (consumed < |events| && first.None? ==> r == Ok(TimeoutText))
  {
    consumed := 0;
    var channel := OptionalId(args.channelId);
    if channel.Err? {
      return Err(channel.error), consumed;
    }
    var sender := OptionalId(args.senderId);
    if sender.Err? {
      return Err(sender.error), consumed;
    }
    var f := Filter(channel.value, args.dmOnly, args.mentionOnly, sender.value, args.contentRegex);
    var timeout := WaitTimeout(args.timeout);
    var outcome, _, n, _ := WaitForMessage(bot, f, timeout, false, search, events);
    consumed := n;
    match outcome
    case Received(record) => r := Ok(ReceivedText(record));
    case TimedOut => r := Ok(TimeoutText);
    case Interrupted => r := Err(Cancelled);
  }

  // ---------------------------------------------------------------------------------------
  // `set_agent_status`

  /** The activity shown when no details are given. */
  function DefaultActivity(status: string): (a: string)
    ensures |a| > 0 || status == ""
  {
    if status == "available" || status == "waiting" then "Ready for tasks"
    else if status == "working" then "Working"
    else if status == "offline" then "Offline"
    else Capitalize(status)
  }

  /**
   * The presence for a stored (lower-cased) status: invisible exactly when the agent is
   * offline, and showing the details whenever they are non-empty.
   */
  function PresenceFor(status: string, details: Option<string>): (p: Presence)
    ensures p.status == Invisible <==> status == "offline"
    ensures Truthy(details) ==> p.activity == details.value
    ensures !Truthy(details) ==> p.activity == DefaultActivity(status)
  {
    Presence(
      if status == "offline" then Invisible else Online,
      if Truthy(details) then details.value else DefaultActivity(status))
  }

  /** `f"Agent status set to '{status}'{' with details: ' + details if details else ''}."` */
  function StatusReply(status: string, details: Option<string>): (reply: string)
    ensures var quoted := "Agent status set to '" + status + "'";
      |quoted| < |reply| && reply[..|quoted|] == quoted && reply[|reply| - 1] == '.'
    ensures !Truthy(details) ==> reply == "Agent status set to '" + status + "'."
  {
    "Agent status set to '" + status + "'" + (if Truthy(details) then " with details: " + details.value else "") + "."
  }

  /**
   * `call_tool("set_agent_status", arguments)`: store the lower-cased status and the details as
   * given, and switch the presence to match.
   */
  method SetAgentStatus(bot: Bot, status: string, details: Option<string>) returns (reply: string)
    modifies bot`agentStatus, bot`presence
    ensures bot.agentStatus == AgentStatus(Lower(status), details)
    ensures bot.presence == Some(PresenceFor(Lower(status), details))
    ensures reply == StatusReply(Lower(status), details)
  {
    var s := Lower(status);
    bot.agentStatus := AgentStatus(s, details);
    var activity: string;
    var discordStatus: PresenceStatus;
    if s == "available" || s == "waiting" {
      activity := if Truthy(details) then details.value else "Ready for tasks";
      discordStatus := Online;
    } else if s == "working" {
      activity := if Truthy(details) then details.value else "Working";
      discordStatus := Online;
    } else if s == "offline" {
      activity := if Truthy(details) then details.value else "Offline";
      discordStatus := Invisible;
    } else {
      activity := if Truthy(details) then details.value else Capitalize(s);
      discordStatus := Online;
    }
    bot.presence := Some(Presence(discordStatus, activity));
    reply := StatusReply(s, details);
  }

  /** The status is matched without regard to case: "OFFLINE" hides the bot like "offline". */
  lemma OfflineAnyCase(status: string, details: Option<string>)
    requires |status| == 7 && forall i :: 0 <= i < 7 ==> LowerChar(status[i]) == "offline"[i]
    ensures PresenceFor(Lower(status), details).status == Invisible
  {
    assert Lower(status) == "offline";
  }
}
