/**
 * The part of the Discord client that the core relies on: message snapshots, a channel's
 * history ordered by snowflake id, the history fetch (`channel.history(...)`), and the bot
 * object itself, which carries the `on_message` listener registry, the bot's own user, its
 * presence and the `agent_status` record the server keeps on it.
 */
module Discord {
  import opened Wrappers

  type UserId = nat

  /**
   * A message as the core sees it. `author` is `str(message.author)`, `stamp` is
   * `message.created_at.isoformat()` and `createdAt` is the instant it names, as a number.
   */
  datatype Message = Message(
    id: nat,
    channelId: nat,
    authorId: UserId,
    author: string,
    content: string,
    createdAt: nat,
    stamp: string,
    guild: Option<nat>,
    mentions: seq<UserId>)

  datatype Channel = Channel(id: nat, messages: seq<Message>)

  /** Snowflake ids grow strictly along the sequence. */
  predicate IdsIncreasing(ms: seq<Message>) {
    forall i, j :: 0 <= i < j < |ms| ==> ms[i].id < ms[j].id
  }

  /** A channel's history: oldest first, ids strictly increasing, creation times never decreasing. */
  predicate ValidChannel(ch: Channel) {
    IdsIncreasing(ch.messages)
    && (forall i, j :: 0 <= i < j < |ch.messages| ==> ch.messages[i].createdAt <= ch.messages[j].createdAt)
    && (forall i :: 0 <= i < |ch.messages| ==> ch.messages[i].channelId == ch.id)
  }

  /** `re.search(pattern, text) is not None`; the regular-expression engine is a parameter of the model. */
  type Search = (string, string) -> bool

  /** The failures that propagate out of a tool call. */
  datatype Failure =
    | ValueError(text: string)   // `int(...)` of a malformed number
    | NotFound(id: nat)          // `fetch_channel` of an unknown channel
    | Cancelled                  // the awaiting task was cancelled

  function Min(a: int, b: int): int {
    if a <= b then a else b
  }

  /** How many messages a fetch with this `limit` may return: none for a limit below one. */
  function Room(limit: int, available: nat): (k: nat)
    ensures k <= available && k <= if limit < 0 then 0 else limit
  {
    if limit <= 0 then 0 else Min(limit, available)
  }

  /** The messages of `ms` whose id is greater than `after`, in their order. */
  function After(ms: seq<Message>, after: nat): (r: seq<Message>)
    ensures |r| <= |ms|
    ensures forall i :: 0 <= i < |r| ==> r[i].id > after
  {
    if ms == [] then []
    else (if ms[0].id > after then [ms[0]] else []) + After(ms[1..], after)
  }

  /** The index of the first message whose id is greater than `after`. */
  function FirstAfter(ms: seq<Message>, after: nat): (k: nat)
    ensures k <= |ms|
  {
    if ms == [] || ms[0].id > after then 0 else 1 + FirstAfter(ms[1..], after)
  }

  /**
   * `channel.history(limit=limit, after=Object(after), oldest_first=True)`: the first
   * `limit` messages newer than `after`, oldest first.
   */
  function HistoryAfter(ch: Channel, after: nat, limit: int): (page: seq<Message>)
    ensures |page| <= Room(limit, |ch.messages|)
    ensures forall i :: 0 <= i < |page| ==> page[i].id > after
  {
    var newer := After(ch.messages, after);
    newer[..Room(limit, |newer|)]
  }

  /** `channel.history(limit=limit)`: the newest `limit` messages, newest first. */
  function HistoryLatest(ch: Channel, limit: int): (page: seq<Message>)
    ensures |page| == Room(limit, |ch.messages|)
    ensures forall i :: 0 <= i < |page| ==> page[i] == ch.messages[|ch.messages| - 1 - i]
  {
    var k := Room(limit, |ch.messages|);
    Reversed(ch.messages[|ch.messages| - k..])
  }

  function Reversed<T>(s: seq<T>): (r: seq<T>)
    ensures |r| == |s|
    ensures forall i :: 0 <= i < |s| ==> r[i] == s[|s| - 1 - i]
  {
    if s == [] then [] else Reversed(s[1..]) + [s[0]]
  }

  /** Every message before the first one newer than `after` is not newer than `after`. */
  lemma {:induction false} NotNewerBeforeFirstAfter(ms: seq<Message>, after: nat)
    ensures forall i :: 0 <= i < FirstAfter(ms, after) ==> ms[i].id <= after
  {
    if ms != [] && ms[0].id <= after {
      NotNewerBeforeFirstAfter(ms[1..], after);
      forall i | 0 <= i < FirstAfter(ms, after) ensures ms[i].id <= after {
        if i > 0 {
          assert ms[i] == ms[1..][i - 1];
        }
      }
    }
  }

  /**
   * On a history ordered by id, the messages newer than `after` are the suffix that starts at
   * the first such message: the fetch skips nothing in between.
   */
  lemma {:induction false} AfterIsSuffix(ms: seq<Message>, after: nat)
    requires IdsIncreasing(ms)
    ensures After(ms, after) == ms[FirstAfter(ms, after)..]
    ensures forall i :: 0 <= i < FirstAfter(ms, after) ==> ms[i].id <= after
  {
    NotNewerBeforeFirstAfter(ms, after);
    if ms != [] {
      var rest := ms[1..];
      IncreasingTail(ms);
      AfterIsSuffix(rest, after);
      var k := FirstAfter(rest, after);
      if ms[0].id > after {
        if rest != [] {
          assert rest[0].id > after;
        }
        assert k == 0;
        assert After(ms, after) == [ms[0]] + rest;
        assert [ms[0]] + rest == ms;
      } else {
        assert After(ms, after) == After(rest, after);
        assert rest[k..] == ms[1 + k..];
      }
    }
  }

  /** On a history ordered by id, the first message newer than the one at `p` is the next one. */
  lemma {:induction false} FirstAfterNext(ms: seq<Message>, p: nat)
    requires IdsIncreasing(ms) && p < |ms|
    ensures FirstAfter(ms, ms[p].id) == p + 1
  {
    var x := ms[p].id;
    IncreasingTail(ms);
    if p == 0 {
      if |ms| > 1 {
        assert ms[1..][0].id > x;
      }
    } else {
      assert ms[1..][p - 1] == ms[p];
      FirstAfterNext(ms[1..], p - 1);
    }
  }

  lemma IncreasingTail(ms: seq<Message>)
    requires ms != [] && IdsIncreasing(ms)
    ensures IdsIncreasing(ms[1..])
    ensures forall i :: 0 <= i < |ms| - 1 ==> ms[0].id < ms[1..][i].id
  {
  }

  /**
   * The since-fetch is gap-free: it is the run of the channel's history that starts right after
   * the last message not newer than `after`, so every message between `after` and the newest
   * one fetched is fetched. Its ids are all newer than `after` and it is oldest first.
   */
  lemma HistoryAfterIsRun(ch: Channel, after: nat, limit: int)
    requires ValidChannel(ch)
    ensures |HistoryAfter(ch, after, limit)| == Room(limit, |ch.messages| - FirstAfter(ch.messages, after))
    ensures var s := FirstAfter(ch.messages, after);
      HistoryAfter(ch, after, limit) == ch.messages[s..s + |HistoryAfter(ch, after, limit)|]
      && (forall i :: 0 <= i < s ==> ch.messages[i].id <= after)
      && (forall i :: s <= i < |ch.messages| ==> ch.messages[i].id > after)
  {
    AfterIsSuffix(ch.messages, after);
    var s := FirstAfter(ch.messages, after);
    forall i | s <= i < |ch.messages| ensures ch.messages[i].id > after {
      assert ch.messages[i] == After(ch.messages, after)[i - s];
    }
  }

  /** The since-fetch after the message at position `p` starts with the message right after it. */
  lemma HistoryAfterPosition(ch: Channel, p: nat, limit: int)
    requires ValidChannel(ch) && p < |ch.messages|
    ensures var page := HistoryAfter(ch, ch.messages[p].id, limit);
      |page| == Room(limit, |ch.messages| - p - 1)
      && forall i :: 0 <= i < |page| ==> page[i] == ch.messages[p + 1 + i]
  {
    var x := ch.messages[p].id;
    var page := HistoryAfter(ch, x, limit);
    HistoryAfterIsRun(ch, x, limit);
    FirstAfterNext(ch.messages, p);
    forall i | 0 <= i < |page| ensures page[i] == ch.messages[p + 1 + i] {
      assert page[i] == ch.messages[p + 1..p + 1 + |page|][i];
    }
  }

  /** A listener callback; only its identity matters to the registry. */
  class Listener {
    constructor ()
    {
    }
  }

  /** What happened to the registry, in order; kept for the specification only. */
  datatype RegistryOp = Added(listener: Listener) | Removed(listener: Listener)

  datatype PresenceStatus = Online | Invisible

  /** `change_presence(status=..., activity=discord.Game(activity))`. */
  datatype Presence = Presence(status: PresenceStatus, activity: string)

  /** The server's `bot.agent_status` dictionary. */
  datatype AgentStatus = AgentStatus(status: string, details: Option<string>)

  /** `list.remove(x)`: drop the first occurrence of `x`, if there is one. */
  function RemoveFirst<T(==)>(s: seq<T>, x: T): (r: seq<T>)
    ensures x !in s ==> r == s
    ensures x in s ==> |r| == |s| - 1
  {
    if s == [] then []
    else if s[0] == x then s[1..]
    else [s[0]] + RemoveFirst(s[1..], x)
  }

  /** Removing what was just appended, and was not there before, restores the sequence. */
  lemma {:induction false} RemoveAppended<T>(s: seq<T>, x: T)
    requires x !in s
    ensures RemoveFirst(s + [x], x) == s
  {
    if s != [] {
      assert (s + [x])[1..] == s[1..] + [x];
      RemoveAppended(s[1..], x);
      assert [s[0]] + s[1..] == s;
    }
  }

  /** The bot instance built by `create_bot_instance`, which is also its own Discord client. */
  class Bot {
    const user: UserId
    var listeners: seq<Listener>
    ghost var registryOps: seq<RegistryOp>
    var agentStatus: AgentStatus
    /** The presence the server last set; `None` until `set_agent_status` first sets one. */
    var presence: Option<Presence>

    constructor (user: UserId)
      ensures this.user == user && listeners == [] && registryOps == []
      ensures agentStatus == AgentStatus("offline", None)
      ensures presence == None
    {
      this.user := user;
      listeners := [];
      registryOps := [];
      agentStatus := AgentStatus("offline", None);
      presence := None;
    }

    /** `add_listener(listener, "on_message")`: append to the event's listener list. */
    method AddListener(l: Listener)
      modifies this`listeners, this`registryOps
      ensures listeners == old(listeners) + [l]
      ensures registryOps == old(registryOps) + [Added(l)]
    {
      listeners := listeners + [l];
      registryOps := registryOps + [Added(l)];
    }

    /** `remove_listener(listener, "on_message")`: remove it from the list if it is there. */
    method RemoveListener(l: Listener)
      modifies this`listeners, this`registryOps
      ensures listeners == RemoveFirst(old(listeners), l)
      ensures registryOps == old(registryOps) + [Removed(l)]
    {
      listeners := RemoveFirst(listeners, l);
      registryOps := registryOps + [Removed(l)];
    }
  }
}
