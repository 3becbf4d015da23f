/**
 * The `get_unread_messages` branch of the tool dispatcher: resolve the channel, fetch either
 * the messages after `since_message_id` (oldest first) or the newest ones (newest first), sort
 * them by creation time, keep those that pass the sender, mention, DM and pattern checks, and
 * render the survivors as the "Unread messages (N)" text.
 */
module Unread {
  import opened Wrappers
  import opened Decimal
  import opened Text
  import opened Discord
  import opened Limits

  /** One entry of the reply: the dictionary built for each message that passes the checks. */
  datatype Record = Record(id: string, author: string, timestamp: string, content: string)

  /** The tool's arguments; `None` stands for an absent key. */
  datatype UnreadArgs = UnreadArgs(
    channelId: string,
    limit: Option<int>,
    since: Option<string>,
    senderId: Option<string>,
    mentionOnly: bool,
    dmOnly: bool,
    contentRegex: Option<string>)

  // ---------------------------------------------------------------------------------------
  // `messages.sort(key=lambda m: m.created_at, reverse=descending)`: a stable sort.

  predicate InOrder(a: Message, b: Message, descending: bool) {
    if descending then a.createdAt >= b.createdAt else a.createdAt <= b.createdAt
  }

  predicate SortedBy(ms: seq<Message>, descending: bool) {
    forall i, j :: 0 <= i < j < |ms| ==> InOrder(ms[i], ms[j], descending)
  }

  /** Put `x` before the first element it may precede; equal keys keep `x` in front. */
  function Insert(x: Message, ms: seq<Message>, descending: bool): (r: seq<Message>)
    requires SortedBy(ms, descending)
    ensures |r| == |ms| + 1
    ensures SortedBy(r, descending)
    ensures multiset(r) == multiset(ms) + multiset{x}
  {
    if ms == [] || InOrder(x, ms[0], descending) then [x] + ms
    else
      var rest := Insert(x, ms[1..], descending);
      HeadPrecedesAll(ms, x, rest, descending);
      [ms[0]] + rest
  }

  /**
   * The head of a sorted list may precede everything the rest of it holds, and `x`: it can
   * go in front of the rest with `x` inserted.
   */
  lemma HeadPrecedesAll(ms: seq<Message>, x: Message, rest: seq<Message>, descending: bool)
    requires SortedBy(ms, descending) && ms != [] && !InOrder(x, ms[0], descending)
    requires SortedBy(rest, descending)
    requires multiset(rest) == multiset(ms[1..]) + multiset{x}
    ensures SortedBy([ms[0]] + rest, descending)
    ensures multiset([ms[0]] + rest) == multiset(ms) + multiset{x}
  {
    forall j | 0 <= j < |rest| ensures InOrder(ms[0], rest[j], descending) {
      assert rest[j] in multiset(rest);
      if rest[j] != x {
        assert rest[j] in ms[1..];
        var k :| 0 <= k < |ms[1..]| && ms[1..][k] == rest[j];
        assert ms[k + 1] == rest[j];
      }
    }
    assert ms == [ms[0]] + ms[1..];
  }

  /** A stable sort by creation time, ascending or (with `reverse=True`) descending. */
  function SortByCreated(ms: seq<Message>, descending: bool): (r: seq<Message>)
    ensures |r| == |ms|
    ensures SortedBy(r, descending)
    ensures multiset(r) == multiset(ms)
  {
    if ms == [] then []
    else
      assert ms == [ms[0]] + ms[1..];
      Insert(ms[0], SortByCreated(ms[1..], descending), descending)
  }

  /** Sorting a list that is already in order leaves it as it is. */
  lemma {:induction false} SortPresorted(ms: seq<Message>, descending: bool)
    requires SortedBy(ms, descending)
    ensures SortByCreated(ms, descending) == ms
  {
    if ms != [] {
      SortPresorted(ms[1..], descending);
      assert ms == [ms[0]] + ms[1..];
    }
  }

  // ---------------------------------------------------------------------------------------
  // The fetch.

  /** The fetched and sorted messages: after `since` oldest first, or the newest ones newest first. */
  function Fetched(ch: Channel, since: Option<nat>, limit: int): seq<Message> {
    if since.Some? then SortByCreated(HistoryAfter(ch, since.value, limit), false)
    else SortByCreated(HistoryLatest(ch, limit), true)
  }

  /** With a cursor, the page is already oldest first, so the sort leaves it as fetched. */
  lemma SinceFetchIsPage(ch: Channel, after: nat, limit: int)
    requires ValidChannel(ch)
    ensures Fetched(ch, Some(after), limit) == HistoryAfter(ch, after, limit)
    ensures IdsIncreasing(HistoryAfter(ch, after, limit))
  {
    var page := HistoryAfter(ch, after, limit);
    HistoryAfterIsRun(ch, after, limit);
    var s := FirstAfter(ch.messages, after);
    forall i, j | 0 <= i < j < |page| ensures InOrder(page[i], page[j], false) && page[i].id < page[j].id {
      assert page[i] == ch.messages[s + i] && page[j] == ch.messages[s + j];
    }
    SortPresorted(page, false);
  }

  /**
   * With a cursor, the sort changes nothing: the reply is the run of the channel's history
   * right after the cursor, every id newer than it, ids and creation times ascending.
   */
  lemma SinceFetchOrder(ch: Channel, after: nat, limit: int)
    requires ValidChannel(ch)
    ensures var ms := Fetched(ch, Some(after), limit);
      ms == HistoryAfter(ch, after, limit)
      && SortedBy(ms, false)
      && IdsIncreasing(ms)
      && (forall i :: 0 <= i < |ms| ==> ms[i].id > after)
  {
    SinceFetchIsPage(ch, after, limit);
  }

  /** Without a cursor, the page is already newest first, so the sort leaves it as fetched. */
  lemma ColdFetchIsPage(ch: Channel, limit: int)
    requires ValidChannel(ch)
    ensures Fetched(ch, None, limit) == HistoryLatest(ch, limit)
    ensures SortedBy(HistoryLatest(ch, limit), true)
    ensures forall i, j :: 0 <= i < j < |HistoryLatest(ch, limit)| ==> HistoryLatest(ch, limit)[i].id > HistoryLatest(ch, limit)[j].id
  {
    var page := HistoryLatest(ch, limit);
    var n := |ch.messages|;
    forall i, j | 0 <= i < j < |page| ensures InOrder(page[i], page[j], true) && page[i].id > page[j].id {
      assert page[i] == ch.messages[n - 1 - i] && page[j] == ch.messages[n - 1 - j];
    }
    SortPresorted(page, true);
  }

  /**
   * Without a cursor, the sort changes nothing either: the reply is the newest messages of the
   * channel, ids and creation times descending.
   */
  lemma ColdFetchOrder(ch: Channel, limit: int)
    requires ValidChannel(ch)
    ensures var ms := Fetched(ch, None, limit);
      var n := |ch.messages|;
      ms == HistoryLatest(ch, limit)
      && |ms| == Room(limit, n)
      && (forall i :: 0 <= i < |ms| ==> ms[i] == ch.messages[n - 1 - i])
      && SortedBy(ms, true)
      && (forall i, j :: 0 <= i < j < |ms| ==> ms[i].id > ms[j].id)
  {
    ColdFetchIsPage(ch, limit);
  }

  // ---------------------------------------------------------------------------------------
  // The filter loop.

  /** The `continue` guards of the filter loop; the sender is compared as text. */
  predicate PassesUnread(m: Message, args: UnreadArgs, botUser: UserId, search: Search)
    ensures PassesUnread(m, args, botUser, search) ==>
      (!Truthy(args.senderId) || Show(m.authorId) == args.senderId.value) && (!args.dmOnly || m.guild.None?)
  {
    if Truthy(args.senderId) && Show(m.authorId) != args.senderId.value then false
    else if args.mentionOnly && botUser !in m.mentions then false
    else if args.dmOnly && m.guild.Some? then false
    else if Truthy(args.contentRegex) && !search(args.contentRegex.value, m.content) then false
    else true
  }

  function ToRecord(m: Message): (r: Record)
    ensures IsDecimal(r.id) && Read(r.id) == m.id
    ensures r.author == m.author && r.timestamp == m.stamp && r.content == m.content
  {
    ReadShow(m.id);
    Record(Show(m.id), m.author, m.stamp, m.content)
  }

  /** `filtered`: the records of the messages that pass, appended in order. */
  function Kept(ms: seq<Message>, args: UnreadArgs, botUser: UserId, search: Search): (r: seq<Record>)
    ensures |r| <= |ms|
  {
    if ms == [] then []
    else
      var last := ms[|ms| - 1];
      Kept(ms[..|ms| - 1], args, botUser, search)
        + if PassesUnread(last, args, botUser, search) then [ToRecord(last)] else []
  }

  /** The positions of the messages that pass, in increasing order. */
  ghost function Selected(ms: seq<Message>, args: UnreadArgs, botUser: UserId, search: Search): seq<nat> {
    if ms == [] then []
    else
      Selected(ms[..|ms| - 1], args, botUser, search)
        + if PassesUnread(ms[|ms| - 1], args, botUser, search) then [|ms| - 1] else []
  }

  /** The selected positions are in range and strictly increasing; one per record. */
  lemma {:induction false} SelectedShape(ms: seq<Message>, args: UnreadArgs, botUser: UserId, search: Search)
    ensures var sel := Selected(ms, args, botUser, search);
      |Kept(ms, args, botUser, search)| == |sel|
      && (forall j :: 0 <= j < |sel| ==> sel[j] < |ms|)
      && (forall j, k :: 0 <= j < k < |sel| ==> sel[j] < sel[k])
  {
    if ms != [] {
      SelectedShape(ms[..|ms| - 1], args, botUser, search);
    }
  }

  /** The `j`-th record is built from the message at the `j`-th selected position. */
  lemma {:induction false} KeptAt(ms: seq<Message>, args: UnreadArgs, botUser: UserId, search: Search)
    ensures var sel := Selected(ms, args, botUser, search);
      |Kept(ms, args, botUser, search)| == |sel|
      && forall j :: 0 <= j < |sel| ==> sel[j] < |ms| && Kept(ms, args, botUser, search)[j] == ToRecord(ms[sel[j]])
  {
    if ms != [] {
      var init := ms[..|ms| - 1];
      KeptAt(init, args, botUser, search);
      var sel0, r0 := Selected(init, args, botUser, search), Kept(init, args, botUser, search);
      var sel, r := Selected(ms, args, botUser, search), Kept(ms, args, botUser, search);
      assert |r| == |sel|;
      forall j | 0 <= j < |sel| ensures sel[j] < |ms| && r[j] == ToRecord(ms[sel[j]]) {
        if j < |sel0| {
          assert sel[j] == sel0[j] && r[j] == r0[j];
          assert ms[sel0[j]] == init[sel0[j]];
        } else {
          assert sel[j] == |ms| - 1 && r[j] == ToRecord(ms[|ms| - 1]);
        }
      }
    }
  }

  /** A position is selected exactly when its message passes the checks. */
  lemma {:induction false} SelectedIff(ms: seq<Message>, args: UnreadArgs, botUser: UserId, search: Search)
    ensures var sel := Selected(ms, args, botUser, search);
      forall i :: 0 <= i < |ms| ==> (PassesUnread(ms[i], args, botUser, search) <==> i in sel)
  {
    if ms != [] {
      var init := ms[..|ms| - 1];
      SelectedIff(init, args, botUser, search);
      SelectedShape(init, args, botUser, search);
      var sel := Selected(ms, args, botUser, search);
      var sel0 := Selected(init, args, botUser, search);
      forall i | 0 <= i < |ms| ensures PassesUnread(ms[i], args, botUser, search) <==> i in sel {
        if i < |init| {
          assert ms[i] == init[i];
          assert i in sel <==> i in sel0;
        }
      }
    }
  }

  /**
   * `filtered` is an order-preserving selection: its `j`-th record is built from the message at
   * the `j`-th selected position, positions strictly increase, and a position is selected
   * exactly when its message passes the checks.
   */
  lemma KeptIsSelection(ms: seq<Message>, args: UnreadArgs, botUser: UserId, search: Search)
    ensures var sel := Selected(ms, args, botUser, search);
      var r := Kept(ms, args, botUser, search);
      |r| == |sel|
      && (forall j :: 0 <= j < |sel| ==> sel[j] < |ms| && r[j] == ToRecord(ms[sel[j]]))
      && (forall j, k :: 0 <= j < k < |sel| ==> sel[j] < sel[k])
      && (forall i :: 0 <= i < |ms| ==> (PassesUnread(ms[i], args, botUser, search) <==> i in sel))
  {
    SelectedShape(ms, args, botUser, search);
    KeptAt(ms, args, botUser, search);
    SelectedIff(ms, args, botUser, search);
  }

  /** The arguments switch no check on. */
  predicate NoFilters(args: UnreadArgs) {
    !Truthy(args.senderId) && !args.mentionOnly && !args.dmOnly && !Truthy(args.contentRegex)
  }

  /** With no check switched on, every fetched message is kept, in order. */
  lemma {:induction false} UnfilteredKeepsAll(ms: seq<Message>, args: UnreadArgs, botUser: UserId, search: Search)
    requires NoFilters(args)
    ensures var r := Kept(ms, args, botUser, search);
      |r| == |ms| && forall i :: 0 <= i < |ms| ==> r[i] == ToRecord(ms[i])
  {
    if ms != [] {
      var init := ms[..|ms| - 1];
      UnfilteredKeepsAll(init, args, botUser, search);
      assert forall i :: 0 <= i < |init| ==> init[i] == ms[i];
    }
  }

  // ---------------------------------------------------------------------------------------
  // The whole branch.

  /** The reply's records, or the failure the branch raises. */
  function UnreadBatch(channels: map<nat, Channel>, args: UnreadArgs, botUser: UserId, search: Search): (r: Result<seq<Record>, Failure>)
    ensures r.Ok? ==> IsDecimal(args.channelId) && Read(args.channelId) in channels
  {
    match ParseInt(args.channelId)
    case None => Err(ValueError(args.channelId))
    case Some(cid) =>
      if cid !in channels then Err(NotFound(cid))
      else
        var limit := UnreadLimit(args.limit);
        if Truthy(args.since) then
          match ParseInt(args.since.value)
          case None => Err(ValueError(args.since.value))
          case Some(after) => Ok(Kept(Fetched(channels[cid], Some(after), limit), args, botUser, search))
        else
          Ok(Kept(Fetched(channels[cid], None, limit), args, botUser, search))
  }

  /** A reply never holds more records than the clamped limit allows, and never more than 100. */
  lemma UnreadBatchBounded(channels: map<nat, Channel>, args: UnreadArgs, botUser: UserId, search: Search)
    ensures var b := UnreadBatch(channels, args, botUser, search);
      b.Ok? ==>
        |b.value| <= 100
        && (UnreadLimit(args.limit) > 0 ==> |b.value| <= UnreadLimit(args.limit))
        && (UnreadLimit(args.limit) <= 0 ==> b.value == [])
  {
    var b := UnreadBatch(channels, args, botUser, search);
    if b.Ok? {
      var cid := ParseInt(args.channelId).value;
      var ch := channels[cid];
      var limit := UnreadLimit(args.limit);
      if Truthy(args.since) {
        var ms := HistoryAfter(ch, ParseInt(args.since.value).value, limit);
      } else {
        var ms := HistoryLatest(ch, limit);
      }
    }
  }

  /**
   * With a cursor, every record is newer than the cursor and the records are oldest first:
   * their ids, read back as numbers, strictly increase.
   */
  lemma SinceBatchAscending(channels: map<nat, Channel>, args: UnreadArgs, botUser: UserId, search: Search)
    requires Truthy(args.since) && IsDecimal(args.since.value)
    requires IsDecimal(args.channelId) && Read(args.channelId) in channels
    requires ValidChannel(channels[Read(args.channelId)])
    ensures var b := UnreadBatch(channels, args, botUser, search);
      b.Ok?
      && (forall j :: 0 <= j < |b.value| ==> IsDecimal(b.value[j].id) && Read(b.value[j].id) > Read(args.since.value))
      && (forall j, k :: 0 <= j < k < |b.value| ==> Read(b.value[j].id) < Read(b.value[k].id))
  {
    var ch := channels[Read(args.channelId)];
    var after := Read(args.since.value);
    var limit := UnreadLimit(args.limit);
    SinceFetchOrder(ch, after, limit);
    var ms := Fetched(ch, Some(after), limit);
    KeptIsSelection(ms, args, botUser, search);
  }

  /** Without a cursor, the records are newest first: their ids strictly decrease. */
  lemma ColdBatchDescending(channels: map<nat, Channel>, args: UnreadArgs, botUser: UserId, search: Search)
    requires !Truthy(args.since)
    requires IsDecimal(args.channelId) && Read(args.channelId) in channels
    requires ValidChannel(channels[Read(args.channelId)])
    ensures var b := UnreadBatch(channels, args, botUser, search);
      b.Ok?
      && (forall j :: 0 <= j < |b.value| ==> IsDecimal(b.value[j].id))
      && (forall j, k :: 0 <= j < k < |b.value| ==> Read(b.value[j].id) > Read(b.value[k].id))
  {
    var ch := channels[Read(args.channelId)];
    var limit := UnreadLimit(args.limit);
    ColdFetchIsPage(ch, limit);
    var ms := Fetched(ch, None, limit);
    KeptIsSelection(ms, args, botUser, search);
  }

  // ---------------------------------------------------------------------------------------
  // The reply text.

  /** The text after "ID: " for one record. */
  function Line(r: Record): string {
    r.id + "\n" + r.author + " (" + r.timestamp + "): " + r.content
  }

  function Lines(rs: seq<Record>): (ls: seq<string>)
    ensures |ls| == |rs| && forall k :: 0 <= k < |rs| ==> ls[k] == Line(rs[k])
  {
    seq(|rs|, k requires 0 <= k < |rs| => Line(rs[k]))
  }

  function Entries(rs: seq<Record>): (es: seq<string>)
    ensures |es| == |rs| && forall k :: 0 <= k < |rs| ==> es[k] == "ID: " + Line(rs[k])
  {
    seq(|rs|, k requires 0 <= k < |rs| => "ID: " + Line(rs[k]))
  }

  /** The header line and the blank line after it. */
  function Header(count: nat): string {
    "Unread messages (" + Show(count) + "):\n\n"
  }

  /** The reply: the header with the count, then one "ID: ..." entry per record, one per line. */
  function FormatUnread(rs: seq<Record>): (text: string)
    ensures |Header(|rs|)| <= |text| && text[..|Header(|rs|)|] == Header(|rs|)
    ensures rs == [] ==> text == Header(0)
  {
    Header(|rs|) + Join("\n", Entries(rs))
  }

  /** Nothing qualifies: the reply is the bare header with a count of zero, not an error. */
  lemma EmptyBatchText()
    ensures FormatUnread([]) == "Unread messages (0):\n\n"
  {
    assert Show(0) == "0";
  }

  /** The reply when no fetched message passes the checks. */
  lemma NothingPassesGivesEmptyBatch(ms: seq<Message>, args: UnreadArgs, botUser: UserId, search: Search)
    requires forall i :: 0 <= i < |ms| ==> !PassesUnread(ms[i], args, botUser, search)
    ensures Kept(ms, args, botUser, search) == []
  {
    KeptIsSelection(ms, args, botUser, search);
  }

  // ---------------------------------------------------------------------------------------
  // The branch as the dispatcher runs it.

  /** `async for m in history: messages.append(m)`: drain the fetch into a list. */
  method Collect(page: seq<Message>) returns (messages: seq<Message>)
    ensures messages == page
  {
    messages := [];
    for i := 0 to |page|
      invariant messages == page[..i]
    {
      messages := messages + [page[i]];
    }
  }

  /** The filter loop: skip each message that fails a check, keep a record of the others. */
  method FilterMessages(messages: seq<Message>, args: UnreadArgs, botUser: UserId, search: Search)
    returns (filtered: seq<Record>)
    ensures filtered == Kept(messages, args, botUser, search)
  {
    filtered := [];
    for i := 0 to |messages|
      invariant filtered == Kept(messages[..i], args, botUser, search)
    {
      var m := messages[i];
      assert messages[..i + 1] == messages[..i] + [m];
      if Truthy(args.senderId) && Show(m.authorId) != args.senderId.value {
        continue;
      }
      if args.mentionOnly && botUser !in m.mentions {
        continue;
      }
      if args.dmOnly && m.guild.Some? {
        continue;
      }
      if Truthy(args.contentRegex) && !search(args.contentRegex.value, m.content) {
        continue;
      }
      filtered := filtered + [ToRecord(m)];
    }
    assert messages[..|messages|] == messages;
  }

  /**
   * `call_tool("get_unread_messages", arguments)`: the text reply, or the failure raised by
   * `int(...)` or `fetch_channel`.
   */
  method GetUnreadMessages(bot: Bot, channels: map<nat, Channel>, args: UnreadArgs, search: Search)
    returns (r: Result<string, Failure>)
    ensures var b := UnreadBatch(channels, args, bot.user, search);
      (r.Ok? <==> b.Ok?)
      && (r.Ok? ==> r.value == FormatUnread(b.value))
      && (r.Err? ==> r.error == b.error)
  {
    var cid := ParseInt(args.channelId);
    if cid.None? {
      return Err(ValueError(args.channelId));
    }
    if cid.value !in channels {
      return Err(NotFound(cid.value));
    }
    var channel := channels[cid.value];
    var limit := UnreadLimit(args.limit);
    var messages: seq<Message>;
    if Truthy(args.since) {
      var after := ParseInt(args.since.value);
      if after.None? {
        return Err(ValueError(args.since.value));
      }
      messages := Collect(HistoryAfter(channel, after.value, limit));
      messages := SortByCreated(messages, false);
    } else {
      messages := Collect(HistoryLatest(channel, limit));
      messages := SortByCreated(messages, true);
    }
    var filtered := FilterMessages(messages, args, bot.user, search);
    r := Ok(FormatUnread(filtered));
  }
}
