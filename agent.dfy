/**
 * The example agent: each round it asks `get_unread_messages` for what arrived since its
 * cursor, parses the reply text back into message dictionaries, and moves its cursor.
 */
module Agent {
  import opened Wrappers
  import opened Decimal
  import opened Text
  import opened Discord
  import opened Limits
  import opened Unread

  // ---------------------------------------------------------------------------------------
  // Parsing the reply text.

  const EntrySep := "\nID: "

  /**
   * One entry of the reply, without its "ID: " prefix: the id is the first line, the author
   * runs to the first " (", the timestamp to the first "): ", and the content is the rest.
   */
  function ParseEntry(line: string): (r: Record)
    ensures Trimmed(r.id) && Trimmed(r.author) && Trimmed(r.content)
  {
    var parts := SplitN(line, "\n", 2);
    var rest := if |parts| > 1 then parts[1] else "";
    var byAuthor := Partition(rest, " (");
    var byStamp := Partition(byAuthor.1, "): ");
    Record(Strip(parts[0]), Strip(byAuthor.0), RStripChar(Strip(byStamp.0), ')'), Strip(byStamp.1))
  }

  /** Each piece parsed as an entry, in order. */
  function ParsePieces(pieces: seq<string>): (rs: seq<Record>)
    ensures |rs| == |pieces|
  {
    if pieces == [] then []
    else ParsePieces(pieces[..|pieces| - 1]) + [ParseEntry(pieces[|pieces| - 1])]
  }

  /** The `k`-th entry is the `k`-th piece, parsed. */
  lemma {:induction false} ParsedAt(pieces: seq<string>, k: nat)
    requires k < |pieces|
    ensures ParsePieces(pieces)[k] == ParseEntry(pieces[k])
  {
    if k < |pieces| - 1 {
      var init := pieces[..|pieces| - 1];
      ParsedAt(init, k);
      assert init[k] == pieces[k];
    }
  }

  /** Every piece of the reply after the first "\nID: " separator, parsed as an entry. */
  function ParsedEntries(text: string): (rs: seq<Record>)
    ensures |rs| == |Split(text, EntrySep)| - 1
    ensures !Contains(text, EntrySep) ==> rs == []
  {
    ParsePieces(Split(text, EntrySep)[1..])
  }

  /** The loop over `lines[1:]`: parse each piece and append it. */
  method ParseEach(pieces: seq<string>) returns (messages: seq<Record>)
    ensures messages == ParsePieces(pieces)
  {
    messages := [];
    for k := 0 to |pieces|
      invariant messages == ParsePieces(pieces[..k])
    {
      assert pieces[..k + 1][..k] == pieces[..k];
      messages := messages + [ParseEntry(pieces[k])];
    }
    assert pieces[..|pieces|] == pieces;
  }

  /**
   * Parsing a reply: `None` stands for an empty result or one whose first item is not text,
   * which leaves the batch empty.
   */
  method ParseMessages(result: Option<string>) returns (messages: seq<Record>)
    ensures result.None? ==> messages == []
    ensures result.Some? ==> messages == ParsedEntries(result.value)
  {
    messages := [];
    if result.Some? {
      var lines := Split(result.value, EntrySep);
      messages := ParseEach(lines[1..]);
    }
  }

  // ---------------------------------------------------------------------------------------
  // The reply text parses back to the records it was made from.

  /** The text of "ID: " at the start of a string. */
  predicate EntryStart(s: string) {
    |s| >= 4 && s[..4] == "ID: "
  }

  /**
   * A record the parser can recover: a decimal id; single-line fields without surrounding
   * whitespace; no " (" in the author and no "): " in the timestamp; a timestamp that does not
   * end in ")"; and an author that does not make its line look like the start of an entry.
   */
  predicate Printable(r: Record) {
    IsDecimal(r.id)
    && '\n' !in r.author && '\n' !in r.timestamp && '\n' !in r.content
    && !Contains(r.author, " (") && !Contains(r.timestamp, "): ")
    && Trimmed(r.author) && Trimmed(r.timestamp) && Trimmed(r.content)
    && (r.timestamp == [] || r.timestamp[|r.timestamp| - 1] != ')')
    && !EntryStart(r.author + " (")
  }

  /**
   * A record whose entry the parser finds where the server put it: a decimal id, and a body
   * that neither holds the entry separator nor starts like an entry. The body may span several
   * lines; only the id is then read back as written.
   */
  predicate Delimited(r: Record) {
    IsDecimal(r.id) && !Contains(Body(r), EntrySep) && !EntryStart(Body(r))
  }

  /** A string without the first character of `sep` does not contain `sep`. */
  lemma NoCharNoFind(s: string, sep: string)
    requires |sep| > 0 && sep[0] !in s
    ensures !Contains(s, sep)
  {
    ShortNoFind("", sep);
    NoFindConcat(s, "", sep);
    assert s + "" == s;
  }

  /** The part of an entry after its id line. */
  function Body(r: Record): string {
    r.author + " (" + r.timestamp + "): " + r.content
  }

  lemma LineIsIdAndBody(r: Record)
    ensures Line(r) == r.id + "\n" + Body(r)
    ensures Body(r) == r.author + " (" + (r.timestamp + "): " + r.content)
  {
  }

  lemma BodyOneLine(r: Record)
    requires Printable(r)
    ensures '\n' !in Body(r)
  {
  }

  /** A printable record's body does not start like an entry. */
  lemma BodyNotEntryStart(r: Record)
    requires Printable(r)
    ensures !EntryStart(Body(r))
  {
    var b := Body(r);
    if |b| >= 4 {
      if |r.author| >= 2 {
        assert b[..4] == (r.author + " (")[..4];
      } else {
        assert b[|r.author|] == ' ';
        assert b[..4][|r.author|] == ' ';
      }
    }
  }

  /** A newline-free head, a newline and a body without the separator that does not start like an entry. */
  lemma NoSepAround(id: string, b: string)
    requires '\n' !in id && !Contains(b, EntrySep) && !EntryStart(b)
    ensures !Contains(id + "\n" + b, EntrySep)
  {
    var l := id + "\n" + b;
    forall j: nat | j + |EntrySep| <= |l| ensures !OccursAt(l, EntrySep, j) {
      assert l[j..j + |EntrySep|][0] == l[j];
      if j < |id| {
        assert l[j] == id[j];
      } else if j == |id| {
        assert l[j + 1..] == b;
        assert l[j..j + |EntrySep|][1..] == b[..4];
      } else {
        assert l[j..j + |EntrySep|] == b[j - |id| - 1..j - |id| - 1 + |EntrySep|];
        assert !OccursAt(b, EntrySep, j - |id| - 1);
      }
    }
  }

  /** Every printable record is delimited. */
  lemma PrintableDelimited(r: Record)
    requires Printable(r)
    ensures Delimited(r)
  {
    BodyOneLine(r);
    BodyNotEntryStart(r);
    NoCharNoFind(Body(r), EntrySep);
  }

  /** No delimited record's line contains the entry separator. */
  lemma LineHasNoSep(r: Record)
    requires Delimited(r)
    ensures !Contains(Line(r), EntrySep)
  {
    LineIsIdAndBody(r);
    IdsHaveNoNewline(r.id);
    NoSepAround(r.id, Body(r));
  }

  /** `line.split("\n", 2)[0]` is the text before the first newline. */
  lemma SplitFirstLine(id: string, b: string)
    requires '\n' !in id
    ensures SplitN(id + "\n" + b, "\n", 2)[0] == id
  {
    NoCharNoFind(id, "\n");
    FindAfter(id, "\n", b);
    assert (id + "\n" + b)[..|id|] == id;
  }

  /** The parser reads a delimited record's id back from its line, whatever the body holds. */
  lemma ParsedIdOfLine(r: Record)
    requires Delimited(r)
    ensures ParseEntry(Line(r)).id == r.id
  {
    LineIsIdAndBody(r);
    IdsHaveNoNewline(r.id);
    SplitFirstLine(r.id, Body(r));
    StripTrimmed(r.id);
  }

  /** What follows the author's " (": the timestamp, "): " and the content. */
  function AfterAuthor(r: Record): string {
    r.timestamp + "): " + r.content
  }

  lemma IdsHaveNoNewline(id: string)
    requires IsDecimal(id)
    ensures '\n' !in id && Trimmed(id)
  {
    forall k | 0 <= k < |id| ensures id[k] != '\n' {
      assert IsDigit(id[k]);
    }
    assert IsDigit(id[0]) && IsDigit(id[|id| - 1]);
  }

  /** `line.split("\n", 2)` of a printable line is its id and its body. */
  lemma SplitIdLine(r: Record)
    requires Printable(r)
    ensures SplitN(Line(r), "\n", 2) == [r.id, Body(r)]
  {
    var b := Body(r);
    var l := Line(r);
    LineIsIdAndBody(r);
    BodyOneLine(r);
    IdsHaveNoNewline(r.id);
    NoCharNoFind(r.id, "\n");
    FindAfter(r.id, "\n", b);
    NoCharNoFind(b, "\n");
    assert l[..|r.id|] == r.id;
    assert l[|r.id| + 1..] == b;
  }

  /** The body splits at the author's " (". */
  lemma SplitAuthor(r: Record)
    requires Printable(r)
    ensures Partition(Body(r), " (") == (r.author, AfterAuthor(r))
  {
    var b := Body(r);
    var rest2 := AfterAuthor(r);
    assert b == r.author + " (" + rest2;
    FindAfter(r.author, " (", rest2);
    assert b[..|r.author|] == r.author;
    assert b[|r.author| + 2..] == rest2;
  }

  /** The rest splits at the timestamp's "): ". */
  lemma SplitStamp(r: Record)
    requires Printable(r)
    ensures Partition(AfterAuthor(r), "): ") == (r.timestamp, r.content)
  {
    var rest2 := AfterAuthor(r);
    FindAfter(r.timestamp, "): ", r.content);
    assert rest2[..|r.timestamp|] == r.timestamp;
    assert rest2[|r.timestamp| + 3..] == r.content;
  }

  /** The parser recovers a printable record from its line. */
  lemma ParseLine(r: Record)
    requires Printable(r)
    ensures ParseEntry(Line(r)) == r
  {
    SplitIdLine(r);
    SplitAuthor(r);
    SplitStamp(r);
    IdsHaveNoNewline(r.id);
    StripTrimmed(r.id);
    StripTrimmed(r.author);
    StripTrimmed(r.timestamp);
    StripTrimmed(r.content);
  }

  /** The first piece of a non-empty reply: the header without its blank line. */
  function HeadPiece(count: nat): string {
    "Unread messages (" + Show(count) + "):\n"
  }

  lemma HeadPieceHasNoSep(count: nat)
    ensures !Contains(HeadPiece(count), EntrySep)
    ensures Header(count) == HeadPiece(count) + "\n"
    ensures '\n' !in "Unread messages (" + Show(count) + "):"
  {
    var a := "Unread messages (" + Show(count) + "):";
    assert '\n' !in a by {
      forall k | 0 <= k < |Show(count)| ensures Show(count)[k] != '\n' {
        assert IsDigit(Show(count)[k]);
      }
    }
    ShortNoFind("\n", EntrySep);
    NoFindConcat(a, "\n", EntrySep);
    assert HeadPiece(count) == a + "\n";
  }

  /** The entries joined by newlines are the lines joined by the entry separator, after one "ID: ". */
  lemma {:induction false} JoinEntries(rs: seq<Record>)
    requires |rs| > 0
    ensures Join("\n", Entries(rs)) == "ID: " + Join(EntrySep, Lines(rs))
  {
    if |rs| > 1 {
      JoinEntries(rs[1..]);
      assert Entries(rs)[1..] == Entries(rs[1..]);
      assert Lines(rs)[1..] == Lines(rs[1..]);
    }
  }

  /** A non-empty reply is the header piece and the lines, joined by the entry separator. */
  lemma FormatAsJoin(rs: seq<Record>)
    requires |rs| > 0
    ensures FormatUnread(rs) == Join(EntrySep, [HeadPiece(|rs|)] + Lines(rs))
  {
    JoinEntries(rs);
    HeadPieceHasNoSep(|rs|);
    assert ([HeadPiece(|rs|)] + Lines(rs))[1..] == Lines(rs);
  }

  /** An empty reply is the bare header, which holds no entry separator. */
  lemma EmptyReplyParses()
    ensures ParsedEntries(FormatUnread([])) == []
  {
    HeadPieceHasNoSep(0);
    ShortNoFind("\n\n", EntrySep);
    NoFindConcat("Unread messages (" + Show(0) + "):", "\n\n", EntrySep);
    assert FormatUnread([]) == "Unread messages (" + Show(0) + "):" + "\n\n";
  }

  /** A non-empty reply splits at the entry separators into the header piece and the lines. */
  lemma ReplyPieces(rs: seq<Record>)
    requires |rs| > 0 && forall k :: 0 <= k < |rs| ==> Delimited(rs[k])
    ensures Split(FormatUnread(rs), EntrySep) == [HeadPiece(|rs|)] + Lines(rs)
  {
    FormatAsJoin(rs);
    PiecesHaveNoSep(rs);
    SplitJoin([HeadPiece(|rs|)] + Lines(rs), EntrySep);
  }

  /** No piece of a reply of delimited records contains the entry separator. */
  lemma PiecesHaveNoSep(rs: seq<Record>)
    requires forall k :: 0 <= k < |rs| ==> Delimited(rs[k])
    ensures forall k :: 0 <= k < |rs| + 1 ==> !Contains(([HeadPiece(|rs|)] + Lines(rs))[k], EntrySep)
  {
    var pieces := [HeadPiece(|rs|)] + Lines(rs);
    HeadPieceHasNoSep(|rs|);
    LinesHaveNoSep(rs);
    forall k | 0 <= k < |pieces| ensures !Contains(pieces[k], EntrySep) {
      if k > 0 {
        assert pieces[k] == Lines(rs)[k - 1];
      }
    }
  }

  lemma LinesHaveNoSep(rs: seq<Record>)
    requires forall k :: 0 <= k < |rs| ==> Delimited(rs[k])
    ensures forall k :: 0 <= k < |rs| ==> !Contains(Lines(rs)[k], EntrySep)
  {
    forall k | 0 <= k < |rs| ensures !Contains(Lines(rs)[k], EntrySep) {
      LineHasNoSep(rs[k]);
    }
  }

  /** Lines of printable records parse back to the records. */
  lemma ParseLines(rs: seq<Record>)
    requires forall k :: 0 <= k < |rs| ==> Printable(rs[k])
    ensures ParsePieces(Lines(rs)) == rs
  {
    forall k | 0 <= k < |rs| ensures ParsePieces(Lines(rs))[k] == rs[k] {
      ParsedAt(Lines(rs), k);
      ParseLine(rs[k]);
    }
  }

  /**
   * The agent reads back exactly the records the server wrote, in the server's order, as
   * long as every record is printable.
   */
  lemma ParseFormatted(rs: seq<Record>)
    requires forall k :: 0 <= k < |rs| ==> Printable(rs[k])
    ensures ParsedEntries(FormatUnread(rs)) == rs
  {
    if rs == [] {
      EmptyReplyParses();
    } else {
      forall k | 0 <= k < |rs| ensures Delimited(rs[k]) {
        PrintableDelimited(rs[k]);
      }
      ReplyPieces(rs);
      assert ([HeadPiece(|rs|)] + Lines(rs))[1..] == Lines(rs);
      ParseLines(rs);
    }
  }

  /** Lines of delimited records parse back to entries with the records' ids. */
  lemma ParseLinesIds(rs: seq<Record>)
    requires forall k :: 0 <= k < |rs| ==> Delimited(rs[k])
    ensures forall k :: 0 <= k < |rs| ==> ParsePieces(Lines(rs))[k].id == rs[k].id
  {
    forall k | 0 <= k < |rs| ensures ParsePieces(Lines(rs))[k].id == rs[k].id {
      ParsedAt(Lines(rs), k);
      ParsedIdOfLine(rs[k]);
    }
  }

  /**
   * Whatever the authors, timestamps and contents hold, the agent reads one entry per
   * delimited record, with the record's id, in the server's order.
   */
  lemma ParseIds(rs: seq<Record>)
    requires forall k :: 0 <= k < |rs| ==> Delimited(rs[k])
    ensures |ParsedEntries(FormatUnread(rs))| == |rs|
    ensures forall k :: 0 <= k < |rs| ==> ParsedEntries(FormatUnread(rs))[k].id == rs[k].id
  {
    if rs == [] {
      EmptyReplyParses();
    } else {
      ReplyPieces(rs);
      assert ([HeadPiece(|rs|)] + Lines(rs))[1..] == Lines(rs);
      ParseLinesIds(rs);
    }
  }

  // ---------------------------------------------------------------------------------------
  // The cursor.

  /** `args = {"channel_id": CHANNEL_ID}`, with `since_message_id` only when the cursor is truthy. */
  function RoundArgs(channelId: string, cursor: Option<string>): (a: UnreadArgs)
    ensures a.channelId == channelId && NoFilters(a) && a.limit.None?
    ensures a.since.Some? <==> Truthy(cursor)
    ensures a.since.Some? ==> a.since == cursor
  {
    UnreadArgs(channelId, None, if Truthy(cursor) then cursor else None, None, false, false, None)
  }

  /** The batch the agent parses in a round: nothing when the call fails. */
  ghost function Round(channels: map<nat, Channel>, channelId: string, cursor: Option<string>, botUser: UserId, search: Search): (messages: seq<Record>)
    ensures UnreadBatch(channels, RoundArgs(channelId, cursor), botUser, search).Err? ==> messages == []
  {
    match UnreadBatch(channels, RoundArgs(channelId, cursor), botUser, search)
    case Ok(b) => ParsedEntries(FormatUnread(b))
    case Err(_) => []
  }

  /** `last_seen_id = messages[-1]["id"]` when the batch is not empty. */
  function AdvanceAsWritten(cursor: Option<string>, messages: seq<Record>): (c: Option<string>)
    ensures messages == [] ==> c == cursor
    ensures messages != [] ==> c == Some(messages[|messages| - 1].id)
  {
    if messages != [] then Some(messages[|messages| - 1].id) else cursor
  }

  /** The number an id names; zero for text that is not an id. */
  function IdValue(id: string): nat {
    if IsDecimal(id) then Read(id) else 0
  }

  /** The position of the entry with the greatest id (the first such, on a tie). */
  function NewestIndex(messages: seq<Record>): (k: nat)
    requires messages != []
    ensures k < |messages|
    ensures forall j :: 0 <= j < |messages| ==> IdValue(messages[j].id) <= IdValue(messages[k].id)
  {
    if |messages| == 1 then 0
    else
      var k := NewestIndex(messages[..|messages| - 1]);
      assert forall j :: 0 <= j < |messages| - 1 ==> messages[..|messages| - 1][j] == messages[j];
      if IdValue(messages[|messages| - 1].id) > IdValue(messages[k].id) then |messages| - 1 else k
  }

  /** The cursor moves to the newest message of the batch, whatever order the batch is in. */
  function AdvanceToNewest(cursor: Option<string>, messages: seq<Record>): (c: Option<string>)
    ensures messages == [] ==> c == cursor
    ensures messages != [] ==> c.Some? && exists k :: 0 <= k < |messages| && c.value == messages[k].id
    ensures messages != [] ==> forall j :: 0 <= j < |messages| ==> IdValue(messages[j].id) <= IdValue(c.value)
  {
    if messages != [] then Some(messages[NewestIndex(messages)].id) else cursor
  }

  /**
   * On a batch that is oldest first, as every batch fetched after a cursor is, the two rules
   * agree: the last entry is the newest.
   */
  lemma AdvanceRulesAgreeWhenAscending(cursor: Option<string>, messages: seq<Record>)
    requires forall j, k :: 0 <= j < k < |messages| ==> IdValue(messages[j].id) < IdValue(messages[k].id)
    ensures AdvanceToNewest(cursor, messages) == AdvanceAsWritten(cursor, messages)
  {
    if messages != [] {
      var k := NewestIndex(messages);
      assert IdValue(messages[k].id) >= IdValue(messages[|messages| - 1].id);
    }
  }

  /** Every message of every channel parses back from its entry. */
  predicate AllPrintable(channels: map<nat, Channel>) {
    forall cid, m :: cid in channels && m in channels[cid].messages ==> Printable(ToRecord(m))
  }

  /** Every message of every channel has an entry whose id the parser reads back. */
  predicate AllDelimited(channels: map<nat, Channel>) {
    forall cid, m :: cid in channels && m in channels[cid].messages ==> Delimited(ToRecord(m))
  }

  predicate AllValid(channels: map<nat, Channel>) {
    forall cid :: cid in channels ==> ValidChannel(channels[cid])
  }

  /** The messages the server fetches in a round, or none when the call fails. */
  ghost function RoundFetch(channels: map<nat, Channel>, channelId: string, cursor: Option<string>): seq<Message> {
    match ParseInt(channelId)
    case None => []
    case Some(cid) =>
      if cid !in channels then []
      else if Truthy(cursor) then
        match ParseInt(cursor.value)
        case None => []
        case Some(after) => Fetched(channels[cid], Some(after), UnreadLimit(None))
      else Fetched(channels[cid], None, UnreadLimit(None))
  }

  /** The since-page is a run of the channel's history. */
  lemma HistoryAfterInChannel(ch: Channel, after: nat, limit: int)
    requires ValidChannel(ch)
    ensures forall i :: 0 <= i < |HistoryAfter(ch, after, limit)| ==> HistoryAfter(ch, after, limit)[i] in ch.messages
  {
    HistoryAfterIsRun(ch, after, limit);
    var s := FirstAfter(ch.messages, after);
    var run := HistoryAfter(ch, after, limit);
    forall i | 0 <= i < |run| ensures run[i] in ch.messages {
      assert run[i] == ch.messages[s..s + |run|][i];
    }
  }

  /** The cold page is the newest messages of the channel's history. */
  lemma HistoryLatestInChannel(ch: Channel, limit: int)
    ensures forall i :: 0 <= i < |HistoryLatest(ch, limit)| ==> HistoryLatest(ch, limit)[i] in ch.messages
  {
    var page := HistoryLatest(ch, limit);
    forall i | 0 <= i < |page| ensures page[i] in ch.messages {
      assert page[i] == ch.messages[|ch.messages| - 1 - i];
    }
  }

  /** Whatever a channel's fetch returns is a message of that channel. */
  lemma FetchedFromChannel(ch: Channel, since: Option<nat>, limit: int)
    requires ValidChannel(ch)
    ensures forall i :: 0 <= i < |Fetched(ch, since, limit)| ==> Fetched(ch, since, limit)[i] in ch.messages
  {
    if since.Some? {
      SinceFetchIsPage(ch, since.value, limit);
      HistoryAfterInChannel(ch, since.value, limit);
    } else {
      ColdFetchIsPage(ch, limit);
      HistoryLatestInChannel(ch, limit);
    }
  }

  /** Whatever a round fetches is a message of the channel the round names. */
  lemma RoundFetchFromChannel(channels: map<nat, Channel>, channelId: string, cursor: Option<string>)
    requires AllValid(channels)
    ensures forall i :: 0 <= i < |RoundFetch(channels, channelId, cursor)| ==>
      IsDecimal(channelId) && Read(channelId) in channels
      && RoundFetch(channels, channelId, cursor)[i] in channels[Read(channelId)].messages
  {
    var ms := RoundFetch(channels, channelId, cursor);
    if IsDecimal(channelId) && Read(channelId) in channels {
      var ch := channels[Read(channelId)];
      if Truthy(cursor) && IsDecimal(cursor.value) {
        assert ms == Fetched(ch, Some(Read(cursor.value)), UnreadLimit(None));
        FetchedFromChannel(ch, Some(Read(cursor.value)), UnreadLimit(None));
      } else if !Truthy(cursor) {
        assert ms == Fetched(ch, None, UnreadLimit(None));
        FetchedFromChannel(ch, None, UnreadLimit(None));
      } else {
        assert ms == [];
      }
    } else {
      assert ms == [];
    }
  }

  /**
   * The round's call asks for no filter, so it succeeds with the records of everything the
   * round fetches, or fails having fetched nothing.
   */
  lemma RoundBatch(channels: map<nat, Channel>, channelId: string, cursor: Option<string>, botUser: UserId, search: Search)
    ensures var batch := UnreadBatch(channels, RoundArgs(channelId, cursor), botUser, search);
      var ms := RoundFetch(channels, channelId, cursor);
      (batch.Ok? ==> |batch.value| == |ms| && forall i :: 0 <= i < |ms| ==> batch.value[i] == ToRecord(ms[i]))
      && (batch.Err? ==> ms == [])
  {
    var args := RoundArgs(channelId, cursor);
    UnfilteredKeepsAll(RoundFetch(channels, channelId, cursor), args, botUser, search);
  }

  /** The agent parses back exactly the records of what the server fetched. */
  lemma RoundIsFetch(channels: map<nat, Channel>, channelId: string, cursor: Option<string>, botUser: UserId, search: Search)
    requires AllValid(channels) && AllPrintable(channels)
    ensures var ms := RoundFetch(channels, channelId, cursor);
      var b := Round(channels, channelId, cursor, botUser, search);
      |b| == |ms| && forall i :: 0 <= i < |ms| ==> b[i] == ToRecord(ms[i])
  {
    var batch := UnreadBatch(channels, RoundArgs(channelId, cursor), botUser, search);
    var ms := RoundFetch(channels, channelId, cursor);
    RoundBatch(channels, channelId, cursor, botUser, search);
    if batch.Ok? {
      RoundFetchFromChannel(channels, channelId, cursor);
      forall k | 0 <= k < |batch.value| ensures Printable(batch.value[k]) {
        assert ms[k] in channels[Read(channelId)].messages;
      }
      ParseFormatted(batch.value);
    }
  }

  /** On delimited channels the agent reads one entry per fetched message, with that message's id. */
  lemma RoundIds(channels: map<nat, Channel>, channelId: string, cursor: Option<string>, botUser: UserId, search: Search)
    requires AllValid(channels) && AllDelimited(channels)
    ensures var ms := RoundFetch(channels, channelId, cursor);
      var b := Round(channels, channelId, cursor, botUser, search);
      |b| == |ms| && forall i :: 0 <= i < |ms| ==> b[i].id == Show(ms[i].id)
  {
    var batch := UnreadBatch(channels, RoundArgs(channelId, cursor), botUser, search);
    var ms := RoundFetch(channels, channelId, cursor);
    RoundBatch(channels, channelId, cursor, botUser, search);
    if batch.Ok? {
      RoundFetchFromChannel(channels, channelId, cursor);
      forall k | 0 <= k < |batch.value| ensures Delimited(batch.value[k]) {
        assert ms[k] in channels[Read(channelId)].messages;
      }
      ParseIds(batch.value);
    }
  }

  /** After a cursor, a round fetches messages newer than the cursor, oldest first. */
  lemma RoundFetchAfterCursor(channels: map<nat, Channel>, channelId: string, cursor: Option<string>)
    requires AllValid(channels)
    requires Truthy(cursor) && IsDecimal(cursor.value)
    ensures IdsIncreasing(RoundFetch(channels, channelId, cursor))
    ensures forall i :: 0 <= i < |RoundFetch(channels, channelId, cursor)| ==>
      RoundFetch(channels, channelId, cursor)[i].id > Read(cursor.value)
  {
    if IsDecimal(channelId) && Read(channelId) in channels {
      SinceFetchOrder(channels[Read(channelId)], Read(cursor.value), UnreadLimit(None));
    }
  }

  /**
   * What a round delivers: entries with decimal ids and, after a cursor, only ids newer than
   * the cursor.
   */
  lemma RoundFacts(channels: map<nat, Channel>, channelId: string, cursor: Option<string>, botUser: UserId, search: Search)
    requires AllValid(channels) && AllDelimited(channels)
    requires cursor.Some? ==> IsDecimal(cursor.value)
    ensures var b := Round(channels, channelId, cursor, botUser, search);
      (forall j :: 0 <= j < |b| ==> IsDecimal(b[j].id))
      && (cursor.Some? ==> forall j :: 0 <= j < |b| ==> IdValue(b[j].id) > IdValue(cursor.value))
  {
    var ms := RoundFetch(channels, channelId, cursor);
    RoundIds(channels, channelId, cursor, botUser, search);
    forall j | 0 <= j < |ms| ensures IsDecimal(Show(ms[j].id)) && IdValue(Show(ms[j].id)) == ms[j].id {
      ReadShow(ms[j].id);
    }
    if cursor.Some? {
      RoundFetchAfterCursor(channels, channelId, cursor);
    }
  }

  /**
   * After a cursor the batch is oldest first, so the cursor as written and the corrected rule
   * move it to the same id: the finding below concerns the cold start only.
   */
  lemma SinceRoundAdvanceAgrees(channels: map<nat, Channel>, channelId: string, cursor: Option<string>, botUser: UserId, search: Search)
    requires AllValid(channels) && AllDelimited(channels)
    requires cursor.Some? && IsDecimal(cursor.value)
    ensures var b := Round(channels, channelId, cursor, botUser, search);
      AdvanceAsWritten(cursor, b) == AdvanceToNewest(cursor, b)
  {
    var ms := RoundFetch(channels, channelId, cursor);
    var b := Round(channels, channelId, cursor, botUser, search);
    RoundIds(channels, channelId, cursor, botUser, search);
    RoundFetchAfterCursor(channels, channelId, cursor);
    forall j | 0 <= j < |ms| ensures IdValue(b[j].id) == ms[j].id {
      ReadShow(ms[j].id);
    }
    AdvanceRulesAgreeWhenAscending(cursor, b);
  }

  /**
   * The agent's bookkeeping after some rounds: every id it processed is decimal and not newer
   * than the cursor, and each round's batch is newer than every batch before it.
   */
  predicate Processed(batches: seq<seq<Record>>, cursor: Option<string>) {
    (cursor.Some? ==> IsDecimal(cursor.value))
    && (forall k, j :: 0 <= k < |batches| && 0 <= j < |batches[k]| ==> IsDecimal(batches[k][j].id))
    && (cursor.None? ==> forall k :: 0 <= k < |batches| ==> batches[k] == [])
    && (cursor.Some? ==> forall k, j :: 0 <= k < |batches| && 0 <= j < |batches[k]| ==>
          IdValue(batches[k][j].id) <= IdValue(cursor.value))
    && (forall k, l, a, b :: 0 <= k < l < |batches| && 0 <= a < |batches[k]| && 0 <= b < |batches[l]| ==>
          IdValue(batches[k][a].id) < IdValue(batches[l][b].id))
  }

  /** A batch newer than the cursor extends the bookkeeping, with the cursor moved to its newest id. */
  lemma ExtendProcessed(batches: seq<seq<Record>>, cursor: Option<string>, messages: seq<Record>)
    requires Processed(batches, cursor)
    requires forall j :: 0 <= j < |messages| ==> IsDecimal(messages[j].id)
    requires cursor.Some? ==> forall j :: 0 <= j < |messages| ==> IdValue(messages[j].id) > IdValue(cursor.value)
    ensures Processed(batches + [messages], AdvanceToNewest(cursor, messages))
  {
    var next := AdvanceToNewest(cursor, messages);
    var all := batches + [messages];
    var n := |batches|;
    assert forall k :: 0 <= k < n ==> all[k] == batches[k];
    assert all[n] == messages;
    if messages != [] {
      var k :| 0 <= k < |messages| && next.value == messages[k].id;
      assert IsDecimal(next.value);
    }
    forall k, j | 0 <= k < |all| && 0 <= j < |all[k]|
      ensures IsDecimal(all[k][j].id) && next.Some? && IdValue(all[k][j].id) <= IdValue(next.value)
    {
      if k == n {
        assert all[k][j] == messages[j];
      } else {
        assert all[k][j] == batches[k][j];
        assert cursor.Some?;
      }
    }
    forall k, l, a, b | 0 <= k < l < |all| && 0 <= a < |all[k]| && 0 <= b < |all[l]|
      ensures IdValue(all[k][a].id) < IdValue(all[l][b].id)
    {
      if l == n {
        assert all[k][a] == batches[k][a] && all[l][b] == messages[b];
        assert cursor.Some?;
      } else {
        assert all[k][a] == batches[k][a] && all[l][b] == batches[l][b];
      }
    }
  }

  /** One round: ask for what arrived since the cursor and parse the reply. */
  method AgentRound(bot: Bot, channelId: string, channels: map<nat, Channel>, cursor: Option<string>, search: Search)
    returns (messages: seq<Record>)
    ensures messages == Round(channels, channelId, cursor, bot.user, search)
  {
    var args := RoundArgs(channelId, cursor);
    var reply := GetUnreadMessages(bot, channels, args, search);
    messages := ParseMessages(if reply.Ok? then Some(reply.value) else None);
  }

  /**
   * The agent's loop with the cursor moved to the newest message of each batch: one call of
   * `get_unread_messages` per round, each against the channels as they are in that round. No
   * message is processed twice, and every batch is newer than all the batches before it.
   */
  method RunAgent(bot: Bot, channelId: string, worlds: seq<map<nat, Channel>>, search: Search)
    returns (batches: seq<seq<Record>>, cursor: Option<string>)
    requires forall i :: 0 <= i < |worlds| ==> AllValid(worlds[i]) && AllDelimited(worlds[i])
    ensures |batches| == |worlds|
    ensures forall k, j :: 0 <= k < |batches| && 0 <= j < |batches[k]| ==> IsDecimal(batches[k][j].id)
    ensures forall k, l, a, b :: 0 <= k < l < |batches| && 0 <= a < |batches[k]| && 0 <= b < |batches[l]| ==>
      IdValue(batches[k][a].id) < IdValue(batches[l][b].id)
    ensures cursor.None? ==> forall k :: 0 <= k < |batches| ==> batches[k] == []
    ensures cursor.Some? ==> forall k, j :: 0 <= k < |batches| && 0 <= j < |batches[k]| ==>
      IdValue(batches[k][j].id) <= IdValue(cursor.value)
  {
    batches := [];
    cursor := None;
    for i := 0 to |worlds|
      invariant |batches| == i
      invariant Processed(batches, cursor)
    {
      var messages := AgentRound(bot, channelId, worlds[i], cursor, search);
      RoundFacts(worlds[i], channelId, cursor, bot.user, search);
      ExtendProcessed(batches, cursor, messages);
      batches := batches + [messages];
      cursor := AdvanceToNewest(cursor, messages);
    }
  }

  /**
   * The reply is text, so a message can forge an entry: content that holds "\nID: " followed by
   * an id reads back as a second entry with that id, and the cursor as written takes it.
   */
  lemma ContentForgesEntry(h: Record, forged: string, cursor: Option<string>)
    requires Delimited(h) && IsDecimal(forged)
    ensures var parsed := ParsedEntries(FormatUnread([h.(content := h.content + EntrySep + forged)]));
      |parsed| == 2 && parsed[0].id == h.id && parsed[1].id == forged
      && AdvanceAsWritten(cursor, parsed) == Some(forged)
  {
    var r := h.(content := h.content + EntrySep + forged);
    ForgedSplit(h, forged);
    assert Split(FormatUnread([r]), EntrySep)[1..] == [Line(h), forged];
    ForgedPieces(h, forged);
  }

  /** The parser cuts that reply into the header, the message's own line and the forged id. */
  lemma ForgedSplit(h: Record, forged: string)
    requires Delimited(h) && IsDecimal(forged)
    ensures Split(FormatUnread([h.(content := h.content + EntrySep + forged)]), EntrySep) == [HeadPiece(1), Line(h), forged]
  {
    ForgedReply(h, forged);
    SplitThree(h, forged);
  }

  lemma SplitThree(h: Record, forged: string)
    requires Delimited(h) && IsDecimal(forged)
    ensures Split(Join(EntrySep, [HeadPiece(1), Line(h), forged]), EntrySep) == [HeadPiece(1), Line(h), forged]
  {
    var pieces := [HeadPiece(1), Line(h), forged];
    forall k | 0 <= k < |pieces| ensures !Contains(pieces[k], EntrySep) {
      if k == 0 {
        HeadPieceHasNoSep(1);
      } else if k == 1 {
        LineHasNoSep(h);
      } else {
        IdsHaveNoNewline(forged);
        NoCharNoFind(forged, EntrySep);
      }
    }
    SplitJoin(pieces, EntrySep);
  }

  /** The two pieces after the header parse to the message's own id and the forged one. */
  lemma ForgedPieces(h: Record, forged: string)
    requires Delimited(h) && IsDecimal(forged)
    ensures |ParsePieces([Line(h), forged])| == 2
    ensures ParsePieces([Line(h), forged])[0].id == h.id && ParsePieces([Line(h), forged])[1].id == forged
  {
    ParsedAt([Line(h), forged], 0);
    ParsedAt([Line(h), forged], 1);
    ParsedIdOfLine(h);
    IdsHaveNoNewline(forged);
    NoCharNoFind(forged, "\n");
    StripTrimmed(forged);
  }

  /** The reply for a message whose content holds the separator, cut where the parser cuts it. */
  lemma ForgedReply(h: Record, forged: string)
    ensures FormatUnread([h.(content := h.content + EntrySep + forged)]) == Join(EntrySep, [HeadPiece(1), Line(h), forged])
  {
    var r := h.(content := h.content + EntrySep + forged);
    var pieces := [HeadPiece(1), Line(h), forged];
    assert Line(r) == Line(h) + EntrySep + forged;
    FormatAsJoin([r]);
    assert [HeadPiece(1)] + Lines([r]) == [HeadPiece(1), Line(r)];
    assert pieces[1..] == [Line(h), forged];
    assert Join(EntrySep, pieces[1..]) == Line(h) + EntrySep + forged;
  }

  // ---------------------------------------------------------------------------------------
  // Rounds after a cursor tile the history.

  /** A fetch after the message at position `p` returns the messages right after it, oldest first. */
  lemma FetchAfterPosition(ch: Channel, p: nat, limit: int)
    requires ValidChannel(ch) && p < |ch.messages|
    ensures var ms := Fetched(ch, Some(ch.messages[p].id), limit);
      |ms| == Room(limit, |ch.messages| - p - 1)
      && forall i :: 0 <= i < |ms| ==> ms[i] == ch.messages[p + 1 + i]
  {
    SinceFetchIsPage(ch, ch.messages[p].id, limit);
    HistoryAfterPosition(ch, p, limit);
  }

  /** A round whose cursor is the id `x` fetches what the channel's history holds after `x`. */
  lemma RoundFetchAfterId(channels: map<nat, Channel>, channelId: string, ch: Channel, x: nat)
    requires IsDecimal(channelId) && Read(channelId) in channels && channels[Read(channelId)] == ch
    ensures RoundFetch(channels, channelId, Some(Show(x))) == Fetched(ch, Some(x), UnreadLimit(None))
  {
    ParseShow(x);
  }

  /** `b` holds the ids of the messages of `ms` after position `p`, oldest first. */
  predicate IdsAfter(b: seq<Record>, ms: seq<Message>, p: nat) {
    p + |b| < |ms| && forall i :: 0 <= i < |b| ==> b[i].id == Show(ms[p + 1 + i].id)
  }

  /** On delimited channels, a round after position `p` delivers the ids right after it, oldest first. */
  lemma RoundAfterIds(channels: map<nat, Channel>, channelId: string, ch: Channel, p: nat, botUser: UserId, search: Search)
    requires AllValid(channels) && AllDelimited(channels)
    requires IsDecimal(channelId) && Read(channelId) in channels && channels[Read(channelId)] == ch
    requires p < |ch.messages|
    ensures |Round(channels, channelId, Some(Show(ch.messages[p].id)), botUser, search)| == Room(UnreadLimit(None), |ch.messages| - p - 1)
    ensures IdsAfter(Round(channels, channelId, Some(Show(ch.messages[p].id)), botUser, search), ch.messages, p)
  {
    var x := ch.messages[p].id;
    RoundFetchAfterId(channels, channelId, ch, x);
    RoundIds(channels, channelId, Some(Show(x)), botUser, search);
    FetchAfterPosition(ch, p, UnreadLimit(None));
  }

  /**
   * Rounds after a cursor leave no gap: a round whose cursor is the message at position `p`
   * delivers the ids at `p + 1`, `p + 2`, ... in order, as many as the limit allows, and leaves
   * the cursor on the last of them, which is where the next round starts.
   */
  lemma RoundsTile(channels: map<nat, Channel>, channelId: string, ch: Channel, p: nat, botUser: UserId, search: Search)
    requires AllValid(channels) && AllDelimited(channels)
    requires IsDecimal(channelId) && Read(channelId) in channels && channels[Read(channelId)] == ch
    requires p < |ch.messages|
    ensures var cursor := Some(Show(ch.messages[p].id));
      var b := Round(channels, channelId, cursor, botUser, search);
      Tiles(cursor, b, ch.messages, p, UnreadLimit(None))
  {
    var cursor := Some(Show(ch.messages[p].id));
    var b := Round(channels, channelId, cursor, botUser, search);
    RoundAfterIds(channels, channelId, ch, p, botUser, search);
    SinceRoundAdvanceAgrees(channels, channelId, cursor, botUser, search);
    LastAfter(cursor, b, ch.messages, p);
  }

  /**
   * `b` is the round after the message at position `p` of `ms`: the ids right after it, as many
   * as the limit allows, with the cursor moved onto the last of them.
   */
  predicate Tiles(cursor: Option<string>, b: seq<Record>, ms: seq<Message>, p: nat, limit: int) {
    IdsAfter(b, ms, p) && |b| == Room(limit, |ms| - p - 1)
    && AdvanceToNewest(cursor, b) == Some(Show(ms[p + |b|].id))
  }

  /** The cursor as written, after a batch of the ids right after position `p`, is on the last of them. */
  lemma LastAfter(cursor: Option<string>, b: seq<Record>, ms: seq<Message>, p: nat)
    requires IdsAfter(b, ms, p) && cursor == Some(Show(ms[p].id))
    ensures AdvanceAsWritten(cursor, b) == Some(Show(ms[p + |b|].id))
  {
    if b != [] {
      assert b[|b| - 1].id == Show(ms[p + 1 + (|b| - 1)].id);
    }
  }

  // ---------------------------------------------------------------------------------------
  // The cursor as written, on a cold start.

  /** A cold-start round delivers the newest messages of channel `ch`, newest first. */
  lemma ColdRound(channels: map<nat, Channel>, channelId: string, ch: Channel, botUser: UserId, search: Search)
    requires AllValid(channels) && AllPrintable(channels)
    requires IsDecimal(channelId) && Read(channelId) in channels && channels[Read(channelId)] == ch
    ensures |Round(channels, channelId, None, botUser, search)| == Room(UnreadLimit(None), |ch.messages|)
    ensures NewestFirst(Round(channels, channelId, None, botUser, search), ch.messages)
  {
    RoundIsFetch(channels, channelId, None, botUser, search);
    ColdFetchOrder(ch, UnreadLimit(None));
  }

  /** A round after the message at position `p` of channel `ch` delivers the messages after it, oldest first. */
  lemma RoundAfter(channels: map<nat, Channel>, channelId: string, ch: Channel, p: nat, botUser: UserId, search: Search)
    requires AllValid(channels) && AllPrintable(channels)
    requires IsDecimal(channelId) && Read(channelId) in channels && channels[Read(channelId)] == ch
    requires p < |ch.messages|
    ensures |Round(channels, channelId, Some(Show(ch.messages[p].id)), botUser, search)| == Room(UnreadLimit(None), |ch.messages| - p - 1)
    ensures OldestFirstAfter(Round(channels, channelId, Some(Show(ch.messages[p].id)), botUser, search), ch.messages, p)
  {
    var x := ch.messages[p].id;
    var ms := Fetched(ch, Some(x), UnreadLimit(None));
    RoundFetchAfterId(channels, channelId, ch, x);
    RoundIsFetch(channels, channelId, Some(Show(x)), botUser, search);
    FetchAfterPosition(ch, p, UnreadLimit(None));
    RecordsOfRun(Round(channels, channelId, Some(Show(x)), botUser, search), ms, ch.messages, p);
  }

  /** The records of a run of messages that starts right after position `p` of `ms`. */
  lemma RecordsOfRun(b: seq<Record>, run: seq<Message>, ms: seq<Message>, p: nat)
    requires |b| == |run| && forall i :: 0 <= i < |run| ==> b[i] == ToRecord(run[i])
    requires p + |run| < |ms| && forall i :: 0 <= i < |run| ==> run[i] == ms[p + 1 + i]
    ensures OldestFirstAfter(b, ms, p)
  {
  }

  /** `second` hands back every entry of `first` but its last, in the opposite order. */
  predicate Redelivers(first: seq<Record>, second: seq<Record>) {
    |first| >= 2 && |second| == |first| - 1
    && forall j :: 0 <= j < |second| ==> second[j] == first[|first| - 2 - j]
  }

  /** `first` holds the records of the newest messages of `ms`, newest first. */
  predicate NewestFirst(first: seq<Record>, ms: seq<Message>) {
    |first| <= |ms| && forall i :: 0 <= i < |first| ==> first[i] == ToRecord(ms[|ms| - 1 - i])
  }

  /** The records of the messages of `ms` after position `p`, oldest first. */
  predicate OldestFirstAfter(second: seq<Record>, ms: seq<Message>, p: nat) {
    p + |second| < |ms| && forall i :: 0 <= i < |second| ==> second[i] == ToRecord(ms[p + 1 + i])
  }

  /** On a newest-first batch, the cursor as written lands on the oldest message of the batch. */
  lemma LastIsOldest(first: seq<Record>, ms: seq<Message>)
    requires NewestFirst(first, ms) && first != []
    ensures AdvanceAsWritten(None, first) == Some(Show(ms[|ms| - |first|].id))
  {
    assert first[|first| - 1] == ToRecord(ms[|ms| - |first|]);
  }

  /** Fetching after the oldest entry of a newest-first batch hands the rest of it back. */
  lemma RestRedelivered(first: seq<Record>, second: seq<Record>, ms: seq<Message>)
    requires NewestFirst(first, ms) && |first| >= 2
    requires OldestFirstAfter(second, ms, |ms| - |first|) && |second| == |first| - 1
    ensures Redelivers(first, second)
  {
    var n, k := |ms|, |first|;
    forall j | 0 <= j < |second| ensures second[j] == first[k - 2 - j] {
      assert second[j] == ToRecord(ms[n - k + 1 + j]);
      assert first[k - 2 - j] == ToRecord(ms[n - 1 - (k - 2 - j)]);
    }
  }

  /**
   * On a cold start the reply is newest first, so `messages[-1]` is the oldest entry: the
   * next round, after that cursor, fetches every other message of the first batch again.
   */
  lemma ColdStartRedelivers(channels: map<nat, Channel>, channelId: string, botUser: UserId, search: Search)
    requires AllValid(channels) && AllPrintable(channels)
    requires IsDecimal(channelId) && Read(channelId) in channels
    requires |channels[Read(channelId)].messages| >= 2
    ensures Redelivers(Round(channels, channelId, None, botUser, search),
      Round(channels, channelId, AdvanceAsWritten(None, Round(channels, channelId, None, botUser, search)), botUser, search))
  {
    var ch := channels[Read(channelId)];
    var n := |ch.messages|;
    var first := Round(channels, channelId, None, botUser, search);
    ColdRound(channels, channelId, ch, botUser, search);
    var k := |first|;
    LastIsOldest(first, ch.messages);
    RoundAfter(channels, channelId, ch, n - k, botUser, search);
    var second := Round(channels, channelId, AdvanceAsWritten(None, first), botUser, search);
    RestRedelivered(first, second, ch.messages);
  }

  /** `first` holds the ids of the newest messages of `ms`, newest first. */
  predicate NewestIdsFirst(first: seq<Record>, ms: seq<Message>) {
    |first| <= |ms| && forall i :: 0 <= i < |first| ==> first[i].id == Show(ms[|ms| - 1 - i].id)
  }

  /** On delimited channels, a cold-start round delivers the ids of the newest messages, newest first. */
  lemma ColdRoundIds(channels: map<nat, Channel>, channelId: string, ch: Channel, botUser: UserId, search: Search)
    requires AllValid(channels) && AllDelimited(channels)
    requires IsDecimal(channelId) && Read(channelId) in channels && channels[Read(channelId)] == ch
    ensures |Round(channels, channelId, None, botUser, search)| == Room(UnreadLimit(None), |ch.messages|)
    ensures NewestIdsFirst(Round(channels, channelId, None, botUser, search), ch.messages)
  {
    RoundIds(channels, channelId, None, botUser, search);
    ColdFetchOrder(ch, UnreadLimit(None));
  }

  /** On a newest-first batch of an ascending history, the newest entry is the channel's newest message. */
  lemma NewestIsLatest(first: seq<Record>, ms: seq<Message>)
    requires NewestIdsFirst(first, ms) && first != []
    requires IdsIncreasing(ms)
    ensures AdvanceToNewest(None, first) == Some(Show(ms[|ms| - 1].id))
  {
    var n := |ms|;
    var m := NewestIndex(first);
    ReadShow(ms[n - 1 - m].id);
    ReadShow(ms[n - 1].id);
    assert IdValue(first[m].id) == ms[n - 1 - m].id;
    assert IdValue(first[0].id) == ms[n - 1].id;
    assert ms[n - 1 - m].id >= ms[n - 1].id;
    assert m == 0;
  }

  /** With the cursor on the newest message, a second round over the same history fetches nothing. */
  lemma ColdStartCorrected(channels: map<nat, Channel>, channelId: string, botUser: UserId, search: Search)
    requires AllValid(channels) && AllDelimited(channels)
    requires IsDecimal(channelId) && Read(channelId) in channels
    ensures Round(channels, channelId, AdvanceToNewest(None, Round(channels, channelId, None, botUser, search)), botUser, search) == []
  {
    var ch := channels[Read(channelId)];
    var first := Round(channels, channelId, None, botUser, search);
    ColdRoundIds(channels, channelId, ch, botUser, search);
    if first != [] {
      NewestIsLatest(first, ch.messages);
      RoundAfterIds(channels, channelId, ch, |ch.messages| - 1, botUser, search);
    }
  }
}
