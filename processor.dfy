/** The document builder: turns a root message and its replies into one or more
    fixed-size documents with stable identifiers (src/processor.py). */
module Processor {
  import opened Wrappers
  import opened Text
  import opened Records

  /** Target document size before chunking. */
  const MaxChars: nat := 1500
  /** Characters shared by consecutive chunks. */
  const Overlap: nat := 200
  /** How far each chunk starts after the previous one: `start = end - overlap`. */
  const Stride: nat := MaxChars - Overlap

  function Min(a: int, b: int): int {
    if a <= b then a else b
  }

  // ---------------------------------------------------------------- chunking

  /** `text[start : start + MaxChars]`, cut short at the end of the text as a Python slice is. */
  function Window(text: string, start: nat): string
    requires start <= |text|
  {
    text[start..Min(start + MaxChars, |text|)]
  }

  /** The windows starting at `start`, `start + Stride`, ... for every start below `|text|`. */
  function Windows(text: string, start: nat): seq<string>
    decreases |text| - start
  {
    if start >= |text| then [] else [Window(text, start)] + Windows(text, start + Stride)
  }

  /** The chunks `_chunk` returns for `text`. */
  function Chunks(text: string): seq<string> {
    if |text| <= MaxChars then [text] else Windows(text, 0)
  }

  /** Number of chunks: one for a short text, otherwise ceil(len / Stride), the
      number of window starts below the length. */
  function ChunkCount(n: nat): nat {
    if n <= MaxChars then 1 else (n + Stride - 1) / Stride
  }

  /** `_chunk`: a sliding window MaxChars wide that advances by Stride. */
  method Chunk(text: string) returns (chunks: seq<string>)
    ensures chunks == Chunks(text)
  {
    if |text| <= MaxChars {
      return [text];
    }
    chunks := [];
    var start := 0;
    while start < |text|
      invariant chunks + Windows(text, start) == Windows(text, 0)
      decreases |text| - start
    {
      var end := start + MaxChars;
      chunks := chunks + [text[start..Min(end, |text|)]];
      start := end - Overlap;
    }
  }

  lemma {:induction false} WindowsCount(text: string, start: nat)
    ensures |Windows(text, start)| == if start >= |text| then 0 else (|text| - start + Stride - 1) / Stride
    decreases |text| - start
  {
    if start < |text| {
      WindowsCount(text, start + Stride);
    }
  }

  lemma {:induction false} WindowsAt(text: string, start: nat, i: nat)
    requires start + Stride * i < |text|
    ensures i < |Windows(text, start)|
    ensures Windows(text, start)[i] == Window(text, start + Stride * i)
    decreases i
  {
    if i > 0 {
      StrideStep(start, i - 1);
      WindowsAt(text, start + Stride, i - 1);
      assert Windows(text, start) == [Window(text, start)] + Windows(text, start + Stride);
    }
  }

  /** One more stride: the window after `start + Stride * j` is `start + Stride * (j + 1)`. */
  lemma StrideStep(start: nat, j: nat)
    ensures start + Stride + Stride * j == start + Stride * (j + 1)
  {
  }

  /** The layout of `_chunk`'s result: `[text]` for a short text; otherwise
      ChunkCount(|text|) chunks (at least two), chunk i being
      `text[Stride * i : Stride * i + MaxChars]`, each non-empty and at most MaxChars long. */
  lemma ChunkLayout(text: string)
    ensures |text| <= MaxChars ==> Chunks(text) == [text]
    ensures |text| > MaxChars ==>
      && |Chunks(text)| == ChunkCount(|text|) >= 2
      && forall i :: 0 <= i < |Chunks(text)| ==>
           && Stride * i < |text|
           && Chunks(text)[i] == text[Stride * i..Min(Stride * i + MaxChars, |text|)]
           && 0 < |Chunks(text)[i]| <= MaxChars
  {
    if |text| > MaxChars {
      WindowsCount(text, 0);
      forall i | 0 <= i < |Chunks(text)|
        ensures Stride * i < |text|
        ensures Chunks(text)[i] == text[Stride * i..Min(Stride * i + MaxChars, |text|)]
      {
        assert Stride * i < |text|;
        WindowsAt(text, 0, i);
      }
    }
  }

  /** Python's `s[k:]`: empty when `s` is shorter than `k`. */
  function DropPrefix(s: string, k: nat): string {
    if k <= |s| then s[k..] else []
  }

  /** The chunks after the first, each without the part it shares with its predecessor. */
  function DropOverlaps(chunks: seq<string>): string {
    if chunks == [] then [] else DropPrefix(chunks[0], Overlap) + DropOverlaps(chunks[1..])
  }

  /** Chunk 0 followed by every later chunk with its first Overlap characters removed. */
  function Reassemble(chunks: seq<string>): string
    requires chunks != []
  {
    chunks[0] + DropOverlaps(chunks[1..])
  }

  lemma {:induction false} WindowsReassemble(text: string, start: nat)
    ensures DropOverlaps(Windows(text, start)) == text[Min(start + Overlap, |text|)..]
    decreases |text| - start
  {
    if start < |text| {
      var e := Min(start + MaxChars, |text|);
      WindowsReassemble(text, start + Stride);
      assert Windows(text, start)[1..] == Windows(text, start + Stride);
      assert DropPrefix(Window(text, start), Overlap) == text[Min(start + Overlap, |text|)..e];
      assert text[Min(start + Overlap, |text|)..e] + text[e..] == text[Min(start + Overlap, |text|)..];
    }
  }

  /** The overlaps are exact: removing them from the chunks gives the text back. */
  lemma ChunksReassemble(text: string)
    ensures Chunks(text) != [] && Reassemble(Chunks(text)) == text
  {
    if |text| > MaxChars {
      WindowsReassemble(text, Stride);
      assert Chunks(text) == [Window(text, 0)] + Windows(text, Stride);
      assert Chunks(text)[1..] == Windows(text, Stride);
      assert text[..MaxChars] + text[MaxChars..] == text;
    }
  }

  predicate IsSuffix(a: string, b: string) {
    |a| <= |b| && b[|b| - |a|..] == a
  }

  /** The loop emits one more window after the previous one has reached the end of
      the text exactly when the tail left over is at most Overlap characters; that
      last chunk then lies wholly inside its predecessor. */
  lemma TrailingChunk(text: string)
    requires |text| > MaxChars
    ensures var cs := Chunks(text); var k := |cs|;
      && k >= 2
      && (Stride * (k - 2) + MaxChars >= |text| <==> |cs[k - 1]| <= Overlap)
      && (|cs[k - 1]| <= Overlap ==> IsSuffix(cs[k - 1], cs[k - 2]))
  {
    ChunkLayout(text);
    var cs := Chunks(text);
    var k := |cs|;
    WindowsCount(text, 0);
    assert Stride * (k - 1) < |text| <= Stride * k;
    if |cs[k - 1]| <= Overlap {
      assert cs[k - 2] == text[Stride * (k - 2)..];
      assert cs[k - 1] == text[Stride * (k - 1)..];
    }
  }

  /** A 3000-character text yields three chunks; so does a 2700-character one, whose
      last chunk (100 characters) repeats the end of the second. */
  lemma ChunkCountExamples()
    ensures ChunkCount(3000) == 3 && ChunkCount(2700) == 3 && ChunkCount(2600) == 2
    ensures ChunkCount(1500) == 1 && ChunkCount(1501) == 2
  {
  }

  // ------------------------------------------------------------- identifiers

  /** UUID namespace of RFC 4122 Appendix C for fully-qualified domain names. */
  const DnsNamespace: string := "6ba7b810-9dad-11d1-80b4-00c04fd430c8"

  /** A name-based (version 5, SHA-1) UUID of RFC 4122 section 4.3, kept symbolic:
      two ids are equal exactly when namespace and name are, i.e. SHA-1 is taken as
      collision-free. */
  datatype Uuid = Uuid5(namespace: string, name: string)

  /** The name hashed for a chunk: `f"{channel_id}:{ts}:{chunk_idx}"`. */
  function IdName(channelId: string, ts: string, idx: nat): string {
    channelId + ":" + ts + ":" + NatToString(idx)
  }

  /** `_make_id`. */
  function MakeId(channelId: string, ts: string, idx: nat): Uuid {
    Uuid5(DnsNamespace, IdName(channelId, ts, idx))
  }

  /** The index is recoverable from the name: chunks of one message get distinct ids. */
  lemma MakeIdDistinctChunks(channelId: string, ts: string, i: nat, j: nat)
    requires i != j
    ensures MakeId(channelId, ts, i) != MakeId(channelId, ts, j)
  {
    var p := channelId + ":" + ts + ":";
    if MakeId(channelId, ts, i) == MakeId(channelId, ts, j) {
      assert p + NatToString(i) == p + NatToString(j);
      assert NatToString(i) == (p + NatToString(i))[|p|..];
      assert NatToString(j) == (p + NatToString(j))[|p|..];
      NatToStringInjective(i, j);
      assert false;
    }
  }

  /** Different (channel, ts, index) triples get different ids, provided channel
      ids contain no colon (Slack's never do). */
  lemma MakeIdInjective(c1: string, t1: string, i1: nat, c2: string, t2: string, i2: nat)
    requires ':' !in c1 && ':' !in c2
    requires MakeId(c1, t1, i1) == MakeId(c2, t2, i2)
    ensures c1 == c2 && t1 == t2 && i1 == i2
  {
    var d1, d2 := NatToString(i1), NatToString(i2);
    assert IdName(c1, t1, i1) == c1 + ":" + (t1 + ":" + d1);
    assert IdName(c2, t2, i2) == c2 + ":" + (t2 + ":" + d2);
    SplitAtFirstColon(c1, t1 + ":" + d1, c2, t2 + ":" + d2);
    assert ':' !in d1 && ':' !in d2 by {
      assert forall i :: 0 <= i < |d1| ==> IsDigit(d1[i]);
      assert forall i :: 0 <= i < |d2| ==> IsDigit(d2[i]);
    }
    SplitAtLastColon(t1, d1, t2, d2);
    NatToStringInjective(i1, i2);
  }

  /** A colon-free head is told apart by the first colon. */
  lemma SplitAtFirstColon(a1: string, b1: string, a2: string, b2: string)
    requires ':' !in a1 && ':' !in a2
    requires a1 + ":" + b1 == a2 + ":" + b2
    ensures a1 == a2 && b1 == b2
  {
    var n := a1 + ":" + b1;
    assert n[|a1|] == ':' && n[|a2|] == ':';
    assert a1 == n[..|a1|] && a2 == n[..|a2|];
    assert b1 == n[|a1| + 1..] && b2 == n[|a2| + 1..];
  }

  /** A colon-free tail is told apart by the last colon. */
  lemma SplitAtLastColon(a1: string, b1: string, a2: string, b2: string)
    requires ':' !in b1 && ':' !in b2
    requires a1 + ":" + b1 == a2 + ":" + b2
    ensures a1 == a2 && b1 == b2
  {
    var n := a1 + ":" + b1;
    assert n[|n| - |b1| - 1] == ':' && n[|n| - |b2| - 1] == ':';
    assert b1 == n[|n| - |b1|..] && b2 == n[|n| - |b2|..];
    assert a1 == n[..|a1|] && a2 == n[..|a2|];
  }

  // -------------------------------------------------------------- formatting

  /** `msg.get("text", "")`. */
  function TextOf(msg: Message): string {
    msg.text.GetOr("")
  }

  /** `msg.get("user", "unknown")`. */
  function UserOf(msg: Message): string {
    msg.user.GetOr("unknown")
  }

  /** `msg.get("thread_ts") or msg["ts"]`: a missing or empty thread marker means the
      message is its own thread root. */
  function ThreadTsOf(msg: Message): string {
    if msg.threadTs.Some? && msg.threadTs.value != "" then msg.threadTs.value else msg.ts
  }

  /** `channel.get("name", channel_id)`. */
  function ChannelName(channel: Channel): string {
    channel.name.GetOr(channel.id)
  }

  /** The collaborators the builder is handed: Slack markup resolution, the
      (cached) user-name lookup, and `_ts_to_date`, which yields "" for a
      timestamp it cannot convert. */
  datatype Resolvers = Resolvers(
    resolveText: string -> string,
    userName: string -> string,
    tsToDate: string -> string)

  /** The resolved, stripped text of a message. */
  function Content(msg: Message, resolveText: string -> string): string {
    Strip(resolveText(TextOf(msg)))
  }

  /** `_format_message`: "" for a message without content, otherwise
      `"[" + name + "]: " + content`; a non-empty line starts with '[' and is trimmed. */
  function FormatMessage(msg: Message, userName: string, resolveText: string -> string): (line: string)
    ensures line == [] <==> Content(msg, resolveText) == []
    ensures line != [] ==> line == "[" + userName + "]: " + Content(msg, resolveText)
    ensures line != [] ==> line[0] == '[' && Trimmed(line)
  {
    var text := Content(msg, resolveText);
    if text == [] then [] else
      StripResultTrimmed(resolveText(TextOf(msg)));
      "[" + userName + "]: " + text
  }

  function LineOf(msg: Message, res: Resolvers): string {
    FormatMessage(msg, res.userName(UserOf(msg)), res.resolveText)
  }

  /** A message whose line is dropped. */
  predicate Blank(msg: Message, res: Resolvers) {
    Content(msg, res.resolveText) == []
  }

  /** `if line: lines.append(line)` as the list appended: `[line]` or nothing. */
  function Kept(line: string): seq<string> {
    if line == [] then [] else [line]
  }

  /** The kept lines of the replies, in the order supplied. */
  function ReplyLines(replies: seq<Message>, res: Resolvers): seq<string> {
    if replies == [] then []
    else Kept(LineOf(replies[0], res)) + ReplyLines(replies[1..], res)
  }

  /** `lines` in `build_documents`: the root's line, then the replies' lines, empty ones dropped. */
  function Lines(root: Message, replies: seq<Message>, res: Resolvers): seq<string> {
    Kept(LineOf(root, res)) + ReplyLines(replies, res)
  }

  /** `"\n".join(lines).strip()`. */
  function FullText(root: Message, replies: seq<Message>, res: Resolvers): string {
    Strip(Join(Lines(root, replies, res), "\n"))
  }

  /** A kept line: it starts with the bracketed user name and is trimmed. */
  predicate WellFormedLine(line: string) {
    line != [] && line[0] == '[' && Trimmed(line)
  }

  lemma KeptShape(msg: Message, res: Resolvers)
    ensures forall k :: 0 <= k < |Kept(LineOf(msg, res))| ==> WellFormedLine(Kept(LineOf(msg, res))[k])
    ensures Kept(LineOf(msg, res)) == [] <==> Blank(msg, res)
  {
  }

  lemma {:induction false} ReplyLinesShape(replies: seq<Message>, res: Resolvers)
    ensures forall k :: 0 <= k < |ReplyLines(replies, res)| ==> WellFormedLine(ReplyLines(replies, res)[k])
    ensures ReplyLines(replies, res) == [] <==> forall k :: 0 <= k < |replies| ==> Blank(replies[k], res)
  {
    if replies != [] {
      var rest := replies[1..];
      ReplyLinesShape(rest, res);
      KeptShape(replies[0], res);
      var a, b := Kept(LineOf(replies[0], res)), ReplyLines(rest, res);
      assert ReplyLines(replies, res) == a + b;
      forall k | 0 <= k < |a + b| ensures WellFormedLine((a + b)[k]) {
        if k < |a| {
          assert (a + b)[k] == a[k];
        } else {
          assert (a + b)[k] == b[k - |a|];
        }
      }
      if forall k :: 0 <= k < |replies| ==> Blank(replies[k], res) {
        forall k | 0 <= k < |rest| ensures Blank(rest[k], res) {
          assert rest[k] == replies[k + 1];
        }
      }
      if a + b == [] {
        forall k | 0 <= k < |replies| ensures Blank(replies[k], res) {
          if k > 0 {
            assert replies[k] == rest[k - 1];
          }
        }
      }
    }
  }

  /** Every kept line is well formed, and there are none exactly when neither the
      root nor any reply has content. */
  lemma LinesShape(root: Message, replies: seq<Message>, res: Resolvers)
    ensures forall k :: 0 <= k < |Lines(root, replies, res)| ==> WellFormedLine(Lines(root, replies, res)[k])
    ensures Lines(root, replies, res) == [] <==>
      Blank(root, res) && forall k :: 0 <= k < |replies| ==> Blank(replies[k], res)
  {
    KeptShape(root, res);
    ReplyLinesShape(replies, res);
    var a, b := Kept(LineOf(root, res)), ReplyLines(replies, res);
    forall k | 0 <= k < |a + b| ensures WellFormedLine((a + b)[k]) {
      if k < |a| {
        assert (a + b)[k] == a[k];
      } else {
        assert (a + b)[k] == b[k - |a|];
      }
    }
  }

  lemma {:induction false} JoinLinesTrimmed(lines: seq<string>)
    requires forall k :: 0 <= k < |lines| ==> WellFormedLine(lines[k])
    ensures Trimmed(Join(lines, "\n"))
    ensures (Join(lines, "\n") == []) == (lines == [])
    ensures lines != [] ==> WellFormedLine(Join(lines, "\n"))
    decreases |lines|
  {
    if |lines| > 1 {
      JoinLinesTrimmed(lines[1..]);
      var j := Join(lines, "\n");
      var rest := Join(lines[1..], "\n");
      assert j == lines[0] + "\n" + rest;
      assert j[0] == lines[0][0];
      assert j[|j| - 1] == rest[|rest| - 1];
    }
  }

  /** The joined text is already trimmed, and it is empty exactly when neither
      the root nor any reply has content. */
  lemma FullTextShape(root: Message, replies: seq<Message>, res: Resolvers)
    ensures FullText(root, replies, res) == Join(Lines(root, replies, res), "\n")
    ensures FullText(root, replies, res) == [] <==>
      Blank(root, res) && forall k :: 0 <= k < |replies| ==> Blank(replies[k], res)
  {
    LinesShape(root, replies, res);
    var lines := Lines(root, replies, res);
    JoinLinesTrimmed(lines);
    StripTrimmed(Join(lines, "\n"));
  }

  // --------------------------------------------------------------- documents

  /** The unit that is embedded and stored. */
  datatype Document = Document(
    id: Uuid,
    text: string,
    channelId: string,
    channelName: string,
    ts: string,
    date: string,
    userId: string,
    userName: string,
    threadTs: Option<string>,
    replyCount: nat,
    permalink: string)

  /** Everything in a document but its id and text. */
  datatype Meta = Meta(
    channelId: string,
    channelName: string,
    ts: string,
    date: string,
    userId: string,
    userName: string,
    threadTs: Option<string>,
    replyCount: nat,
    permalink: string)

  function MetaOf(d: Document): Meta {
    Meta(d.channelId, d.channelName, d.ts, d.date, d.userId, d.userName, d.threadTs, d.replyCount, d.permalink)
  }

  function WithMeta(id: Uuid, text: string, m: Meta): (d: Document)
    ensures MetaOf(d) == m && d.id == id && d.text == text
  {
    Document(id, text, m.channelId, m.channelName, m.ts, m.date, m.userId, m.userName, m.threadTs, m.replyCount, m.permalink)
  }

  /** The metadata every document of one root message carries. `reply_count` is the
      number of replies passed in, those without content included. */
  function SharedMeta(root: Message, replies: seq<Message>, channel: Channel, res: Resolvers): Meta {
    var userId := UserOf(root);
    Meta(channel.id, ChannelName(channel), root.ts, res.tsToDate(root.ts), userId, res.userName(userId),
         Some(ThreadTsOf(root)), |replies|, "")
  }

  /** `f"(part {idx + 1}/{n}) "`. */
  function PartLabel(idx: nat, n: nat): string {
    "(part " + NatToString(idx + 1) + "/" + NatToString(n) + ") "
  }

  /** A chunk's stored text: labelled only when there is more than one chunk. */
  function ChunkText(chunk: string, idx: nat, n: nat): string {
    if n > 1 then PartLabel(idx, n) + chunk else chunk
  }

  /** The documents `build_documents` returns. */
  function Documents(root: Message, replies: seq<Message>, channel: Channel, res: Resolvers): seq<Document> {
    var full := FullText(root, replies, res);
    if full == [] then []
    else
      Stamped(Chunks(full), channel.id, root.ts, SharedMeta(root, replies, channel, res))
  }

  /** The documents stamped on the chunks of a non-empty text. */
  function Stamped(chunks: seq<string>, channelId: string, ts: string, m: Meta): (docs: seq<Document>)
    ensures |docs| == |chunks|
  {
    seq(|chunks|, i requires 0 <= i < |chunks| => WithMeta(MakeId(channelId, ts, i), ChunkText(chunks[i], i, |chunks|), m))
  }

  /** The kept lines of the root and the replies, as `build_documents` collects them. */
  method CollectLines(root: Message, rootUserName: string, replies: seq<Message>, res: Resolvers)
    returns (lines: seq<string>)
    requires rootUserName == res.userName(UserOf(root))
    ensures lines == Lines(root, replies, res)
  {
    lines := [];
    var rootText := FormatMessage(root, rootUserName, res.resolveText);
    if rootText != [] {
      lines := [rootText];
    }
    assert lines == Kept(LineOf(root, res));
    assert replies[0..] == replies;
    for k := 0 to |replies|
      invariant lines + ReplyLines(replies[k..], res) == Lines(root, replies, res)
    {
      var reply := replies[k];
      var replyText := FormatMessage(reply, res.userName(UserOf(reply)), res.resolveText);
      AppendLine(lines, replies, k, Lines(root, replies, res), res);
      if replyText != [] {
        assert Kept(replyText) == [replyText];
        lines := lines + [replyText];
      } else {
        assert Kept(replyText) == [];
        assert lines + [] == lines;
      }
    }
    assert replies[|replies|..] == [];
    assert lines + [] == lines;
  }

  /** Appending the kept line of reply `k` keeps the loop's invariant. */
  lemma AppendLine(lines: seq<string>, replies: seq<Message>, k: nat, all: seq<string>, res: Resolvers)
    requires k < |replies|
    requires lines + ReplyLines(replies[k..], res) == all
    ensures (lines + Kept(LineOf(replies[k], res))) + ReplyLines(replies[k + 1..], res) == all
  {
    assert replies[k..][1..] == replies[k + 1..];
    assert ReplyLines(replies[k..], res) == Kept(LineOf(replies[k], res)) + ReplyLines(replies[k + 1..], res);
  }

  /** One document per chunk, as the second loop of `build_documents` builds them. */
  method StampChunks(chunks: seq<string>, channelId: string, ts: string, meta: Meta)
    returns (docs: seq<Document>)
    ensures docs == Stamped(chunks, channelId, ts, meta)
  {
    docs := [];
    for idx := 0 to |chunks|
      invariant |docs| == idx
      invariant forall i :: 0 <= i < idx ==>
        docs[i] == WithMeta(MakeId(channelId, ts, i), ChunkText(chunks[i], i, |chunks|), meta)
    {
      var docText := chunks[idx];
      if |chunks| > 1 {
        docText := PartLabel(idx, |chunks|) + chunks[idx];
      }
      docs := docs + [WithMeta(MakeId(channelId, ts, idx), docText, meta)];
    }
  }

  /** `build_documents`. */
  method BuildDocuments(root: Message, replies: seq<Message>, channel: Channel, res: Resolvers)
    returns (docs: seq<Document>)
    ensures docs == Documents(root, replies, channel, res)
  {
    var userId := UserOf(root);
    var userName := res.userName(userId);
    var meta := Meta(channel.id, ChannelName(channel), root.ts, res.tsToDate(root.ts), userId, userName,
                     Some(ThreadTsOf(root)), |replies|, "");
    var lines := CollectLines(root, userName, replies, res);
    var fullText := Strip(Join(lines, "\n"));
    if fullText == [] {
      return [];
    }
    var chunks := Chunk(fullText);
    docs := StampChunks(chunks, channel.id, root.ts, meta);
  }

  /** No documents exactly when neither the root nor any reply has content. */
  lemma DocumentsEmptyIff(root: Message, replies: seq<Message>, channel: Channel, res: Resolvers)
    ensures Documents(root, replies, channel, res) == [] <==>
      Blank(root, res) && forall k :: 0 <= k < |replies| ==> Blank(replies[k], res)
  {
    FullTextShape(root, replies, res);
    ChunkLayout(FullText(root, replies, res));
  }

  /** One document per chunk of the joined lines; document i has the id of
      (channel, root ts, i); all share the same metadata; a single document holds
      the joined text unchanged, and only texts over MaxChars are split. */
  lemma DocumentsLayout(root: Message, replies: seq<Message>, channel: Channel, res: Resolvers)
    ensures var docs := Documents(root, replies, channel, res);
      var full := Join(Lines(root, replies, res), "\n");
      && (docs != [] ==> |docs| == ChunkCount(|full|))
      && (|docs| > 1 <==> |full| > MaxChars)
      && (|docs| == 1 ==> docs[0].text == full)
      && forall i :: 0 <= i < |docs| ==>
           && docs[i].id == MakeId(channel.id, root.ts, i)
           && MetaOf(docs[i]) == SharedMeta(root, replies, channel, res)
           && i < |Chunks(full)|
           && docs[i].text == ChunkText(Chunks(full)[i], i, |docs|)
  {
    FullTextShape(root, replies, res);
    ChunkLayout(FullText(root, replies, res));
  }

  /** The documents of one call have pairwise distinct ids. */
  lemma DocumentsDistinctIds(root: Message, replies: seq<Message>, channel: Channel, res: Resolvers)
    ensures var docs := Documents(root, replies, channel, res);
      forall i, j :: 0 <= i < j < |docs| ==> docs[i].id != docs[j].id
  {
    var docs := Documents(root, replies, channel, res);
    forall i, j | 0 <= i < j < |docs| ensures docs[i].id != docs[j].id {
      MakeIdDistinctChunks(channel.id, root.ts, i, j);
    }
  }

  // ----------------------------------------------------------------- payload

  /** A JSON value in a point payload. */
  datatype Value = Str(s: string) | Int(i: int) | Null | Num(r: real)

  type Payload = map<string, Value>

  /** `Document.payload()`: every field but the id. */
  function PayloadOf(d: Document): Payload {
    map[
      "channel_id" := Str(d.channelId),
      "channel_name" := Str(d.channelName),
      "ts" := Str(d.ts),
      "date" := Str(d.date),
      "user_id" := Str(d.userId),
      "user_name" := Str(d.userName),
      "thread_ts" := (if d.threadTs.Some? then Str(d.threadTs.value) else Null),
      "reply_count" := Int(d.replyCount),
      "text" := Str(d.text),
      "permalink" := Str(d.permalink)]
  }

  function StrField(p: Payload, key: string): Option<string> {
    if key in p && p[key].Str? then Some(p[key].s) else None
  }

  /** Reads a document back from its id and payload; `None` when a field is missing
      or of the wrong kind. */
  function DocumentFromPayload(id: Uuid, p: Payload): Option<Document> {
    var fields := [StrField(p, "text"), StrField(p, "channel_id"), StrField(p, "channel_name"), StrField(p, "ts"),
                   StrField(p, "date"), StrField(p, "user_id"), StrField(p, "user_name"), StrField(p, "permalink")];
    if (exists k :: 0 <= k < |fields| && fields[k].None?) then None
    else if "thread_ts" !in p || !(p["thread_ts"].Str? || p["thread_ts"].Null?) then None
    else if "reply_count" !in p || !p["reply_count"].Int? || p["reply_count"].i < 0 then None
    else
      var threadTs := if p["thread_ts"].Str? then Some(p["thread_ts"].s) else None;
      Some(Document(id, fields[0].value, fields[1].value, fields[2].value, fields[3].value, fields[4].value,
                    fields[5].value, fields[6].value, threadTs, p["reply_count"].i, fields[7].value))
  }

  /** The payload keeps every field of the document: id and payload give it back. */
  lemma PayloadRoundTrip(d: Document)
    ensures DocumentFromPayload(d.id, PayloadOf(d)) == Some(d)
  {
    var p := PayloadOf(d);
    assert StrField(p, "text") == Some(d.text);
    assert StrField(p, "channel_id") == Some(d.channelId);
    assert StrField(p, "channel_name") == Some(d.channelName);
    assert StrField(p, "ts") == Some(d.ts);
    assert StrField(p, "date") == Some(d.date);
    assert StrField(p, "user_id") == Some(d.userId);
    assert StrField(p, "user_name") == Some(d.userName);
    assert StrField(p, "permalink") == Some(d.permalink);
  }
}
