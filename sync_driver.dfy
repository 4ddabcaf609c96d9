/** One sync cycle: for each channel, read the messages newer than its cursor,
    build their documents, flush them to the vector store in batches, and then
    advance the cursor. */
module SyncDriver {
  import opened Wrappers
  import opened Records
  import Processor
  import StateStore
  import VectorIndex
  import Slack
  import Configuration

  type Document = Processor.Document

  /** What a sync reads from Slack: the answers to `conversations.history` for a
      channel and a cursor, the outcomes of the joins attempted for a channel, the
      answers to `conversations.replies` for a channel and a thread, the builder's
      collaborators, and `float(ts)` as a number. */
  datatype Source = Source(
    history: (string, Option<string>) -> seq<Slack.Response<Message>>,
    joins: string -> seq<bool>,
    threads: (string, string) -> seq<Slack.Response<Message>>,
    res: Processor.Resolvers,
    tsValue: string -> int)

  // ------------------------------------------------------------ latest timestamp

  /** One step of the tracking of the newest timestamp. */
  function Newer(latest: Option<string>, ts: string, value: string -> int): Option<string> {
    if latest.None? || value(ts) > value(latest.value) then Some(ts) else latest
  }

  /** The newest timestamp after the messages, starting from the cursor. */
  function Latest(oldest: Option<string>, msgs: seq<Message>, value: string -> int): Option<string>
    decreases |msgs|
  {
    if msgs == [] then oldest
    else Newer(Latest(oldest, msgs[..|msgs| - 1], value), msgs[|msgs| - 1].ts, value)
  }

  /** The tracked timestamp is set as soon as there is a cursor or a message, and it
      is numerically at least the cursor and every message's timestamp. */
  lemma {:induction false} LatestIsMaximum(oldest: Option<string>, msgs: seq<Message>, value: string -> int)
    ensures (oldest.Some? || msgs != []) <==> Latest(oldest, msgs, value).Some?
    ensures oldest.Some? ==> value(Latest(oldest, msgs, value).value) >= value(oldest.value)
    ensures forall k :: 0 <= k < |msgs| ==> value(Latest(oldest, msgs, value).value) >= value(msgs[k].ts)
    decreases |msgs|
  {
    if msgs != [] {
      var front := msgs[..|msgs| - 1];
      LatestIsMaximum(oldest, front, value);
      assert forall k :: 0 <= k < |front| ==> msgs[k] == front[k];
    }
  }

  /** The tracked timestamp is the cursor or one of the messages' timestamps, and when
      it is not the cursor it is numerically above it. */
  lemma {:induction false} LatestObserved(oldest: Option<string>, msgs: seq<Message>, value: string -> int)
    ensures Latest(oldest, msgs, value) == oldest ||
      exists k :: 0 <= k < |msgs| && Latest(oldest, msgs, value) == Some(msgs[k].ts)
    ensures oldest.Some? && Latest(oldest, msgs, value) != oldest ==>
      value(Latest(oldest, msgs, value).value) > value(oldest.value)
    decreases |msgs|
  {
    if msgs != [] {
      var front := msgs[..|msgs| - 1];
      LatestObserved(oldest, front, value);
      if Latest(oldest, front, value) != oldest {
        var k :| 0 <= k < |front| && Latest(oldest, front, value) == Some(front[k].ts);
        assert front[k] == msgs[k];
      }
    }
  }

  /** One message of the tracking loop. */
  lemma LatestStep(oldest: Option<string>, msgs: seq<Message>, i: nat, value: string -> int)
    requires i < |msgs|
    ensures Latest(oldest, msgs[..i + 1], value) == Newer(Latest(oldest, msgs[..i], value), msgs[i].ts, value)
  {
    assert msgs[..i + 1][..i] == msgs[..i];
  }

  // ------------------------------------------------------------------ documents

  /** A message gets its replies fetched only when it has replies and is its thread's root. */
  predicate IsThreadRoot(msg: Message) {
    msg.replyCount.GetOr(0) > 0 && msg.threadTs == Some(msg.ts)
  }

  /** The replies handed to the builder for a message. */
  function RepliesFor(channelId: string, msg: Message, src: Source): seq<Message> {
    if IsThreadRoot(msg) then Slack.IntendedReplies(src.threads(channelId, msg.ts)) else []
  }

  /** The documents built for one message. */
  function DocsOf(channel: Channel, msg: Message, src: Source): seq<Document> {
    Processor.Documents(msg, RepliesFor(channel.id, msg, src), channel, src.res)
  }

  /** The documents built for each message, in message order. */
  function Built(channel: Channel, msgs: seq<Message>, src: Source): (r: seq<seq<Document>>)
    ensures |r| == |msgs| && forall i :: 0 <= i < |msgs| ==> r[i] == DocsOf(channel, msgs[i], src)
  {
    seq(|msgs|, i requires 0 <= i < |msgs| => DocsOf(channel, msgs[i], src))
  }

  /** A message that is not a thread root is built alone, with a reply count of 0. */
  lemma NonRootBuiltAlone(channel: Channel, msg: Message, src: Source)
    requires !IsThreadRoot(msg)
    ensures forall d :: d in DocsOf(channel, msg, src) ==> d.replyCount == 0
  {
    Processor.DocumentsLayout(msg, [], channel, src.res);
  }

  // -------------------------------------------------------------------- batches

  /** The concatenation of a list of lists. */
  function Concat<T>(gs: seq<seq<T>>): seq<T>
    decreases |gs|
  {
    if gs == [] then [] else gs[0] + Concat(gs[1..])
  }

  lemma {:induction false} ConcatAppend<T>(a: seq<seq<T>>, b: seq<seq<T>>)
    ensures Concat(a + b) == Concat(a) + Concat(b)
    decreases |a|
  {
    if a == [] {
      assert a + b == b;
    } else {
      assert (a + b)[1..] == a[1..] + b;
      ConcatAppend(a[1..], b);
    }
  }

  /** The batches flushed from the documents of successive messages, given what is
      already pending: the buffer is flushed whenever it holds at least `batchSize`
      documents after a message, and what remains at the end is flushed if it is
      not empty. */
  function Batches<T>(parts: seq<seq<T>>, pending: seq<T>, batchSize: int): seq<seq<T>>
    decreases |parts|
  {
    if parts == [] then (if pending == [] then [] else [pending])
    else
      var p := pending + parts[0];
      if |p| >= batchSize then [p] + Batches(parts[1..], [], batchSize)
      else Batches(parts[1..], p, batchSize)
  }

  /** Every document built is flushed exactly once, in build order. */
  lemma {:induction false} BatchesCover<T>(parts: seq<seq<T>>, pending: seq<T>, batchSize: int)
    ensures Concat(Batches(parts, pending, batchSize)) == pending + Concat(parts)
    decreases |parts|
  {
    if parts == [] {
      if pending != [] {
        assert Concat([pending]) == pending + Concat<T>([]);
      }
    } else {
      var p := pending + parts[0];
      if |p| >= batchSize {
        BatchesCover(parts[1..], [], batchSize);
        var gs := [p] + Batches(parts[1..], [], batchSize);
        assert gs[0] == p && gs[1..] == Batches(parts[1..], [], batchSize);
      } else {
        BatchesCover(parts[1..], p, batchSize);
      }
    }
  }

  /** Every batch holds at least `batchSize` documents, except possibly the last,
      which is not empty. */
  predicate WellBatched<T>(gs: seq<seq<T>>, batchSize: int) {
    forall k :: 0 <= k < |gs| ==> |gs[k]| >= batchSize || (k == |gs| - 1 && gs[k] != [])
  }

  /** Every flushed batch holds at least `batchSize` documents, except possibly the
      last one, the non-empty remainder flushed after the loop. */
  lemma {:induction false} BatchesShape<T>(parts: seq<seq<T>>, pending: seq<T>, batchSize: int)
    ensures WellBatched(Batches(parts, pending, batchSize), batchSize)
    decreases |parts|
  {
    if parts != [] {
      var p := pending + parts[0];
      if |p| >= batchSize {
        var tail := Batches(parts[1..], [], batchSize);
        assert Batches(parts, pending, batchSize) == [p] + tail;
        BatchesShape(parts[1..], [], batchSize);
        ConsWellBatched(p, tail, batchSize);
      } else {
        assert Batches(parts, pending, batchSize) == Batches(parts[1..], p, batchSize);
        BatchesShape(parts[1..], p, batchSize);
      }
    }
  }

  /** The buffer after `i` more messages: what was pending, then their documents. */
  function Buffered<T>(parts: seq<seq<T>>, pending: seq<T>, i: nat): seq<T>
    requires i <= |parts|
  {
    pending + Concat(parts[..i])
  }

  lemma BufferedStep<T>(parts: seq<seq<T>>, pending: seq<T>, i: nat)
    requires 0 < i <= |parts|
    ensures Buffered(parts, pending, i) == Buffered(parts[1..], pending + parts[0], i - 1)
  {
    assert parts[..i][0] == parts[0];
    assert parts[..i][1..] == parts[1..][..i - 1];
    Slack.Associative(pending, parts[0], Concat(parts[1..][..i - 1]));
  }

  /** The buffer is flushed as soon as it reaches `batchSize`: when message `j`
      is the first after which the buffer holds `batchSize` documents, the first
      batch is exactly the buffer at that moment, and batching starts afresh
      with the next message. */
  lemma {:induction false} BatchesFlushFirst<T>(parts: seq<seq<T>>, pending: seq<T>, batchSize: int, j: nat)
    requires j < |parts|
    requires forall i :: 0 < i <= j ==> |Buffered(parts, pending, i)| < batchSize
    requires |Buffered(parts, pending, j + 1)| >= batchSize
    ensures Batches(parts, pending, batchSize) ==
      [Buffered(parts, pending, j + 1)] + Batches(parts[j + 1..], [], batchSize)
    decreases j
  {
    var p := pending + parts[0];
    assert Buffered(parts, pending, 1) == p by {
      BufferedStep(parts, pending, 1);
      assert parts[1..][..0] == [];
    }
    if j > 0 {
      assert |p| < batchSize;
      forall i | 0 < i <= j - 1
        ensures |Buffered(parts[1..], p, i)| < batchSize
      {
        BufferedStep(parts, pending, i + 1);
      }
      BufferedStep(parts, pending, j + 1);
      BatchesFlushFirst(parts[1..], p, batchSize, j - 1);
      assert parts[1..][j..] == parts[j + 1..];
    } else {
      assert Batches(parts, pending, batchSize) == [p] + Batches(parts[1..], [], batchSize);
    }
  }

  /** While the buffer stays below `batchSize`, nothing is flushed until the end,
      where the remainder is flushed as one batch if it is not empty. */
  lemma {:induction false} BatchesNoFlush<T>(parts: seq<seq<T>>, pending: seq<T>, batchSize: int)
    requires forall i :: 0 < i <= |parts| ==> |Buffered(parts, pending, i)| < batchSize
    ensures var rest := Buffered(parts, pending, |parts|);
      Batches(parts, pending, batchSize) == if rest == [] then [] else [rest]
    decreases |parts|
  {
    assert parts[..|parts|] == parts;
    if parts == [] {
      assert pending + Concat(parts) == pending;
    } else {
      var p := pending + parts[0];
      assert Buffered(parts, pending, 1) == p by {
        BufferedStep(parts, pending, 1);
        assert parts[1..][..0] == [];
      }
      assert |p| < batchSize;
      forall i | 0 < i <= |parts| - 1
        ensures |Buffered(parts[1..], p, i)| < batchSize
      {
        BufferedStep(parts, pending, i + 1);
      }
      BatchesNoFlush(parts[1..], p, batchSize);
      BufferedStep(parts, pending, |parts|);
      assert parts[1..][..|parts| - 1] == parts[1..];
    }
  }

  lemma ConsWellBatched<T>(g: seq<T>, gs: seq<seq<T>>, batchSize: int)
    requires |g| >= batchSize && WellBatched(gs, batchSize)
    ensures WellBatched([g] + gs, batchSize)
  {
    var all := [g] + gs;
    forall k | 0 <= k < |all|
      ensures |all[k]| >= batchSize || (k == |all| - 1 && all[k] != [])
    {
      if k > 0 {
        assert all[k] == gs[k - 1];
      }
    }
  }

  /** One message of the batching loop: `done` are the batches flushed so far. */
  lemma BatchesStep<T>(done: seq<seq<T>>, parts: seq<seq<T>>, i: nat, pending: seq<T>, batchSize: int, all: seq<seq<T>>)
    requires i < |parts|
    requires done + Batches(parts[i..], pending, batchSize) == all
    ensures var p := pending + parts[i];
      if |p| >= batchSize then (done + [p]) + Batches(parts[i + 1..], [], batchSize) == all
      else done + Batches(parts[i + 1..], p, batchSize) == all
  {
    assert parts[i..][0] == parts[i];
    assert parts[i..][1..] == parts[i + 1..];
    var p := pending + parts[i];
    if |p| >= batchSize {
      assert Batches(parts[i..], pending, batchSize) == [p] + Batches(parts[i + 1..], [], batchSize);
      Slack.Associative(done, [p], Batches(parts[i + 1..], [], batchSize));
    }
  }

  // ---------------------------------------------------------------- store effects

  /** `[d.text for d in docs]`. */
  function Texts(docs: seq<Document>): (r: seq<string>)
    ensures |r| == |docs| && forall i :: 0 <= i < |docs| ==> r[i] == docs[i].text
  {
    seq(|docs|, i requires 0 <= i < |docs| => docs[i].text)
  }

  /** The writes the store receives for the flushed batches: an empty batch writes nothing. */
  function Written(gs: seq<seq<Document>>, embed: seq<string> -> seq<seq<real>>): seq<seq<VectorIndex.Point>>
    decreases |gs|
  {
    if gs == [] then []
    else
      var last := gs[|gs| - 1];
      Written(gs[..|gs| - 1], embed) + (if last == [] then [] else [VectorIndex.Points(last, embed(Texts(last)))])
  }

  /** The store's points after the flushed batches are upserted in turn. */
  function Stored(points: map<Processor.Uuid, VectorIndex.Point>, gs: seq<seq<Document>>, embed: seq<string> -> seq<seq<real>>)
    : map<Processor.Uuid, VectorIndex.Point>
    decreases |gs|
  {
    if gs == [] then points
    else
      var last := gs[|gs| - 1];
      var before := Stored(points, gs[..|gs| - 1], embed);
      if last == [] then before else VectorIndex.Apply(before, VectorIndex.Points(last, embed(Texts(last))))
  }

  lemma {:induction false} WrittenAppend(a: seq<seq<Document>>, b: seq<seq<Document>>, embed: seq<string> -> seq<seq<real>>)
    ensures Written(a + b, embed) == Written(a, embed) + Written(b, embed)
    decreases |b|
  {
    if b == [] {
      assert a + b == a;
    } else {
      var front := b[..|b| - 1];
      assert (a + b)[..|a + b| - 1] == a + front;
      assert (a + b)[|a + b| - 1] == b[|b| - 1];
      WrittenAppend(a, front, embed);
    }
  }

  lemma {:induction false} StoredAppend(points: map<Processor.Uuid, VectorIndex.Point>, a: seq<seq<Document>>, b: seq<seq<Document>>,
                                        embed: seq<string> -> seq<seq<real>>)
    ensures Stored(points, a + b, embed) == Stored(Stored(points, a, embed), b, embed)
    decreases |b|
  {
    if b == [] {
      assert a + b == a;
    } else {
      var front := b[..|b| - 1];
      assert (a + b)[..|a + b| - 1] == a + front;
      assert (a + b)[|a + b| - 1] == b[|b| - 1];
      StoredAppend(points, a, front, embed);
    }
  }

  // ------------------------------------------------------------------ the trace

  /** What a sync does, in order: its flushes with their sizes, then the cursor write. */
  datatype Event = Flushed(count: nat) | CursorSet(ts: string)

  function FlushEvents(gs: seq<seq<Document>>): (r: seq<Event>)
    ensures |r| == |gs| && forall k :: 0 <= k < |gs| ==> r[k] == Flushed(|gs[k]|)
  {
    seq(|gs|, k requires 0 <= k < |gs| => Flushed(|gs[k]|))
  }

  /** `if latest_ts and latest_ts != oldest_ts`: a cursor is written only when a
      non-empty timestamp other than the old cursor was seen. */
  predicate Advances(latest: Option<string>, oldest: Option<string>) {
    latest.Some? && latest.value != "" && latest != oldest
  }

  /** The events of one sync. */
  function Trace(gs: seq<seq<Document>>, latest: Option<string>, oldest: Option<string>): seq<Event> {
    FlushEvents(gs) + (if Advances(latest, oldest) then [CursorSet(latest.value)] else [])
  }

  /** Every flush happens before the cursor write, and there is at most one cursor write. */
  lemma FlushesPrecedeCursor(gs: seq<seq<Document>>, latest: Option<string>, oldest: Option<string>)
    ensures var t := Trace(gs, latest, oldest);
      forall k :: 0 <= k < |t| && t[k].CursorSet? ==> k == |t| - 1 && k == |gs|
  {
  }

  // ------------------------------------------------------------- one channel

  /** The cursor stored for a channel before its sync. */
  function Cursor(data: map<string, string>, channel: Channel): Option<string> {
    StateStore.Lookup(data, channel.id)
  }

  function MessagesOf(channel: Channel, data: map<string, string>, src: Source): seq<Message> {
    Slack.HistoryMessages(src.history(channel.id, Cursor(data, channel)), src.joins(channel.id))
  }

  function LatestOf(channel: Channel, data: map<string, string>, src: Source): Option<string> {
    Latest(Cursor(data, channel), MessagesOf(channel, data, src), src.tsValue)
  }

  /** The batches one channel's sync flushes. */
  function ChannelGroups(channel: Channel, data: map<string, string>, src: Source, batchSize: int): seq<seq<Document>> {
    Batches(Built(channel, MessagesOf(channel, data, src), src), [], batchSize)
  }

  /** The number one channel's sync returns: the documents built for its messages. */
  function ChannelTotal(channel: Channel, data: map<string, string>, src: Source): nat {
    |Concat(Built(channel, MessagesOf(channel, data, src), src))|
  }

  /** The cursors after one channel's sync. */
  function DataAfter(channel: Channel, data: map<string, string>, src: Source): map<string, string> {
    var latest := LatestOf(channel, data, src);
    if Advances(latest, Cursor(data, channel)) then data[channel.id := latest.value] else data
  }

  /** A channel with no new messages keeps its cursor, and so does every other channel. */
  lemma NoMessagesNoCursor(channel: Channel, data: map<string, string>, src: Source)
    requires MessagesOf(channel, data, src) == []
    ensures DataAfter(channel, data, src) == data
    ensures ChannelTotal(channel, data, src) == 0
  {
  }

  /** The cursor only moves forward: a value written replaces a numerically smaller
      one, and it is at least every synced message's timestamp. */
  lemma CursorAdvances(channel: Channel, data: map<string, string>, src: Source)
    ensures var after := DataAfter(channel, data, src);
      channel.id in data ==> channel.id in after && src.tsValue(after[channel.id]) >= src.tsValue(data[channel.id])
    ensures var after := DataAfter(channel, data, src);
      channel.id in data && after[channel.id] != data[channel.id] ==>
        src.tsValue(after[channel.id]) > src.tsValue(data[channel.id])
    ensures var after := DataAfter(channel, data, src); var msgs := MessagesOf(channel, data, src);
      after != data ==> forall k :: 0 <= k < |msgs| ==> src.tsValue(after[channel.id]) >= src.tsValue(msgs[k].ts)
    ensures forall c :: c != channel.id ==> StateStore.Lookup(DataAfter(channel, data, src), c) == StateStore.Lookup(data, c)
  {
    var msgs := MessagesOf(channel, data, src);
    LatestIsMaximum(Cursor(data, channel), msgs, src.tsValue);
    LatestObserved(Cursor(data, channel), msgs, src.tsValue);
  }

  /** `_flush`: the batch's texts are embedded in order, the batch is upserted with
      those vectors, and its size is returned. */
  method Flush(docs: seq<Document>, store: VectorIndex.VectorStore, embed: seq<string> -> seq<seq<real>>)
    returns (n: int)
    modifies store
    ensures n == |docs|
    ensures store.writes == old(store.writes) + Written([docs], embed)
    ensures store.points == Stored(old(store.points), [docs], embed)
  {
    var texts := Texts(docs);
    var vectors := embed(texts);
    store.Upsert(docs, vectors);
    assert [docs][..0] == [];
    return |docs|;
  }

  /** The documents of one message of `sync_channel`'s loop: its replies are
      fetched only when it is a thread root. */
  method MessageDocuments(channel: Channel, msg: Message, slack: Slack.SlackClient, src: Source) returns (docs: seq<Document>)
    ensures docs == DocsOf(channel, msg, src)
  {
    var replies: seq<Message> := [];
    if msg.replyCount.GetOr(0) > 0 && msg.threadTs == Some(msg.ts) {
      replies := slack.ThreadReplies(src.threads(channel.id, msg.ts));
    }
    docs := Processor.BuildDocuments(msg, replies, channel, src.res);
  }

  /** `sync_channel`. `trace` records its effects as they happen: a `Flushed` at
      each flush, a `CursorSet` at the cursor write. `writesAtCursor` are the
      store's writes at the moment the cursor is written (at the end when it is
      not): by then every batch has been written. */
  method SyncChannel(channel: Channel, slack: Slack.SlackClient, src: Source, embed: seq<string> -> seq<seq<real>>,
                     store: VectorIndex.VectorStore, state: StateStore.SyncState, batchSize: int)
    returns (total: int, ghost trace: seq<Event>, ghost writesAtCursor: seq<seq<VectorIndex.Point>>)
    modifies store, state
    ensures total == ChannelTotal(channel, old(state.data), src)
    ensures state.data == DataAfter(channel, old(state.data), src)
    ensures store.writes == old(store.writes) + Written(ChannelGroups(channel, old(state.data), src, batchSize), embed)
    ensures store.points == Stored(old(store.points), ChannelGroups(channel, old(state.data), src, batchSize), embed)
    ensures trace == Trace(ChannelGroups(channel, old(state.data), src, batchSize),
                           LatestOf(channel, old(state.data), src), Cursor(old(state.data), channel))
    ensures writesAtCursor == store.writes
  {
    ghost var d0, w0, p0 := state.data, store.writes, store.points;
    var oldest := state.GetCursor(channel.id);
    var msgs := slack.ChannelMessages(src.history(channel.id, oldest), src.joins(channel.id));
    assert oldest == Cursor(d0, channel) && msgs == MessagesOf(channel, d0, src);
    ghost var done;
    var pending, latest;
    total, latest, pending, done, trace := IndexMessages(channel, oldest, msgs, slack, src, embed, store, batchSize);
    total, done, trace, writesAtCursor := FinishChannel(channel.id, oldest, latest, pending, store, state, embed,
                                                        total, done, trace, w0, p0);
    BatchesCover(Built(channel, msgs, src), [], batchSize);
  }

  /** The end of `sync_channel`: the remainder is flushed if it is not empty, and
      then the cursor is written if it advances. */
  method FinishChannel(channelId: string, oldest: Option<string>, latest: Option<string>, pending: seq<Document>,
                       store: VectorIndex.VectorStore, state: StateStore.SyncState, embed: seq<string> -> seq<seq<real>>,
                       total: int, ghost done: seq<seq<Document>>, ghost events: seq<Event>,
                       ghost w0: seq<seq<VectorIndex.Point>>, ghost p0: map<Processor.Uuid, VectorIndex.Point>)
    returns (total': int, ghost done': seq<seq<Document>>, ghost events': seq<Event>,
             ghost writesAtCursor: seq<seq<VectorIndex.Point>>)
    requires total == |Concat(done)| && events == FlushEvents(done)
    requires store.writes == w0 + Written(done, embed) && store.points == Stored(p0, done, embed)
    modifies store, state
    ensures done' == done + (if pending == [] then [] else [pending]) && total' == |Concat(done')|
    ensures events' == Trace(done', latest, oldest)
    ensures store.writes == w0 + Written(done', embed) && store.points == Stored(p0, done', embed)
    ensures state.data == if Advances(latest, oldest) then old(state.data)[channelId := latest.value] else old(state.data)
    ensures writesAtCursor == store.writes
  {
    total', done', events' := total, done, events;
    if pending != [] {
      total', done', events' := FlushCounted(pending, store, embed, total, done, events, w0, p0);
    } else {
      assert done + [] == done;
    }
    if latest.Some? && latest.value != "" && latest != oldest {
      writesAtCursor := store.writes;
      state.SetCursor(channelId, latest.value);
      events' := events' + [CursorSet(latest.value)];
    } else {
      writesAtCursor := store.writes;
      assert events' + [] == events';
    }
  }

  /** The loop of `sync_channel`: the newest timestamp is tracked, and each
      message's documents are built and buffered, the buffer being flushed
      whenever it reaches `batchSize`. `done` are the batches flushed. */
  method IndexMessages(channel: Channel, oldest: Option<string>, msgs: seq<Message>, slack: Slack.SlackClient, src: Source,
                       embed: seq<string> -> seq<seq<real>>, store: VectorIndex.VectorStore, batchSize: int)
    returns (total: int, latest: Option<string>, pending: seq<Document>, ghost done: seq<seq<Document>>,
             ghost events: seq<Event>)
    modifies store
    ensures latest == Latest(oldest, msgs, src.tsValue)
    ensures events == FlushEvents(done)
    ensures done + Batches([], pending, batchSize) == Batches(Built(channel, msgs, src), [], batchSize)
    ensures total == |Concat(done)|
    ensures store.writes == old(store.writes) + Written(done, embed)
    ensures store.points == Stored(old(store.points), done, embed)
  {
    ghost var w0, p0 := store.writes, store.points;
    ghost var built := Built(channel, msgs, src);
    ghost var all := Batches(built, [], batchSize);
    pending := [];
    latest := oldest;
    total := 0;
    done := [];
    events := [];
    assert msgs[..0] == [] && built[0..] == built;
    for i := 0 to |msgs|
      invariant latest == Latest(oldest, msgs[..i], src.tsValue)
      invariant events == FlushEvents(done)
      invariant done + Batches(built[i..], pending, batchSize) == all
      invariant total == |Concat(done)|
      invariant store.writes == w0 + Written(done, embed)
      invariant store.points == Stored(p0, done, embed)
    {
      var msg := msgs[i];
      var ts := msg.ts;
      LatestStep(oldest, msgs, i, src.tsValue);
      if latest.None? || src.tsValue(ts) > src.tsValue(latest.value) {
        latest := Some(ts);
      }
      var docs := MessageDocuments(channel, msg, slack, src);
      assert docs == built[i];
      BatchesStep(done, built, i, pending, batchSize, all);
      pending := pending + docs;
      if |pending| >= batchSize {
        total, done, events := FlushCounted(pending, store, embed, total, done, events, w0, p0);
        pending := [];
      }
    }
    assert msgs[..|msgs|] == msgs && built[|msgs|..] == [];
  }

  /** `total_indexed += _flush(pending_docs, store, embedder)`: `done` are the
      batches flushed before, into a store that held `w0` and `p0`, and `events`
      the effects recorded so far. */
  method FlushCounted(pending: seq<Document>, store: VectorIndex.VectorStore, embed: seq<string> -> seq<seq<real>>,
                      total: int, ghost done: seq<seq<Document>>, ghost events: seq<Event>,
                      ghost w0: seq<seq<VectorIndex.Point>>, ghost p0: map<Processor.Uuid, VectorIndex.Point>)
    returns (total': int, ghost done': seq<seq<Document>>, ghost events': seq<Event>)
    requires total == |Concat(done)|
    requires store.writes == w0 + Written(done, embed) && store.points == Stored(p0, done, embed)
    modifies store
    ensures done' == done + [pending] && total' == |Concat(done')|
    ensures events' == events + [Flushed(|pending|)]
    ensures events == FlushEvents(done) ==> events' == FlushEvents(done')
    ensures store.writes == w0 + Written(done', embed) && store.points == Stored(p0, done', embed)
  {
    var n := Flush(pending, store, embed);
    events' := events + [Flushed(n)];
    FlushStep(done, pending, embed, w0, p0);
    total' := total + n;
    done' := done + [pending];
  }

  /** The bookkeeping of one flush. */
  lemma FlushStep(done: seq<seq<Document>>, g: seq<Document>, embed: seq<string> -> seq<seq<real>>,
                  w0: seq<seq<VectorIndex.Point>>, p0: map<Processor.Uuid, VectorIndex.Point>)
    ensures |Concat(done + [g])| == |Concat(done)| + |g|
    ensures FlushEvents(done + [g]) == FlushEvents(done) + [Flushed(|g|)]
    ensures w0 + Written(done + [g], embed) == (w0 + Written(done, embed)) + Written([g], embed)
    ensures Stored(p0, done + [g], embed) == Stored(Stored(p0, done, embed), [g], embed)
  {
    ConcatAppend(done, [g]);
    assert Concat([g]) == g + Concat<Document>([]);
    FlushStoreStep(done, g, embed, w0, p0);
  }

  lemma FlushStoreStep(done: seq<seq<Document>>, g: seq<Document>, embed: seq<string> -> seq<seq<real>>,
                       w0: seq<seq<VectorIndex.Point>>, p0: map<Processor.Uuid, VectorIndex.Point>)
    ensures w0 + Written(done + [g], embed) == (w0 + Written(done, embed)) + Written([g], embed)
    ensures Stored(p0, done + [g], embed) == Stored(Stored(p0, done, embed), [g], embed)
  {
    WrittenAppend(done, [g], embed);
    StoredAppend(p0, done, [g], embed);
  }

  // ------------------------------------------------------------------ the cycle

  /** The documents indexed by syncing the channels in order, each sync seeing the
      cursors the previous ones left. */
  function CycleTotal(channels: seq<Channel>, data: map<string, string>, src: Source): nat
    decreases |channels|
  {
    if channels == [] then 0
    else ChannelTotal(channels[0], data, src) + CycleTotal(channels[1..], DataAfter(channels[0], data, src), src)
  }

  /** The cursors after syncing the channels in order. */
  function CycleData(channels: seq<Channel>, data: map<string, string>, src: Source): map<string, string>
    decreases |channels|
  {
    if channels == [] then data else CycleData(channels[1..], DataAfter(channels[0], data, src), src)
  }

  /** The batches flushed by syncing the channels in order. */
  function CycleGroups(channels: seq<Channel>, data: map<string, string>, src: Source, batchSize: int): seq<seq<Document>>
    decreases |channels|
  {
    if channels == [] then []
    else ChannelGroups(channels[0], data, src, batchSize) + CycleGroups(channels[1..], DataAfter(channels[0], data, src), src, batchSize)
  }

  /** The cycle's total is the number of documents it flushes. */
  lemma {:induction false} CycleTotalFlushed(channels: seq<Channel>, data: map<string, string>, src: Source, batchSize: int)
    ensures CycleTotal(channels, data, src) == |Concat(CycleGroups(channels, data, src, batchSize))|
    decreases |channels|
  {
    if channels != [] {
      var c := channels[0];
      CycleTotalFlushed(channels[1..], DataAfter(c, data, src), src, batchSize);
      BatchesCover(Built(c, MessagesOf(c, data, src), src), [], batchSize);
      ConcatAppend(ChannelGroups(c, data, src, batchSize), CycleGroups(channels[1..], DataAfter(c, data, src), src, batchSize));
    }
  }

  /** One channel of the cycle loop. */
  lemma CycleStep(channels: seq<Channel>, i: nat, data: map<string, string>, src: Source, batchSize: int)
    requires i < |channels|
    ensures CycleTotal(channels[i..], data, src) ==
      ChannelTotal(channels[i], data, src) + CycleTotal(channels[i + 1..], DataAfter(channels[i], data, src), src)
    ensures CycleData(channels[i..], data, src) == CycleData(channels[i + 1..], DataAfter(channels[i], data, src), src)
    ensures CycleGroups(channels[i..], data, src, batchSize) ==
      ChannelGroups(channels[i], data, src, batchSize) + CycleGroups(channels[i + 1..], DataAfter(channels[i], data, src), src, batchSize)
  {
    assert channels[i..][0] == channels[i];
    assert channels[i..][1..] == channels[i + 1..];
  }

  /** What `run_once` comes to: the channel listing failed (a channel without a
      name under an allow-list), there was no channel, or the channels were synced. */
  datatype Outcome = ListingFailed(channel: Channel) | NoChannels | Indexed(total: int)

  /** `cfg.channel_list or None`. */
  function AllowList(cfg: Configuration.Config): Option<seq<string>> {
    var names := Configuration.ChannelList(cfg.slackChannels);
    if names == [] then None else Some(names)
  }

  /** `run_once`: the channels are listed, then synced one after the other. */
  method RunOnce(cfg: Configuration.Config, listing: seq<Slack.Response<Channel>>, slack: Slack.SlackClient,
                 src: Source, embed: seq<string> -> seq<seq<real>>,
                 store: VectorIndex.VectorStore, state: StateStore.SyncState)
    returns (outcome: Outcome)
    modifies store, state
    ensures var listed := Slack.PublicChannelsFor(listing, AllowList(cfg));
      listed.Err? ==> outcome == ListingFailed(listed.error)
    ensures var listed := Slack.PublicChannelsFor(listing, AllowList(cfg));
      listed == Ok([]) ==> outcome == NoChannels
    ensures var listed := Slack.PublicChannelsFor(listing, AllowList(cfg));
      !(listed.Ok? && listed.value != []) ==>
        state.data == old(state.data) && store.writes == old(store.writes) && store.points == old(store.points)
    ensures var listed := Slack.PublicChannelsFor(listing, AllowList(cfg));
      listed.Ok? && listed.value != [] ==>
        var gs := CycleGroups(listed.value, old(state.data), src, cfg.batchSize);
        && outcome == Indexed(CycleTotal(listed.value, old(state.data), src))
        && state.data == CycleData(listed.value, old(state.data), src)
        && store.writes == old(store.writes) + Written(gs, embed)
        && store.points == Stored(old(store.points), gs, embed)
  {
    var listed := slack.PublicChannels(listing, AllowList(cfg));
    if listed.Err? {
      return ListingFailed(listed.error);
    }
    if listed.value == [] {
      return NoChannels;
    }
    var total := SyncAll(listed.value, slack, src, embed, store, state, cfg.batchSize);
    outcome := Indexed(total);
  }

  /** The loop of `run_once`: each channel is synced in turn and the counts are summed. */
  method SyncAll(channels: seq<Channel>, slack: Slack.SlackClient, src: Source, embed: seq<string> -> seq<seq<real>>,
                 store: VectorIndex.VectorStore, state: StateStore.SyncState, batchSize: int)
    returns (total: int)
    modifies store, state
    ensures total == CycleTotal(channels, old(state.data), src)
    ensures state.data == CycleData(channels, old(state.data), src)
    ensures store.writes == old(store.writes) + Written(CycleGroups(channels, old(state.data), src, batchSize), embed)
    ensures store.points == Stored(old(store.points), CycleGroups(channels, old(state.data), src, batchSize), embed)
  {
    ghost var d0, w0, p0 := state.data, store.writes, store.points;
    ghost var all := CycleGroups(channels, d0, src, batchSize);
    ghost var done: seq<seq<Document>> := [];
    total := 0;
    assert channels[0..] == channels;
    for i := 0 to |channels|
      invariant total + CycleTotal(channels[i..], state.data, src) == CycleTotal(channels, d0, src)
      invariant CycleData(channels[i..], state.data, src) == CycleData(channels, d0, src)
      invariant done + CycleGroups(channels[i..], state.data, src, batchSize) == all
      invariant store.writes == w0 + Written(done, embed)
      invariant store.points == Stored(p0, done, embed)
    {
      ghost var data := state.data;
      ghost var gs := ChannelGroups(channels[i], data, src, batchSize);
      CycleStep(channels, i, data, src, batchSize);
      SyncAllStep(channels, i, data, src, batchSize, done, all, embed, w0, p0);
      var n, _, _ := SyncChannel(channels[i], slack, src, embed, store, state, batchSize);
      total := total + n;
      done := done + gs;
    }
    assert channels[|channels|..] == [];
    assert done + [] == done;
  }

  /** The bookkeeping of one channel of the cycle loop. */
  lemma SyncAllStep(channels: seq<Channel>, i: nat, data: map<string, string>, src: Source, batchSize: int,
                    done: seq<seq<Document>>, all: seq<seq<Document>>, embed: seq<string> -> seq<seq<real>>,
                    w0: seq<seq<VectorIndex.Point>>, p0: map<Processor.Uuid, VectorIndex.Point>)
    requires i < |channels|
    requires done + CycleGroups(channels[i..], data, src, batchSize) == all
    ensures var gs := ChannelGroups(channels[i], data, src, batchSize);
      && (done + gs) + CycleGroups(channels[i + 1..], DataAfter(channels[i], data, src), src, batchSize) == all
      && w0 + Written(done + gs, embed) == (w0 + Written(done, embed)) + Written(gs, embed)
      && Stored(p0, done + gs, embed) == Stored(Stored(p0, done, embed), gs, embed)
  {
    var gs := ChannelGroups(channels[i], data, src, batchSize);
    CycleStep(channels, i, data, src, batchSize);
    WrittenAppend(done, gs, embed);
    StoredAppend(p0, done, gs, embed);
    var rest := CycleGroups(channels[i + 1..], DataAfter(channels[i], data, src), src, batchSize);
    Slack.Associative(done, gs, rest);
  }
}
