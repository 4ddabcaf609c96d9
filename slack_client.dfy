/** The Slack side: paginated listing of channels, history and thread replies,
    and the user-name cache. Each Web API call is replaced by its answer: a
    paginated call reads a sequence of responses, one per request, in the
    order the requests are made. */
module Slack {
  import opened Wrappers
  import opened Records

  /** One page of a paginated answer. */
  datatype Page<T> = Page(items: seq<T>, nextCursor: Option<string>)

  /** The answer to one request: a page, or a `SlackApiError` with its error code. */
  datatype Response<T> = Served(page: Page<T>) | Failed(code: string)

  /** `if not cursor: break` fails for a missing and for an empty cursor. */
  predicate Continues<T>(p: Page<T>) {
    p.nextCursor.Some? && p.nextCursor.value != ""
  }

  /** The items of the pages read in turn until one has no next cursor; an error
      ends the reading and keeps what was read before it. */
  function Accumulate<T>(responses: seq<Response<T>>): seq<T>
    decreases |responses|
  {
    if responses == [] then []
    else
      match responses[0]
      case Failed(_) => []
      case Served(p) => p.items + (if Continues(p) then Accumulate(responses[1..]) else [])
  }

  /** Whether the reading of the pages is ended by an error. */
  predicate EndsInError<T>(responses: seq<Response<T>>)
    decreases |responses|
  {
    responses != [] &&
    match responses[0]
    case Failed(_) => true
    case Served(p) => Continues(p) && EndsInError(responses[1..])
  }

  /** The responses serving the pages `ps`, one per request. */
  function AsResponses<T>(ps: seq<Page<T>>): seq<Response<T>> {
    seq(|ps|, k requires 0 <= k < |ps| => Served(ps[k]))
  }

  /** The items of the pages `ps`, one page after the other. */
  function PageItems<T>(ps: seq<Page<T>>): seq<T> {
    if ps == [] then [] else ps[0].items + PageItems(ps[1..])
  }

  /** Pagination keeps page order and stops at the first page without a cursor or the
      first error: a run of pages that all have a next cursor, then a stopping
      response, contribute the run's items in page order followed by the stopping
      page's items, and nothing that comes after is read. The reading ends in an
      error exactly when the stopping response is one. */
  lemma {:induction false} AccumulateRun<T>(ps: seq<Page<T>>, stop: Response<T>, rest: seq<Response<T>>)
    requires forall k :: 0 <= k < |ps| ==> Continues(ps[k])
    requires stop.Failed? || !Continues(stop.page)
    ensures Accumulate(AsResponses(ps) + [stop] + rest) == PageItems(ps) + (if stop.Served? then stop.page.items else [])
    ensures EndsInError(AsResponses(ps) + [stop] + rest) <==> stop.Failed?
    decreases |ps|
  {
    var rs := AsResponses(ps) + [stop] + rest;
    if ps == [] {
      assert rs[0] == stop;
      if stop.Served? {
        assert stop.page.items + [] == stop.page.items;
      }
    } else {
      AccumulateRun(ps[1..], stop, rest);
      assert rs[0] == Served(ps[0]);
      assert rs[1..] == AsResponses(ps[1..]) + [stop] + rest;
      Associative(ps[0].items, PageItems(ps[1..]), if stop.Served? then stop.page.items else []);
    }
  }

  // ---------------------------------------------------------------- channels

  /** `n.lstrip("#")`: every leading '#' removed. */
  function StripHashes(n: string): (r: string)
    ensures r == [] || r[0] != '#'
    ensures |r| <= |n| && r == n[|n| - |r|..]
    ensures forall k :: 0 <= k < |n| - |r| ==> n[k] == '#'
    decreases |n|
  {
    if n != [] && n[0] == '#' then
      var r := StripHashes(n[1..]);
      assert forall k :: 1 <= k < |n| - |r| ==> n[k] == n[1..][k - 1];
      r
    else n
  }

  /** The needle set of an allow-list. */
  function Needles(names: seq<string>): set<string> {
    set n | n in names :: StripHashes(n)
  }

  /** The allow-list filter: the channels whose name or id is a needle, in order.
      Reading `ch["name"]` of a channel without one raises `KeyError`: that
      channel is the error. */
  function Select(channels: seq<Channel>, needle: set<string>): (r: Result<seq<Channel>, Channel>)
    ensures r.Ok? <==> forall k :: 0 <= k < |channels| ==> channels[k].name.Some?
    ensures r.Ok? ==> |r.value| <= |channels|
    ensures r.Ok? ==> forall c :: c in r.value <==> c in channels && (c.name.value in needle || c.id in needle)
    ensures r.Err? ==> r.error in channels && r.error.name.None?
    decreases |channels|
  {
    if channels == [] then Ok([])
    else
      var ch := channels[0];
      if ch.name.None? then Err(ch)
      else
        var rest := Select(channels[1..], needle);
        if rest.Err? then rest
        else
          assert forall k :: 1 <= k < |channels| ==> channels[k] == channels[1..][k - 1];
          Ok((if ch.name.value in needle || ch.id in needle then [ch] else []) + rest.value)
  }

  /** The filter keeps the listing's order: filtering two runs of channels one
      after the other gives the two filtered runs one after the other. */
  lemma {:induction false} SelectAppend(a: seq<Channel>, b: seq<Channel>, needle: set<string>)
    requires Select(a, needle).Ok? && Select(b, needle).Ok?
    ensures Select(a + b, needle) == Ok(Select(a, needle).value + Select(b, needle).value)
    decreases |a|
  {
    if a == [] {
      assert a + b == b;
      assert Select(a, needle).value + Select(b, needle).value == Select(b, needle).value;
    } else {
      assert (a + b)[0] == a[0];
      assert (a + b)[1..] == a[1..] + b;
      SelectAppend(a[1..], b, needle);
      var ch := a[0];
      var head := if ch.name.value in needle || ch.id in needle then [ch] else [];
      Associative(head, Select(a[1..], needle).value, Select(b, needle).value);
    }
  }

  /** The channels `get_public_channels` returns: all it read when no allow-list is
      given (an absent or empty one), else the filtered ones. */
  function PublicChannelsFor(responses: seq<Response<Channel>>, channelNames: Option<seq<string>>): Result<seq<Channel>, Channel> {
    var channels := Accumulate(responses);
    if channelNames.None? || channelNames.value == [] then Ok(channels)
    else Select(channels, Needles(channelNames.value))
  }

  /** A channel named in the allow-list is selected whether it is written `#name`
      or bare `name`. */
  lemma NamedChannelFound(channels: seq<Channel>, names: seq<string>, c: Channel)
    requires forall k :: 0 <= k < |channels| ==> channels[k].name.Some?
    requires c in channels && c.name.Some? && c.name.value != [] && c.name.value[0] != '#'
    requires "#" + c.name.value in names || c.name.value in names
    ensures Select(channels, Needles(names)).Ok?
    ensures c in Select(channels, Needles(names)).value
  {
    var n := if "#" + c.name.value in names then "#" + c.name.value else c.name.value;
    assert ("#" + c.name.value)[1..] == c.name.value;
    assert StripHashes(n) == c.name.value;
    assert c.name.value in Needles(names);
  }

  // ----------------------------------------------------------------- history

  /** The subtypes of membership and channel-settings noise. */
  predicate Noise(m: Message) {
    m.subtype.Some? && m.subtype.value in ["channel_join", "channel_leave", "channel_purpose", "channel_topic"]
  }

  /** The messages of a page that are yielded, in order. */
  function KeptMessages(items: seq<Message>): (r: seq<Message>)
    ensures |r| <= |items|
    ensures forall m :: m in r <==> m in items && !Noise(m)
    decreases |items|
  {
    if items == [] then []
    else
      var last := items[|items| - 1];
      assert forall m :: m in items <==> m in items[..|items| - 1] || m == last;
      KeptMessages(items[..|items| - 1]) + (if Noise(last) then [] else [last])
  }

  /** Filtering commutes with concatenation: order across pages is kept. */
  lemma {:induction false} KeptAppend(a: seq<Message>, b: seq<Message>)
    ensures KeptMessages(a + b) == KeptMessages(a) + KeptMessages(b)
    decreases |b|
  {
    if b == [] {
      assert a + b == a;
    } else {
      var front := b[..|b| - 1];
      assert (a + b)[..|a + b| - 1] == a + front;
      assert (a + b)[|a + b| - 1] == b[|b| - 1];
      KeptAppend(a, front);
    }
  }

  /** Messages without a noise subtype are all kept. */
  lemma {:induction false} KeptAll(items: seq<Message>)
    requires forall k :: 0 <= k < |items| ==> !Noise(items[k])
    ensures KeptMessages(items) == items
    decreases |items|
  {
    if items != [] {
      var front, last := items[..|items| - 1], items[|items| - 1];
      forall k | 0 <= k < |front|
        ensures !Noise(front[k])
      {
        assert front[k] == items[k];
      }
      KeptAll(front);
      assert KeptMessages(items) == KeptMessages(front) + [last];
      assert front + [last] == items;
    }
  }

  /** The loop over one page's messages, skipping noise. */
  method KeepPage(items: seq<Message>) returns (kept: seq<Message>)
    ensures kept == KeptMessages(items)
  {
    kept := [];
    for k := 0 to |items|
      invariant kept == KeptMessages(items[..k])
    {
      KeptSnoc(items, k);
      if !Noise(items[k]) {
        kept := kept + [items[k]];
      } else {
        assert kept + [] == kept;
      }
    }
    assert items[..|items|] == items;
  }

  /** One message of the page loop. */
  lemma KeptSnoc(items: seq<Message>, k: nat)
    requires k < |items|
    ensures KeptMessages(items[..k + 1]) == KeptMessages(items[..k]) + (if Noise(items[k]) then [] else [items[k]])
  {
    assert items[..k + 1][..k] == items[..k];
    assert items[..k + 1][k] == items[k];
  }

  /** The messages `get_channel_messages` yields. A `not_in_channel` error leads to
      one join attempt, whose outcome is the next of `joins`: after a successful
      join the same request is made again; a failed one, or any other error, ends
      the stream. */
  function HistoryMessages(responses: seq<Response<Message>>, joins: seq<bool>): seq<Message>
    decreases |responses|
  {
    if responses == [] then []
    else
      match responses[0]
      case Failed(code) =>
        if code == "not_in_channel" && joins != [] && joins[0] then HistoryMessages(responses[1..], joins[1..])
        else []
      case Served(p) => KeptMessages(p.items) + (if Continues(p) then HistoryMessages(responses[1..], joins) else [])
  }

  /** No noise message is ever yielded, and each yielded message comes from a page that was read. */
  lemma {:induction false} HistoryNoNoise(responses: seq<Response<Message>>, joins: seq<bool>, m: Message)
    requires m in HistoryMessages(responses, joins)
    ensures !Noise(m)
    ensures exists k :: 0 <= k < |responses| && responses[k].Served? && m in responses[k].page.items
    decreases |responses|
  {
    match responses[0]
    case Failed(code) =>
      HistoryNoNoise(responses[1..], joins[1..], m);
      var k :| 0 <= k < |responses[1..]| && responses[1..][k].Served? && m in responses[1..][k].page.items;
      assert responses[k + 1] == responses[1..][k];
    case Served(p) =>
      if m !in KeptMessages(p.items) {
        HistoryNoNoise(responses[1..], joins, m);
        var k :| 0 <= k < |responses[1..]| && responses[1..][k].Served? && m in responses[1..][k].page.items;
        assert responses[k + 1] == responses[1..][k];
      }
  }

  lemma Associative<T>(a: seq<T>, b: seq<T>, c: seq<T>)
    ensures a + (b + c) == (a + b) + c
  {
  }

  /** A stream that needs no join is the filtered concatenation of its pages. */
  lemma {:induction false} HistoryWithoutErrors(responses: seq<Response<Message>>, joins: seq<bool>)
    requires forall k :: 0 <= k < |responses| ==> responses[k].Served?
    ensures HistoryMessages(responses, joins) == KeptMessages(Accumulate(responses))
    decreases |responses|
  {
    if responses != [] {
      var p := responses[0].page;
      if Continues(p) {
        HistoryWithoutErrors(responses[1..], joins);
        KeptAppend(p.items, Accumulate(responses[1..]));
      } else {
        assert p.items + [] == p.items;
      }
    }
  }

  // ----------------------------------------------------------------- replies

  /** `msgs[1:]`. */
  function Drop1<T>(xs: seq<T>): seq<T> {
    if xs == [] then [] else xs[1..]
  }

  /** The replies `get_thread_replies` returns, as written: `acc` is what it has
      gathered so far, and a page's first message is dropped whenever `acc` is
      still empty; an error returns no replies at all. */
  function RepliesAsWritten(responses: seq<Response<Message>>, acc: seq<Message>): seq<Message>
    decreases |responses|
  {
    if responses == [] then acc
    else
      match responses[0]
      case Failed(_) => []
      case Served(p) =>
        var acc' := acc + (if acc == [] then Drop1(p.items) else p.items);
        if Continues(p) then RepliesAsWritten(responses[1..], acc') else acc'
  }

  /** All replies of the thread, its root (the first message of the first page)
      excluded, or none when a request fails: what the function's documentation promises. */
  function IntendedReplies(responses: seq<Response<Message>>): seq<Message> {
    if EndsInError(responses) then [] else Drop1(Accumulate(responses))
  }

  /** Once something is gathered, the as-written loop just concatenates the pages. */
  lemma {:induction false} AsWrittenGathering(responses: seq<Response<Message>>, acc: seq<Message>)
    requires acc != []
    ensures RepliesAsWritten(responses, acc) == if EndsInError(responses) then [] else acc + Accumulate(responses)
    decreases |responses|
  {
    if responses != [] && responses[0].Served? {
      var p := responses[0].page;
      if Continues(p) {
        AsWrittenGathering(responses[1..], acc + p.items);
      }
    }
  }

  /** When the first page holds a reply besides the root, the code does what is intended. */
  lemma AsWrittenAgrees(responses: seq<Response<Message>>)
    requires responses != [] && responses[0].Served? && |responses[0].page.items| >= 2
    ensures RepliesAsWritten(responses, []) == IntendedReplies(responses)
  {
    var p := responses[0].page;
    var rest := responses[1..];
    var acc := p.items[1..];
    AsWrittenFirstPage(responses);
    AccumulateStep(responses, 0);
    assert responses[0..] == responses;
    if Continues(p) {
      AsWrittenGathering(rest, acc);
      Drop1Concat(p.items, Accumulate(rest));
    }
  }

  /** The first page of the as-written loop. */
  lemma AsWrittenFirstPage(responses: seq<Response<Message>>)
    requires responses != [] && responses[0].Served? && responses[0].page.items != []
    ensures var p := responses[0].page;
      RepliesAsWritten(responses, []) == if Continues(p) then RepliesAsWritten(responses[1..], p.items[1..]) else p.items[1..]
  {
    var p := responses[0].page;
    assert [] + Drop1(p.items) == p.items[1..];
  }

  lemma Drop1Concat<T>(a: seq<T>, b: seq<T>)
    requires a != []
    ensures Drop1(a + b) == a[1..] + b
  {
    assert (a + b)[1..] == a[1..] + b;
  }

  /** When the first page holds only the root, the code also drops the first reply
      of the second page. */
  lemma RootOnlyFirstPageDropsReply(root: Message, r1: Message, r2: Message)
    ensures RepliesAsWritten([Served(Page([root], Some("next"))), Served(Page([r1, r2], None))], []) == [r2]
    ensures IntendedReplies([Served(Page([root], Some("next"))), Served(Page([r1, r2], None))]) == [r1, r2]
  {
    var rs := [Served(Page([root], Some("next"))), Served(Page([r1, r2], None))];
    assert rs[1..] == [Served(Page([r1, r2], None))];
    assert rs[1..][1..] == [];
    assert !Continues(rs[1].page);
    assert !EndsInError(rs[1..]);
    assert Accumulate(rs[1..]) == [r1, r2] by {
      assert [r1, r2] + [] == [r1, r2];
    }
    assert Accumulate(rs) == [root] + [r1, r2];
    assert ([root] + [r1, r2])[1..] == [r1, r2];
  }

  /** One page of the history loop. */
  lemma HistoryStep(responses: seq<Response<Message>>, i: nat, joins: seq<bool>, j: nat)
    requires i < |responses| && j <= |joins|
    ensures responses[i].Failed? && responses[i].code == "not_in_channel" && j < |joins| && joins[j] ==>
      HistoryMessages(responses[i..], joins[j..]) == HistoryMessages(responses[i + 1..], joins[j + 1..])
    ensures responses[i].Failed? && !(responses[i].code == "not_in_channel" && j < |joins| && joins[j]) ==>
      HistoryMessages(responses[i..], joins[j..]) == []
    ensures responses[i].Served? && Continues(responses[i].page) ==>
      HistoryMessages(responses[i..], joins[j..]) == KeptMessages(responses[i].page.items) + HistoryMessages(responses[i + 1..], joins[j..])
    ensures responses[i].Served? && !Continues(responses[i].page) ==>
      HistoryMessages(responses[i..], joins[j..]) == KeptMessages(responses[i].page.items)
  {
    assert responses[i..][1..] == responses[i + 1..];
    assert responses[i..][0] == responses[i];
    if j < |joins| {
      assert joins[j..][1..] == joins[j + 1..];
      assert joins[j..][0] == joins[j];
    }
    if responses[i].Served? {
      assert KeptMessages(responses[i].page.items) + [] == KeptMessages(responses[i].page.items);
    }
  }

  /** One page of a pagination loop. */
  lemma AccumulateStep<T>(responses: seq<Response<T>>, i: nat)
    requires i < |responses|
    ensures responses[i].Failed? ==> Accumulate(responses[i..]) == [] && EndsInError(responses[i..])
    ensures responses[i].Served? && Continues(responses[i].page) ==>
      Accumulate(responses[i..]) == responses[i].page.items + Accumulate(responses[i + 1..]) &&
      EndsInError(responses[i..]) == EndsInError(responses[i + 1..])
    ensures responses[i].Served? && !Continues(responses[i].page) ==>
      Accumulate(responses[i..]) == responses[i].page.items && !EndsInError(responses[i..])
  {
    assert responses[i..][1..] == responses[i + 1..];
    assert responses[i..][0] == responses[i];
    if responses[i].Served? {
      assert responses[i].page.items + [] == responses[i].page.items;
    }
  }

  // ------------------------------------------------------------------- users

  /** `resp["user"]["profile"]`, with the keys `get_user_name` reads. */
  datatype Profile = Profile(displayName: Option<string>, realName: Option<string>)

  /** `resp["user"]`: the profile may be missing, and so may the account name. */
  datatype UserInfo = UserInfo(profile: Option<Profile>, name: Option<string>)

  /** The answer to `users.info`. */
  datatype Lookup = Found(user: UserInfo) | LookupFailed

  /** Python's `a or b` on optional strings: `a` unless it is missing or empty. */
  function Or(a: Option<string>, b: string): string {
    if a.Some? && a.value != "" then a.value else b
  }

  /** The first of `candidates` that is present and non-empty, else `default`. */
  function FirstGiven(candidates: seq<Option<string>>, default: string): (r: string)
    ensures r == default || exists k :: 0 <= k < |candidates| && candidates[k] == Some(r) && r != ""
    decreases |candidates|
  {
    if candidates == [] then default
    else if candidates[0].Some? && candidates[0].value != "" then candidates[0].value
    else
      var r := FirstGiven(candidates[1..], default);
      assert r != default ==> exists k :: 0 <= k < |candidates[1..]| && candidates[1..][k] == Some(r) && r != "";
      assert forall k :: 0 <= k < |candidates[1..]| ==> candidates[1..][k] == candidates[k + 1];
      r
  }

  /** The name `get_user_name` settles on for an answer. */
  function NameFor(userId: string, answer: Lookup): string {
    match answer
    case LookupFailed => userId
    case Found(u) =>
      var profile := u.profile.GetOr(Profile(None, None));
      Or(profile.displayName, Or(profile.realName, Or(u.name, userId)))
  }

  /** The fallback chain: display name, real name, account name, then the id itself;
      the first one present and non-empty wins. */
  lemma NameFallback(userId: string, u: UserInfo)
    ensures var profile := u.profile.GetOr(Profile(None, None));
      NameFor(userId, Found(u)) == FirstGiven([profile.displayName, profile.realName, u.name], userId)
  {
    var profile := u.profile.GetOr(Profile(None, None));
    var cs := [profile.displayName, profile.realName, u.name];
    assert cs[1..] == [profile.realName, u.name];
    assert cs[1..][1..] == [u.name];
    assert cs[1..][1..][1..] == [];
    FirstGivenCons(cs[1..][1..], userId);
    FirstGivenCons(cs[1..], userId);
    FirstGivenCons(cs, userId);
  }

  /** One step of the chain: the head if given, else the rest. */
  lemma FirstGivenCons(cs: seq<Option<string>>, default: string)
    requires cs != []
    ensures FirstGiven(cs, default) == Or(cs[0], FirstGiven(cs[1..], default))
  {
  }

  /** A user's name is never empty when the id is not. */
  lemma NameNonEmpty(userId: string, answer: Lookup)
    requires userId != ""
    ensures NameFor(userId, answer) != ""
  {
  }

  /** `SlackClient`: the part of its state the model keeps is the user-name cache.
      `directory` answers `users.info` for each user; `lookups` lists the users
      asked about, in order. */
  class SlackClient {
    const directory: string -> Lookup
    var userCache: map<string, string>
    var lookups: seq<string>

    /** Every cached name is the one the directory's answer gives. */
    predicate Valid()
      reads this
    {
      forall u :: u in userCache ==> userCache[u] == NameFor(u, directory(u))
    }

    constructor (directory: string -> Lookup)
      ensures this.directory == directory && userCache == map[] && lookups == []
      ensures Valid()
    {
      this.directory := directory;
      userCache := map[];
      lookups := [];
    }

    /** `get_user_name`: a cached name is returned without a call; otherwise the
        directory is asked once and its answer, whatever it is, is cached. */
    method UserName(userId: string) returns (name: string)
      requires Valid()
      modifies this
      ensures Valid()
      ensures name == NameFor(userId, directory(userId))
      ensures userCache == old(userCache)[userId := name]
      ensures userId in old(userCache) ==> lookups == old(lookups)
      ensures userId !in old(userCache) ==> lookups == old(lookups) + [userId]
    {
      if userId in userCache {
        name := userCache[userId];
        return;
      }
      lookups := lookups + [userId];
      name := NameFor(userId, directory(userId));
      userCache := userCache[userId := name];
    }

    /** `get_public_channels`: the pages are read until one has no next cursor or a
        request fails; then the allow-list, if any, is applied. */
    method PublicChannels(responses: seq<Response<Channel>>, channelNames: Option<seq<string>>)
      returns (result: Result<seq<Channel>, Channel>)
      ensures result == PublicChannelsFor(responses, channelNames)
    {
      var channels: seq<Channel> := [];
      var i := 0;
      var done := false;
      while i < |responses| && !done
        invariant 0 <= i <= |responses|
        invariant !done ==> channels + Accumulate(responses[i..]) == Accumulate(responses)
        invariant done ==> channels == Accumulate(responses)
        decreases |responses| - i, !done
      {
        assert responses[i..][1..] == responses[i + 1..];
        match responses[i]
        case Failed(_) =>
          assert channels + [] == channels;
          done := true;
        case Served(page) =>
          channels := channels + page.items;
          if Continues(page) {
            i := i + 1;
          } else {
            assert channels + [] == channels;
            done := true;
          }
      }
      if !done {
        assert responses[i..] == [];
        assert channels + [] == channels;
      }
      if channelNames.Some? && channelNames.value != [] {
        result := Select(channels, Needles(channelNames.value));
      } else {
        result := Ok(channels);
      }
    }

    /** `get_channel_messages`, its yields collected in order. */
    method ChannelMessages(responses: seq<Response<Message>>, joins: seq<bool>) returns (messages: seq<Message>)
      ensures messages == HistoryMessages(responses, joins)
    {
      messages := [];
      var i, j := 0, 0;
      while i < |responses|
        invariant 0 <= i <= |responses| && 0 <= j <= |joins|
        invariant messages + HistoryMessages(responses[i..], joins[j..]) == HistoryMessages(responses, joins)
        decreases |responses| - i
      {
        HistoryStep(responses, i, joins, j);
        match responses[i]
        case Failed(code) =>
          if code == "not_in_channel" && j < |joins| && joins[j] {
            i, j := i + 1, j + 1;
          } else {
            assert messages + [] == messages;
            return;
          }
        case Served(page) =>
          var kept := KeepPage(page.items);
          Associative(messages, kept, HistoryMessages(responses[i + 1..], joins[j..]));
          messages := messages + kept;
          if !Continues(page) {
            assert messages + [] == messages;
            return;
          }
          i := i + 1;
      }
      assert responses[i..] == [];
      assert messages + [] == messages;
    }

    /** `get_thread_replies` as written: the first message of a page is dropped
        while nothing has been gathered yet. */
    method ThreadRepliesAsWritten(responses: seq<Response<Message>>) returns (replies: seq<Message>)
      ensures replies == RepliesAsWritten(responses, [])
    {
      replies := [];
      var i := 0;
      while i < |responses|
        invariant 0 <= i <= |responses|
        invariant RepliesAsWritten(responses[i..], replies) == RepliesAsWritten(responses, [])
        decreases |responses| - i
      {
        assert responses[i..][1..] == responses[i + 1..];
        match responses[i]
        case Failed(_) =>
          return [];
        case Served(page) =>
          replies := replies + (if replies == [] then Drop1(page.items) else page.items);
          if !Continues(page) {
            return;
          }
          i := i + 1;
      }
      assert responses[i..] == [];
    }

    /** `get_thread_replies` with the root dropped from the first page only. */
    method ThreadReplies(responses: seq<Response<Message>>) returns (replies: seq<Message>)
      ensures replies == IntendedReplies(responses)
    {
      var gathered: seq<Message> := [];
      var i := 0;
      while i < |responses|
        invariant 0 <= i <= |responses|
        invariant EndsInError(responses) == EndsInError(responses[i..])
        invariant gathered + Accumulate(responses[i..]) == Accumulate(responses)
        decreases |responses| - i
      {
        AccumulateStep(responses, i);
        match responses[i]
        case Failed(_) =>
          return [];
        case Served(page) =>
          gathered := gathered + page.items;
          if !Continues(page) {
            assert gathered + [] == gathered;
            return Drop1(gathered);
          }
          i := i + 1;
      }
      assert responses[i..] == [];
      assert gathered + [] == gathered;
      replies := Drop1(gathered);
    }
  }
}
