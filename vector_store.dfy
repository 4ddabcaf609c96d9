/** The vector store: documents become points (id, vector, payload), and a
    search turns optional channel and date arguments into a filter and each
    hit into a flat result record. The store's own ranking and storage engine
    are not modelled; the points it holds are a map from id to point. */
module VectorIndex {
  import opened Wrappers
  import opened Processor

  datatype Point = Point(id: Uuid, vector: seq<real>, payload: Payload)

  function Min(a: nat, b: nat): nat {
    if a <= b then a else b
  }

  // ------------------------------------------------------------------ upsert

  /** The points of an upsert: documents and vectors paired by position, as
      `zip` pairs them, so the longer list is cut to the shorter. */
  function Points(docs: seq<Document>, vectors: seq<seq<real>>): (ps: seq<Point>)
    ensures |ps| == Min(|docs|, |vectors|)
    ensures forall i :: 0 <= i < |ps| ==>
      ps[i].id == docs[i].id && ps[i].vector == vectors[i] && ps[i].payload == PayloadOf(docs[i])
  {
    seq(Min(|docs|, |vectors|), i requires 0 <= i < Min(|docs|, |vectors|) =>
      Point(docs[i].id, vectors[i], PayloadOf(docs[i])))
  }

  /** What the store holds after an upsert of `ps`: each point replaces any point
      with its id, later points of the batch replacing earlier ones. */
  function Apply(index: map<Uuid, Point>, ps: seq<Point>): map<Uuid, Point>
    decreases |ps|
  {
    if ps == [] then index
    else
      var last := ps[|ps| - 1];
      Apply(index, ps[..|ps| - 1])[last.id := last]
  }

  /** The last point of `ps` carrying `id`, if any. */
  function LastWith(ps: seq<Point>, id: Uuid): (r: Option<Point>)
    ensures r.Some? ==> r.value.id == id && r.value in ps
    decreases |ps|
  {
    if ps == [] then None
    else if ps[|ps| - 1].id == id then Some(ps[|ps| - 1])
    else LastWith(ps[..|ps| - 1], id)
  }

  /** The stored point under an id is the batch's last point with that id, or
      else what was stored before. */
  lemma {:induction false} ApplyAt(index: map<Uuid, Point>, ps: seq<Point>, id: Uuid)
    ensures id in Apply(index, ps) <==> id in index || LastWith(ps, id).Some?
    ensures LastWith(ps, id).Some? ==> Apply(index, ps)[id] == LastWith(ps, id).value
    ensures LastWith(ps, id).None? && id in index ==> Apply(index, ps)[id] == index[id]
    decreases |ps|
  {
    if ps != [] {
      ApplyAt(index, ps[..|ps| - 1], id);
    }
  }

  /** Upserting the same points twice stores the same as upserting them once:
      re-indexing a message with its deterministic ids leaves no duplicates. */
  lemma ApplyIdempotent(index: map<Uuid, Point>, ps: seq<Point>)
    ensures Apply(Apply(index, ps), ps) == Apply(index, ps)
  {
    var once := Apply(index, ps);
    var twice := Apply(once, ps);
    forall id | true
      ensures id in twice <==> id in once
      ensures id in twice ==> twice[id] == once[id]
    {
      ApplyAt(index, ps, id);
      ApplyAt(once, ps, id);
    }
  }

  /** With distinct ids, every document of an upsert is stored under its own id
      with its own vector and payload. */
  lemma UpsertStoresEach(index: map<Uuid, Point>, docs: seq<Document>, vectors: seq<seq<real>>, i: nat)
    requires i < |docs| && i < |vectors|
    requires forall a, b :: 0 <= a < b < |docs| ==> docs[a].id != docs[b].id
    ensures docs[i].id in Apply(index, Points(docs, vectors))
    ensures Apply(index, Points(docs, vectors))[docs[i].id] == Point(docs[i].id, vectors[i], PayloadOf(docs[i]))
  {
    var ps := Points(docs, vectors);
    LastWithUnique(ps, i);
    ApplyAt(index, ps, docs[i].id);
  }

  lemma {:induction false} LastWithUnique(ps: seq<Point>, i: nat)
    requires i < |ps|
    requires forall a :: 0 <= a < |ps| && a != i ==> ps[a].id != ps[i].id
    ensures LastWith(ps, ps[i].id) == Some(ps[i])
    decreases |ps|
  {
    if i < |ps| - 1 {
      var front := ps[..|ps| - 1];
      forall a | 0 <= a < |front| && a != i ensures front[a].id != front[i].id {
        assert front[a] == ps[a];
      }
      LastWithUnique(front, i);
    }
  }

  // ----------------------------------------------------------------- search

  /** One condition of a search filter. */
  datatype Condition =
    | MatchChannelId(channelId: string)
    | MatchChannelName(channelName: string)
    | DateAtLeast(from: string)
    | DateAtMost(to: string)

  /** Python truthiness of an optional string: present and non-empty. */
  predicate Given(arg: Option<string>) {
    arg.Some? && arg.value != ""
  }

  /** The condition a channel argument becomes: an id match for values starting
      with 'C', a name match otherwise. */
  function ChannelCondition(channelFilter: string): Condition {
    if channelFilter != [] && channelFilter[0] == 'C' then MatchChannelId(channelFilter)
    else MatchChannelName(channelFilter)
  }

  /** The condition list `search` builds. */
  function ConditionsFor(channelFilter: Option<string>, dateFrom: Option<string>, dateTo: Option<string>): seq<Condition> {
    (if Given(channelFilter) then [ChannelCondition(channelFilter.value)] else [])
    + (if Given(dateFrom) then [DateAtLeast(dateFrom.value)] else [])
    + (if Given(dateTo) then [DateAtMost(dateTo.value)] else [])
  }

  /** `Filter(must=conditions) if conditions else None`. */
  function QueryFilter(conditions: seq<Condition>): (f: Option<seq<Condition>>)
    ensures f.None? <==> conditions == []
    ensures f.Some? ==> f.value == conditions
  {
    if conditions == [] then None else Some(conditions)
  }

  /** The successive appends at the start of `search`. */
  method BuildConditions(channelFilter: Option<string>, dateFrom: Option<string>, dateTo: Option<string>)
    returns (conditions: seq<Condition>)
    ensures conditions == ConditionsFor(channelFilter, dateFrom, dateTo)
  {
    conditions := [];
    if Given(channelFilter) {
      conditions := conditions + [ChannelCondition(channelFilter.value)];
    }
    if Given(dateFrom) {
      conditions := conditions + [DateAtLeast(dateFrom.value)];
    }
    if Given(dateTo) {
      conditions := conditions + [DateAtMost(dateTo.value)];
    }
  }

  function Count(b: bool): nat {
    if b then 1 else 0
  }

  /** One condition per argument given, at most one of each kind, and no filter at all
      exactly when no argument is given. */
  lemma ConditionsCount(channelFilter: Option<string>, dateFrom: Option<string>, dateTo: Option<string>)
    ensures |ConditionsFor(channelFilter, dateFrom, dateTo)| ==
      Count(Given(channelFilter)) + Count(Given(dateFrom)) + Count(Given(dateTo))
    ensures QueryFilter(ConditionsFor(channelFilter, dateFrom, dateTo)).None? <==>
      !Given(channelFilter) && !Given(dateFrom) && !Given(dateTo)
  {
  }

  /** Python's `<=` on strings: code point by code point, a prefix first. */
  predicate LexLe(a: string, b: string)
    decreases |a|
  {
    a == [] || (b != [] && (a[0] < b[0] || (a[0] == b[0] && LexLe(a[1..], b[1..]))))
  }

  lemma {:induction false} LexLeReflexive(a: string)
    ensures LexLe(a, a)
    decreases |a|
  {
    if a != [] {
      LexLeReflexive(a[1..]);
    }
  }

  /** Whether a stored payload meets one condition. Dates compare as strings,
      both bounds inclusive. */
  predicate Holds(c: Condition, p: Payload) {
    match c
    case MatchChannelId(v) => StrField(p, "channel_id") == Some(v)
    case MatchChannelName(v) => StrField(p, "channel_name") == Some(v)
    case DateAtLeast(d) => StrField(p, "date").Some? && LexLe(d, StrField(p, "date").value)
    case DateAtMost(d) => StrField(p, "date").Some? && LexLe(StrField(p, "date").value, d)
  }

  /** Whether a payload passes the filter sent with the query: everything passes no filter. */
  predicate Passes(filter: Option<seq<Condition>>, p: Payload) {
    filter.None? || AllHold(filter.value, p)
  }

  /** The documented meaning of the search arguments, stated on its own: the given
      channel, by id or by name, and the given inclusive date range. */
  predicate Selected(channelFilter: Option<string>, dateFrom: Option<string>, dateTo: Option<string>, p: Payload) {
    && (Given(channelFilter) ==>
          if channelFilter.value[0] == 'C' then StrField(p, "channel_id") == channelFilter
          else StrField(p, "channel_name") == channelFilter)
    && (Given(dateFrom) ==> StrField(p, "date").Some? && LexLe(dateFrom.value, StrField(p, "date").value))
    && (Given(dateTo) ==> StrField(p, "date").Some? && LexLe(StrField(p, "date").value, dateTo.value))
  }

  /** Every condition of `x + y` holds exactly when every one of `x` and every one of `y` does. */
  predicate AllHold(cs: seq<Condition>, p: Payload) {
    forall k :: 0 <= k < |cs| ==> Holds(cs[k], p)
  }

  lemma AllHoldConcat(x: seq<Condition>, y: seq<Condition>, p: Payload)
    ensures AllHold(x + y, p) <==> AllHold(x, p) && AllHold(y, p)
  {
    if AllHold(x, p) && AllHold(y, p) {
      forall k | 0 <= k < |x + y| ensures Holds((x + y)[k], p) {
        if k >= |x| {
          assert (x + y)[k] == y[k - |x|];
        }
      }
    }
    if AllHold(x + y, p) {
      forall k | 0 <= k < |x| ensures Holds(x[k], p) {
        assert (x + y)[k] == x[k];
      }
      forall k | 0 <= k < |y| ensures Holds(y[k], p) {
        assert (x + y)[k + |x|] == y[k];
      }
    }
  }

  /** The filter `search` sends admits exactly the payloads the arguments select. */
  lemma FilterMeaning(channelFilter: Option<string>, dateFrom: Option<string>, dateTo: Option<string>, p: Payload)
    ensures Passes(QueryFilter(ConditionsFor(channelFilter, dateFrom, dateTo)), p) <==>
      Selected(channelFilter, dateFrom, dateTo, p)
  {
    var a := if Given(channelFilter) then [ChannelCondition(channelFilter.value)] else [];
    var b := if Given(dateFrom) then [DateAtLeast(dateFrom.value)] else [];
    var c := if Given(dateTo) then [DateAtMost(dateTo.value)] else [];
    assert ConditionsFor(channelFilter, dateFrom, dateTo) == a + b + c;
    AllHoldConcat(a + b, c, p);
    AllHoldConcat(a, b, p);
    if Given(channelFilter) {
      AllHoldSingle(ChannelCondition(channelFilter.value), p);
    }
    if Given(dateFrom) {
      AllHoldSingle(DateAtLeast(dateFrom.value), p);
    }
    if Given(dateTo) {
      AllHoldSingle(DateAtMost(dateTo.value), p);
    }
  }

  lemma AllHoldSingle(c: Condition, p: Payload)
    ensures AllHold([c], p) <==> Holds(c, p)
  {
    assert [c][0] == c;
  }

  /** Both date bounds are inclusive: a document dated on the bound itself is found. */
  lemma DateBoundsInclusive(d: Document)
    ensures Passes(QueryFilter(ConditionsFor(None, Some(d.date), Some(d.date))), PayloadOf(d))
  {
    FilterMeaning(None, Some(d.date), Some(d.date), PayloadOf(d));
    LexLeReflexive(d.date);
    assert StrField(PayloadOf(d), "date") == Some(d.date);
  }

  // --------------------------------------------------------------- results

  /** A hit as the store returns it. */
  datatype Hit = Hit(score: real, payload: Payload)

  /** `{"score": hit.score, **hit.payload}`: a payload field named "score" would win. */
  function Reshape(hit: Hit): (r: Payload)
    ensures r.Keys == hit.payload.Keys + {"score"}
    ensures forall k :: k in hit.payload ==> r[k] == hit.payload[k]
    ensures "score" !in hit.payload ==> r["score"] == Num(hit.score)
  {
    map["score" := Num(hit.score)] + hit.payload
  }

  /** The results of a search, in the order of the hits. */
  function Results(hits: seq<Hit>): (rs: seq<Payload>)
    ensures |rs| == |hits|
    ensures forall i :: 0 <= i < |rs| ==> rs[i] == Reshape(hits[i])
  {
    seq(|hits|, i requires 0 <= i < |hits| => Reshape(hits[i]))
  }

  /** A result for a stored document carries its score and gives the document back. */
  lemma ResultOfDocument(d: Document, score: real)
    ensures Reshape(Hit(score, PayloadOf(d)))["score"] == Num(score)
    ensures DocumentFromPayload(d.id, Reshape(Hit(score, PayloadOf(d)))) == Some(d)
  {
    var p := PayloadOf(d);
    var r := Reshape(Hit(score, p));
    assert "score" !in p;
    SameFields(d.id, p, r);
    PayloadRoundTrip(d);
  }

  /** Reading a document back looks at its own fields only. */
  lemma SameFields(id: Uuid, p: Payload, q: Payload)
    requires forall k :: k in p ==> k in q && q[k] == p[k]
    requires forall k :: k in q ==> k in p || k == "score"
    ensures DocumentFromPayload(id, p) == DocumentFromPayload(id, q)
  {
    assert StrField(p, "text") == StrField(q, "text");
    assert StrField(p, "channel_id") == StrField(q, "channel_id");
    assert StrField(p, "channel_name") == StrField(q, "channel_name");
    assert StrField(p, "ts") == StrField(q, "ts");
    assert StrField(p, "date") == StrField(q, "date");
    assert StrField(p, "user_id") == StrField(q, "user_id");
    assert StrField(p, "user_name") == StrField(q, "user_name");
    assert StrField(p, "permalink") == StrField(q, "permalink");
    assert ("thread_ts" in p) == ("thread_ts" in q);
    assert ("reply_count" in p) == ("reply_count" in q);
  }

  // ------------------------------------------------------------------ store

  /** `VectorStore`: the collection's points, and the batches written to it. */
  class VectorStore {
    const collection: string
    var points: map<Uuid, Point>
    var writes: seq<seq<Point>>

    constructor (collection: string)
      ensures this.collection == collection && points == map[] && writes == []
    {
      this.collection := collection;
      points := map[];
      writes := [];
    }

    /** `upsert`: nothing is written for an empty document list; otherwise the
        paired points are sent in one write and replace the points with their ids. */
    method Upsert(docs: seq<Document>, vectors: seq<seq<real>>)
      modifies this
      ensures docs == [] ==> points == old(points) && writes == old(writes)
      ensures docs != [] ==> writes == old(writes) + [Points(docs, vectors)]
      ensures docs != [] ==> points == Apply(old(points), Points(docs, vectors))
    {
      if docs == [] {
        return;
      }
      var ps := Points(docs, vectors);
      points := Apply(points, ps);
      writes := writes + [ps];
    }

    /** `search`: the filter sent with the query, and the results made of the hits the
        store answers with (passed in, as the store's ranking is not modelled). */
    method Search(channelFilter: Option<string>, dateFrom: Option<string>, dateTo: Option<string>, hits: seq<Hit>)
      returns (filter: Option<seq<Condition>>, results: seq<Payload>)
      ensures filter == QueryFilter(ConditionsFor(channelFilter, dateFrom, dateTo))
      ensures forall p :: Passes(filter, p) <==> Selected(channelFilter, dateFrom, dateTo, p)
      ensures |results| == |hits|
      ensures forall i :: 0 <= i < |hits| ==> results[i] == Reshape(hits[i])
    {
      var conditions := BuildConditions(channelFilter, dateFrom, dateTo);
      filter := if conditions != [] then Some(conditions) else None;
      forall p ensures Passes(filter, p) <==> Selected(channelFilter, dateFrom, dateTo, p) {
        FilterMeaning(channelFilter, dateFrom, dateTo, p);
      }
      results := Results(hits);
    }
  }
}
