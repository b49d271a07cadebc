/**
 * The batch accumulator of internal/dao/batch_upload.go: a single consumer
 * loop that drains the event channel, appends each serialized event to a
 * pending newline-joined payload, and hands the payload to the sink when a
 * size threshold, a count threshold, or a quiet timer is reached.
 */
module Dao {
  import opened Wrappers
  import opened GoValues
  import opened JsonLines

  /** `EventJson`: one normalized event as it travels through the channel. */
  datatype EventJson = EventJson(
    event: Record,
    time: Int64,
    host: string,
    source: string,
    sourceType: string,
    index: string)

  /** The arguments of one `Upload(payload, count)` call. */
  datatype Batch = Batch(payload: seq<byte>, count: int)

  /** The upload a list of lines makes: their joined body and their number. */
  function BatchOf(ls: seq<Line>): Batch {
    Batch(Join(ls), |ls|)
  }

  /** The uploads made for a sequence of batches of lines. */
  function UploadsOf(bs: seq<seq<Line>>): seq<Batch> {
    if bs == [] then [] else UploadsOf(bs[..|bs| - 1]) + [BatchOf(bs[|bs| - 1])]
  }

  lemma UploadsOfSnoc(bs: seq<seq<Line>>, b: seq<Line>)
    ensures UploadsOf(bs + [b]) == UploadsOf(bs) + [BatchOf(b)]
  {
    assert (bs + [b])[..|bs|] == bs;
  }

  /** The lines of several batches, in order. */
  function Concat(bs: seq<seq<Line>>): seq<Line> {
    if bs == [] then [] else Concat(bs[..|bs| - 1]) + bs[|bs| - 1]
  }

  lemma ConcatSnoc(bs: seq<seq<Line>>, b: seq<Line>)
    ensures Concat(bs + [b]) == Concat(bs) + b
  {
    assert (bs + [b])[..|bs|] == bs;
  }

  /** What the sink can read back from a sequence of uploads: every body's lines, in order. */
  function Unbatch(us: seq<Batch>): seq<seq<byte>> {
    if us == [] then [] else Unbatch(us[..|us| - 1]) + Decode(us[|us| - 1].payload)
  }

  /** The serialized form of a sequence of events. */
  function Serialize(marshal: EventJson -> Line, es: seq<EventJson>): seq<Line> {
    if es == [] then [] else Serialize(marshal, es[..|es| - 1]) + [marshal(es[|es| - 1])]
  }

  lemma SerializeSnoc(marshal: EventJson -> Line, es: seq<EventJson>, e: EventJson)
    ensures Serialize(marshal, es + [e]) == Serialize(marshal, es) + [marshal(e)]
  {
    assert (es + [e])[..|es|] == es;
  }

  /**
   * Uploads built from batches of lines decode to exactly those lines, and
   * every count equals the number of lines in its body.
   */
  lemma {:induction false} UnbatchUploads(bs: seq<seq<Line>>)
    ensures |UploadsOf(bs)| == |bs|
    ensures Unbatch(UploadsOf(bs)) == Concat(bs)
    ensures forall i | 0 <= i < |bs| :: UploadsOf(bs)[i].count == |Decode(UploadsOf(bs)[i].payload)|
  {
    if bs != [] {
      var n := |bs| - 1;
      UnbatchUploads(bs[..n]);
      DecodeJoin(bs[n]);
      var us := UploadsOf(bs);
      assert us[..n] == UploadsOf(bs[..n]);
      forall i | 0 <= i < |bs| ensures us[i].count == |Decode(us[i].payload)| {
        if i < n {
          assert us[i] == UploadsOf(bs[..n])[i];
        }
      }
    }
  }

  /** The pending lines after a step, and the batches the step uploaded, in order. */
  datatype Outcome = Outcome(pending: seq<Line>, flushed: seq<seq<Line>>)

  /**
   * One received event (lines 58-78): append its line, then upload if the
   * body has reached `maxSize` bytes, then, independently, upload if the
   * count has reached `maxCount`.
   */
  function Accept(pending: seq<Line>, line: Line, maxCount: int, maxSize: int): (o: Outcome)
    // nothing is lost, reordered or duplicated
    ensures Concat(o.flushed) + o.pending == pending + [line]
  {
    var grown := pending + [line];
    assert [] + [grown] == [grown];
    ConcatSnoc([], grown);
    assert Concat([grown]) == grown;
    ConcatSnoc([grown], []);
    var afterSize := if |Join(grown)| >= maxSize then Outcome([], [grown]) else Outcome(grown, []);
    if |afterSize.pending| >= maxCount then
      Outcome([], afterSize.flushed + [afterSize.pending])
    else
      afterSize
  }

  /**
   * With positive thresholds every event step ends below both of them, and
   * with a positive count threshold it makes at most one upload, never an
   * empty one.
   */
  lemma AcceptBounds(pending: seq<Line>, line: Line, maxCount: int, maxSize: int)
    ensures var o := Accept(pending, line, maxCount, maxSize);
      maxSize >= 1 ==> |Join(o.pending)| < maxSize
    ensures var o := Accept(pending, line, maxCount, maxSize);
      maxCount >= 1 ==> |o.pending| < maxCount
    ensures var o := Accept(pending, line, maxCount, maxSize);
      maxCount >= 1 ==> |o.flushed| <= 1 && forall b <- o.flushed :: b != []
  {
  }

  /**
   * An upload happens exactly when a threshold is reached, and any upload
   * leaves nothing pending.  The size threshold uploads the whole grown
   * payload first, and a non-positive count threshold then uploads an empty
   * payload after it; the count threshold alone uploads the whole grown
   * payload as one body.
   */
  lemma AcceptFlushes(pending: seq<Line>, line: Line, maxCount: int, maxSize: int)
    ensures var o := Accept(pending, line, maxCount, maxSize);
      o.flushed == [] <==> |Join(pending + [line])| < maxSize && |pending| + 1 < maxCount
    ensures var o := Accept(pending, line, maxCount, maxSize);
      |Join(pending + [line])| >= maxSize ==> o.flushed != [] && o.flushed[0] == pending + [line]
    ensures var o := Accept(pending, line, maxCount, maxSize);
      maxCount <= 0 && |Join(pending + [line])| >= maxSize ==> o.flushed == [pending + [line], []]
    ensures var o := Accept(pending, line, maxCount, maxSize);
      o.flushed != [] ==> o.pending == []
    ensures var o := Accept(pending, line, maxCount, maxSize);
      |Join(pending + [line])| < maxSize && |pending| + 1 >= maxCount ==> o.flushed == [pending + [line]]
  {
  }

  /** The quiet timer firing (lines 81-85): upload the pending lines if there are any. */
  function Expire(pending: seq<Line>): (o: Outcome)
    ensures Concat(o.flushed) + o.pending == pending
    ensures o.pending == []
    ensures o.flushed == [] <==> pending == []
    // the pending lines go out together, as a single upload
    ensures pending != [] ==> o.flushed == [pending]
  {
    if |pending| > 0 then Outcome([], [pending]) else Outcome(pending, [])
  }

  /** `MAX_BATCH_DELAY_MS` as the loop uses it: non-positive values become 1 ms. */
  function ClampDelay(ms: int): (r: int)
    ensures r >= 1
    ensures ms >= 1 ==> r == ms
    ensures ms < 1 ==> r == 1
  {
    if ms <= 0 then 1 else ms
  }

  /**
   * One channel item taken by the loop after outcome `o` (lines 52-78): an
   * event is accepted, a nil uploads nothing and leaves `o` as it is.
   */
  function Take(o: Outcome, x: Option<EventJson>, marshal: EventJson -> Line,
                maxCount: int, maxSize: int): Outcome
  {
    match x
    case None => o
    case Some(e) =>
      var a := Accept(o.pending, marshal(e), maxCount, maxSize);
      Outcome(a.pending, o.flushed + a.flushed)
  }

  /** The outcome of the loop taking `items` in order, starting from `pending`. */
  function Consume(pending: seq<Line>, items: seq<Option<EventJson>>, marshal: EventJson -> Line,
                   maxCount: int, maxSize: int): Outcome
  {
    if items == [] then Outcome(pending, [])
    else Take(Consume(pending, items[..|items| - 1], marshal, maxCount, maxSize), items[|items| - 1],
              marshal, maxCount, maxSize)
  }

  lemma ConsumeSnoc(pending: seq<Line>, items: seq<Option<EventJson>>, x: Option<EventJson>,
                    marshal: EventJson -> Line, maxCount: int, maxSize: int)
    ensures Consume(pending, items + [x], marshal, maxCount, maxSize)
         == Take(Consume(pending, items, marshal, maxCount, maxSize), x, marshal, maxCount, maxSize)
  {
    assert (items + [x])[..|items|] == items;
  }

  /** The timer firing, if it `fired`, after an outcome: the pending lines are uploaded once. */
  function Settle(o: Outcome, fired: bool): Outcome {
    if fired then
      var e := Expire(o.pending);
      Outcome(e.pending, o.flushed + e.flushed)
    else o
  }

  lemma {:induction false} ConcatAppend(xs: seq<seq<Line>>, ys: seq<seq<Line>>)
    ensures Concat(xs + ys) == Concat(xs) + Concat(ys)
    decreases |ys|
  {
    if ys == [] {
      assert xs + ys == xs;
      assert Concat(xs) + Concat(ys) == Concat(xs) + [];
    } else {
      var n := |ys| - 1;
      ConcatAppend(xs, ys[..n]);
      assert xs + ys == (xs + ys[..n]) + [ys[n]];
      assert ys == ys[..n] + [ys[n]];
      ConcatSnoc(xs + ys[..n], ys[n]);
      ConcatSnoc(ys[..n], ys[n]);
      Regroup(Concat(xs), Concat(ys[..n]), ys[n], Concat(ys));
    }
  }

  /** Taking one item appends its line, if it is an event, to what was uploaded and pending. */
  lemma TakeDelivers(o: Outcome, x: Option<EventJson>, marshal: EventJson -> Line, maxCount: int, maxSize: int)
    ensures var t := Take(o, x, marshal, maxCount, maxSize);
      Concat(t.flushed) + t.pending
      == Concat(o.flushed) + o.pending + (if x.Some? then [marshal(x.value)] else [])
  {
    if x.Some? {
      AcceptDelivers(o, marshal(x.value), maxCount, maxSize);
    } else {
      assert Take(o, x, marshal, maxCount, maxSize) == o;
      assert Concat(o.flushed) + o.pending + [] == Concat(o.flushed) + o.pending;
    }
  }

  lemma AcceptDelivers(o: Outcome, line: Line, maxCount: int, maxSize: int)
    ensures var a := Accept(o.pending, line, maxCount, maxSize);
      Concat(o.flushed + a.flushed) + a.pending == Concat(o.flushed) + o.pending + [line]
  {
    var a := Accept(o.pending, line, maxCount, maxSize);
    ConcatAppend(o.flushed, a.flushed);
    Regroup(Concat(o.flushed), Concat(a.flushed), a.pending, o.pending + [line]);
  }

  lemma Regroup<T>(x: seq<T>, y: seq<T>, z: seq<T>, w: seq<T>)
    requires y + z == w
    ensures (x + y) + z == x + w
  {
  }

  /**
   * Taking items loses, reorders and duplicates nothing: the uploaded lines
   * and then the pending ones are the old pending lines followed by the
   * serialized events among the items, in order.
   */
  lemma {:induction false} ConsumeDelivers(pending: seq<Line>, items: seq<Option<EventJson>>,
                                           marshal: EventJson -> Line, maxCount: int, maxSize: int)
    ensures var o := Consume(pending, items, marshal, maxCount, maxSize);
      Concat(o.flushed) + o.pending == pending + Serialize(marshal, Present(items))
  {
    if items == [] {
      assert Consume(pending, items, marshal, maxCount, maxSize) == Outcome(pending, []);
      assert Serialize(marshal, Present(items)) == [];
      assert Concat([]) + pending == pending + [];
    } else {
      var n := |items| - 1;
      assert items == items[..n] + [items[n]];
      ConsumeDelivers(pending, items[..n], marshal, maxCount, maxSize);
      DeliversSnoc(pending, items[..n], items[n], marshal, maxCount, maxSize);
    }
  }

  /** The step of `ConsumeDelivers` for one more item. */
  lemma DeliversSnoc(pending: seq<Line>, init: seq<Option<EventJson>>, x: Option<EventJson>,
                     marshal: EventJson -> Line, maxCount: int, maxSize: int)
    requires var o := Consume(pending, init, marshal, maxCount, maxSize);
      Concat(o.flushed) + o.pending == pending + Serialize(marshal, Present(init))
    ensures var o := Consume(pending, init + [x], marshal, maxCount, maxSize);
      Concat(o.flushed) + o.pending == pending + Serialize(marshal, Present(init + [x]))
  {
    ConsumeSnoc(pending, init, x, marshal, maxCount, maxSize);
    var o := Consume(pending, init, marshal, maxCount, maxSize);
    var t := Take(o, x, marshal, maxCount, maxSize);
    var tail := if x.Some? then [marshal(x.value)] else [];
    TakeDelivers(o, x, marshal, maxCount, maxSize);
    SerializePresentSnoc(marshal, init, x);
    assert Consume(pending, init + [x], marshal, maxCount, maxSize) == t;
    assert Serialize(marshal, Present(init + [x])) == Serialize(marshal, Present(init)) + tail;
    Regroup(pending, Serialize(marshal, Present(init)), tail, Serialize(marshal, Present(init + [x])));
  }

  lemma SerializePresentSnoc(marshal: EventJson -> Line, items: seq<Option<EventJson>>, x: Option<EventJson>)
    ensures Serialize(marshal, Present(items + [x]))
         == Serialize(marshal, Present(items)) + (if x.Some? then [marshal(x.value)] else [])
  {
    PresentSnoc(items, x);
    if x.Some? {
      SerializeSnoc(marshal, Present(items), x.value);
    } else {
      assert Present(items) + [] == Present(items);
      assert Serialize(marshal, Present(items)) + [] == Serialize(marshal, Present(items));
    }
  }

  /** Every item of a channel without nil carries an event, so it serializes to one line. */
  lemma {:induction false} SerializeLen(marshal: EventJson -> Line, items: seq<Option<EventJson>>)
    requires None !in items
    ensures |Serialize(marshal, Present(items))| == |items|
  {
    if items != [] {
      var n := |items| - 1;
      assert items == items[..n] + [items[n]];
      SerializeLen(marshal, items[..n]);
      SerializePresentSnoc(marshal, items[..n], items[n]);
    }
  }

  /**
   * Events that stay below both thresholds are never uploaded on arrival:
   * taking them from an empty builder leaves all their lines pending, in
   * arrival order.
   */
  lemma {:induction false} QuietFlushAll(items: seq<Option<EventJson>>, marshal: EventJson -> Line,
                                         maxCount: int, maxSize: int)
    requires None !in items
    requires |Join(Serialize(marshal, Present(items)))| < maxSize && |items| < maxCount
    ensures Consume([], items, marshal, maxCount, maxSize) == Outcome(Serialize(marshal, Present(items)), [])
  {
    if items != [] {
      var n := |items| - 1;
      var init, x := items[..n], items[n];
      assert items == init + [x];
      var s := Serialize(marshal, Present(init));
      var l := marshal(x.value);
      SerializePresentSnoc(marshal, init, x);
      JoinSnoc(s, l);
      SerializeLen(marshal, init);
      QuietFlushAll(init, marshal, maxCount, maxSize);
      ConsumeSnoc([], init, x, marshal, maxCount, maxSize);
      AcceptFlushes(s, l, maxCount, maxSize);
      var a := Accept(s, l, maxCount, maxSize);
      assert a.flushed == [];
      assert Concat(a.flushed) == [];
    }
  }

  /**
   * N events below both thresholds followed by a quiet period give exactly
   * one upload, holding all N lines in arrival order, and nothing pending.
   */
  lemma QuietThenTimer(items: seq<Option<EventJson>>, marshal: EventJson -> Line, maxCount: int, maxSize: int)
    requires None !in items && items != []
    requires |Join(Serialize(marshal, Present(items)))| < maxSize && |items| < maxCount
    ensures Settle(Consume([], items, marshal, maxCount, maxSize), true)
         == Outcome([], [Serialize(marshal, Present(items))])
  {
    QuietFlushAll(items, marshal, maxCount, maxSize);
    SerializeLen(marshal, items);
  }

  /** The events among channel items, nil sentinels left out. */
  function Present(items: seq<Option<EventJson>>): seq<EventJson> {
    if items == [] then []
    else Present(items[..|items| - 1]) + (if items[|items| - 1].Some? then [items[|items| - 1].value] else [])
  }

  lemma PresentSnoc(items: seq<Option<EventJson>>, x: Option<EventJson>)
    ensures Present(items + [x]) == Present(items) + (if x.Some? then [x.value] else [])
  {
    assert (items + [x])[..|items|] == items;
  }

  /**
   * `BatchUploader` together with the state of its `Start` loop: the
   * `strings.Builder` `sb`, the event counter `batchSize` and the `stop`
   * flag.  `chEvents` is the channel (a nil pointer is `None`), `uploads`
   * the calls made to the sink.  The ghost fields say which lines `sb`
   * holds, which lines each upload carried and which events were received.
   */
  class BatchUploader {
    const maxCount: int
    const maxSize: int
    const maxDelayMs: int
    const marshal: EventJson -> Line

    var chEvents: seq<Option<EventJson>>
    var sb: seq<byte>
    var batchSize: int
    var stop: bool
    var uploads: seq<Batch>

    ghost var pending: seq<Line>
    ghost var batches: seq<seq<Line>>
    ghost var received: seq<EventJson>

    ghost predicate Valid()
      reads this`sb, this`batchSize, this`uploads, this`pending, this`batches, this`received
    {
      Consistent(sb, batchSize, uploads, pending, batches, received, marshal)
    }

    /** `NewBatchUploader` and the set-up of `Start` (lines 24-44), thresholds given. */
    constructor (maxCount: int, maxSize: int, maxDelayMs: int, marshal: EventJson -> Line)
      ensures Valid()
      ensures this.maxCount == maxCount && this.maxSize == maxSize
      ensures this.maxDelayMs == ClampDelay(maxDelayMs) && this.marshal == marshal
      ensures chEvents == [] && sb == [] && batchSize == 0 && !stop && uploads == []
      ensures pending == [] && batches == [] && received == []
    {
      this.maxCount := maxCount;
      this.maxSize := maxSize;
      this.maxDelayMs := ClampDelay(maxDelayMs);
      this.marshal := marshal;
      chEvents := [];
      sb := [];
      batchSize := 0;
      stop := false;
      uploads := [];
      pending := [];
      batches := [];
      received := [];
    }

    /** A producer's `ChEvents <- eve`. */
    method Send(eve: Option<EventJson>)
      modifies this`chEvents
      ensures chEvents == old(chEvents) + [eve]
    {
      chEvents := chEvents + [eve];
    }

    /** The sink: `Upload(payload, count)` (line 90) records its arguments. */
    method Upload(payload: seq<byte>, count: int)
      modifies this`uploads
      ensures uploads == old(uploads) + [Batch(payload, count)]
    {
      uploads := uploads + [Batch(payload, count)];
    }

    /** `b.Upload(sb.String(), batchSize); sb.Reset(); batchSize = 0`. */
    method FlushPending()
      requires Valid()
      modifies this`sb, this`batchSize, this`uploads, this`pending, this`batches
      ensures Valid()
      ensures uploads == old(uploads) + [Batch(old(sb), old(batchSize))]
      ensures batches == old(batches) + [old(pending)] && pending == []
      ensures sb == [] && batchSize == 0
    {
      Upload(sb, batchSize);
      sb := [];
      batchSize := 0;
      ConcatSnoc(batches, pending);
      UploadsOfSnoc(batches, pending);
      batches := batches + [pending];
      pending := [];
    }

    /** Lines 58-67: a separator unless the builder is empty, the count, then the line. */
    method AppendLine(eve: EventJson)
      requires Valid()
      modifies this`sb, this`batchSize, this`pending, this`received
      ensures Valid()
      ensures pending == old(pending) + [marshal(eve)] && received == old(received) + [eve]
    {
      var line := marshal(eve);
      AppendKeeps(sb, batchSize, uploads, pending, batches, received, marshal, eve);
      if batchSize > 0 {
        sb := sb + [NL];
      }
      batchSize := batchSize + 1;
      sb := sb + line;
      pending := pending + [line];
      received := received + [eve];
    }

    /** A received event (lines 58-78). */
    method OnEvent(eve: EventJson)
      requires Valid()
      modifies this`sb, this`batchSize, this`uploads, this`pending, this`batches, this`received
      ensures Valid()
      ensures received == old(received) + [eve]
      ensures var o := Accept(old(pending), marshal(eve), maxCount, maxSize);
        pending == o.pending && batches == old(batches) + o.flushed
    {
      AppendLine(eve);
      if |sb| >= maxSize {
        FlushPending();
      }
      if batchSize >= maxCount {
        FlushPending();
      }
    }

    /** The quiet timer firing (lines 79-85). */
    method OnTimeout()
      requires Valid()
      modifies this`sb, this`batchSize, this`uploads, this`pending, this`batches
      ensures Valid()
      ensures var o := Expire(old(pending));
        pending == o.pending && batches == old(batches) + o.flushed
    {
      if batchSize > 0 {
        FlushPending();
      }
    }

    /** The nil sentinel (lines 54-57): stop, leaving the pending payload unsent. */
    method OnNil()
      modifies this`stop
      ensures stop
    {
      stop := true;
    }

    /**
     * One iteration of the `select`.  A buffered item is taken at once (the
     * fresh timer cannot have fired yet); on an empty channel no producer
     * sent anything within the delay, so the timer fires.
     */
    method Step()
      requires Valid()
      modifies this
      ensures Valid()
      ensures old(chEvents) == [] ==>
        && chEvents == [] && stop == old(stop) && received == old(received)
        && var o := Expire(old(pending));
           pending == o.pending && batches == old(batches) + o.flushed
      ensures old(chEvents) != [] && old(chEvents)[0].None? ==>
        && chEvents == old(chEvents)[1..] && stop
        && uploads == old(uploads) && batches == old(batches)
        && pending == old(pending) && received == old(received)
      ensures old(chEvents) != [] && old(chEvents)[0].Some? ==>
        && chEvents == old(chEvents)[1..] && stop == old(stop)
        && received == old(received) + [old(chEvents)[0].value]
        && var o := Accept(old(pending), marshal(old(chEvents)[0].value), maxCount, maxSize);
           pending == o.pending && batches == old(batches) + o.flushed
    {
      if chEvents != [] {
        var eve := chEvents[0];
        chEvents := chEvents[1..];
        if eve.None? {
          OnNil();
        } else {
          OnEvent(eve.value);
        }
      } else {
        OnTimeout();
      }
    }

    /**
     * The `for !stop` loop of `Start` (lines 42-87), run for at most
     * `rounds` iterations; `i` is the number it ran.  It takes channel
     * items in order up to and including the first nil, receives every
     * event it takes (see `Advanced`), uploads exactly what `Consume` and
     * then `Settle` say (see `Uploaded`), keeps every earlier upload, and
     * once the channel has stayed empty for one timer period nothing is
     * pending.
     */
    method Start(rounds: nat) returns (i: nat)
      requires Valid() && !stop
      modifies this
      ensures Valid()
      ensures i <= rounds && (!stop ==> i == rounds)
      ensures Advanced(old(chEvents), old(received), i, chEvents, received, pending, stop)
      ensures Uploaded(old(chEvents), old(pending), old(batches), i, chEvents, pending, batches,
                       marshal, maxCount, maxSize)
      ensures old(uploads) <= uploads
      ensures !stop && rounds > |old(chEvents)| ==> chEvents == [] && pending == []
    {
      ghost var c0, r0, p0, b0 := chEvents, received, pending, batches;
      AdvancedZero(c0, r0, pending);
      UploadedZero(c0, p0, b0, marshal, maxCount, maxSize);
      i := 0;
      while !stop && i < rounds
        invariant Valid() && i <= rounds
        invariant Progress(c0, r0, p0, b0, i)
        decreases rounds - i
      {
        Iterate(c0, r0, p0, b0, i);
        i := i + 1;
      }
      EarlierUploadsKept(c0, p0, b0, i, chEvents, pending, batches, marshal, maxCount, maxSize);
      if !stop && rounds > |c0| {
        QuietAfter(c0, r0, i, chEvents, received, pending);
      }
    }

    /**
     * The loop invariant of `Start` after `i` iterations from channel `c0`,
     * received events `r0`, pending lines `p0` and flushed batches `b0`.
     */
    ghost predicate Progress(c0: seq<Option<EventJson>>, r0: seq<EventJson>,
                             p0: seq<Line>, b0: seq<seq<Line>>, i: nat)
      reads this
    {
      && Advanced(c0, r0, i, chEvents, received, pending, stop)
      && Uploaded(c0, p0, b0, i, chEvents, pending, batches, marshal, maxCount, maxSize)
    }

    /** One iteration of `Start` keeps its invariant. */
    method Iterate(ghost c0: seq<Option<EventJson>>, ghost r0: seq<EventJson>,
                   ghost p0: seq<Line>, ghost b0: seq<seq<Line>>, ghost i: nat)
      requires Valid() && !stop && Progress(c0, r0, p0, b0, i)
      modifies this
      ensures Valid() && Progress(c0, r0, p0, b0, i + 1)
    {
      ghost var ch, rec, pend, bat := chEvents, received, pending, batches;
      Step();
      AdvanceOne(c0, r0, i, ch, rec, pend, chEvents, received, pending, stop);
      UploadOne(c0, p0, b0, i, ch, pend, bat, chEvents, pending, batches, marshal, maxCount, maxSize);
    }
  }

  /**
   * The accumulator's state agrees with its history: the builder holds the
   * pending lines joined, the counter their number, the sink got one upload
   * per flushed batch, and the flushed and pending lines are the received
   * events serialized.
   */
  ghost predicate Consistent(sb: seq<byte>, batchSize: int, uploads: seq<Batch>, pending: seq<Line>,
                             batches: seq<seq<Line>>, received: seq<EventJson>, marshal: EventJson -> Line)
  {
    && sb == Join(pending)
    && batchSize == |pending|
    && uploads == UploadsOf(batches)
    && Concat(batches) + pending == Serialize(marshal, received)
  }

  /** Appending one event's line as lines 58-67 do keeps the state consistent. */
  lemma AppendKeeps(sb: seq<byte>, batchSize: int, uploads: seq<Batch>, pending: seq<Line>,
                    batches: seq<seq<Line>>, received: seq<EventJson>, marshal: EventJson -> Line,
                    eve: EventJson)
    requires Consistent(sb, batchSize, uploads, pending, batches, received, marshal)
    ensures var line := marshal(eve);
      Consistent(if batchSize > 0 then sb + [NL] + line else sb + line, batchSize + 1, uploads,
                 pending + [line], batches, received + [eve], marshal)
  {
    var line := marshal(eve);
    JoinSnoc(pending, line);
    if batchSize == 0 {
      assert sb + line == line;
    }
    SerializeSnoc(marshal, received, eve);
    assert Concat(batches) + (pending + [line]) == (Concat(batches) + pending) + [line];
  }

  /**
   * After `i` iterations from channel `c0` and received events `r0`: the
   * channel is a suffix of `c0`, at most one item was taken per iteration,
   * the taken prefix is described by `Taken`, and an iteration that took
   * nothing (the timer fired) left the channel empty, nothing pending and
   * the loop running.
   */
  ghost predicate Advanced(c0: seq<Option<EventJson>>, r0: seq<EventJson>, i: nat,
                           ch: seq<Option<EventJson>>, received: seq<EventJson>,
                           pending: seq<Line>, stop: bool)
  {
    && |ch| <= |c0| && ch == c0[|c0| - |ch|..]
    && |c0| - |ch| <= i
    && Taken(c0, ch, r0, received, stop)
    && (|c0| - |ch| < i ==> ch == [] && pending == [] && !stop)
  }

  /** Before the first iteration nothing has been taken. */
  lemma AdvancedZero(c0: seq<Option<EventJson>>, r0: seq<EventJson>, pending: seq<Line>)
    ensures Advanced(c0, r0, 0, c0, r0, pending, false)
  {
    assert c0[..0] == [];
    assert c0[0..] == c0;
  }

  /**
   * After `i` iterations that took the prefix of `c0` before `ch`, starting
   * from pending lines `p0` and flushed batches `b0`: the pending lines and
   * the batches are those of consuming the taken items, then of the timer
   * if some iteration found the channel empty.  Earlier batches stay.
   */
  ghost predicate Uploaded(c0: seq<Option<EventJson>>, p0: seq<Line>, b0: seq<seq<Line>>, i: nat,
                           ch: seq<Option<EventJson>>, pending: seq<Line>, batches: seq<seq<Line>>,
                           marshal: EventJson -> Line, maxCount: int, maxSize: int)
    requires |ch| <= |c0|
  {
    var k := |c0| - |ch|;
    var o := Settle(Consume(p0, c0[..k], marshal, maxCount, maxSize), k < i);
    pending == o.pending && batches == b0 + o.flushed
  }

  /** Before the first iteration nothing has been uploaded. */
  lemma UploadedZero(c0: seq<Option<EventJson>>, p0: seq<Line>, b0: seq<seq<Line>>,
                     marshal: EventJson -> Line, maxCount: int, maxSize: int)
    ensures Uploaded(c0, p0, b0, 0, c0, p0, b0, marshal, maxCount, maxSize)
  {
    assert c0[..0] == [];
    assert b0 + [] == b0;
  }

  lemma {:induction false} UploadsOfAppend(bs: seq<seq<Line>>, cs: seq<seq<Line>>)
    ensures UploadsOf(bs + cs) == UploadsOf(bs) + UploadsOf(cs)
    decreases |cs|
  {
    if cs == [] {
      assert bs + cs == bs;
      assert UploadsOf(bs) + UploadsOf(cs) == UploadsOf(bs) + [];
    } else {
      var n := |cs| - 1;
      UploadsOfAppend(bs, cs[..n]);
      assert bs + cs == (bs + cs[..n]) + [cs[n]];
      assert cs == cs[..n] + [cs[n]];
      UploadsOfSnoc(bs + cs[..n], cs[n]);
      UploadsOfSnoc(cs[..n], cs[n]);
      Regroup(UploadsOf(bs), UploadsOf(cs[..n]), [BatchOf(cs[n])], UploadsOf(cs));
    }
  }

  /** The loop only ever adds uploads: the earlier ones stay, in order, as a prefix. */
  lemma EarlierUploadsKept(c0: seq<Option<EventJson>>, p0: seq<Line>, b0: seq<seq<Line>>, i: nat,
                           ch: seq<Option<EventJson>>, pending: seq<Line>, batches: seq<seq<Line>>,
                           marshal: EventJson -> Line, maxCount: int, maxSize: int)
    requires |ch| <= |c0| && Uploaded(c0, p0, b0, i, ch, pending, batches, marshal, maxCount, maxSize)
    ensures UploadsOf(b0) <= UploadsOf(batches)
  {
    UploadsOfAppend(b0, batches[|b0|..]);
    assert batches == b0 + batches[|b0|..];
  }

  /** One `Step` extends `Uploaded` by one iteration. */
  lemma UploadOne(c0: seq<Option<EventJson>>, p0: seq<Line>, b0: seq<seq<Line>>, i: nat,
                  ch: seq<Option<EventJson>>, pending: seq<Line>, batches: seq<seq<Line>>,
                  ch': seq<Option<EventJson>>, pending': seq<Line>, batches': seq<seq<Line>>,
                  marshal: EventJson -> Line, maxCount: int, maxSize: int)
    requires |ch| <= |c0| && ch == c0[|c0| - |ch|..] && |c0| - |ch| <= i
    requires |c0| - |ch| < i ==> ch == [] && pending == []
    requires Uploaded(c0, p0, b0, i, ch, pending, batches, marshal, maxCount, maxSize)
    requires ch == [] ==>
      && ch' == [] && pending' == Expire(pending).pending && batches' == batches + Expire(pending).flushed
    requires ch != [] && ch[0].None? ==> ch' == ch[1..] && pending' == pending && batches' == batches
    requires ch != [] && ch[0].Some? ==>
      && ch' == ch[1..]
      && var a := Accept(pending, marshal(ch[0].value), maxCount, maxSize);
         pending' == a.pending && batches' == batches + a.flushed
    ensures |ch'| <= |c0| && Uploaded(c0, p0, b0, i + 1, ch', pending', batches', marshal, maxCount, maxSize)
  {
    var k := |c0| - |ch|;
    if ch != [] {
      assert ch[0] == c0[k];
    }
    UploadAt(c0, p0, b0, i, k, |c0| - |ch'|, pending, batches, pending', batches', marshal, maxCount, maxSize);
  }

  /** `UploadOne` with the channel position `k` before the step and `k'` after it. */
  lemma UploadAt(c0: seq<Option<EventJson>>, p0: seq<Line>, b0: seq<seq<Line>>, i: nat, k: nat, k': nat,
                 pending: seq<Line>, batches: seq<seq<Line>>, pending': seq<Line>, batches': seq<seq<Line>>,
                 marshal: EventJson -> Line, maxCount: int, maxSize: int)
    requires k <= |c0| && k <= i
    requires k < i ==> k == |c0| && pending == []
    requires var o := Settle(Consume(p0, c0[..k], marshal, maxCount, maxSize), k < i);
      pending == o.pending && batches == b0 + o.flushed
    requires k == |c0| ==>
      && k' == k && pending' == Expire(pending).pending && batches' == batches + Expire(pending).flushed
    requires k < |c0| ==> k' == k + 1
    requires k < |c0| && c0[k].None? ==> pending' == pending && batches' == batches
    requires k < |c0| && c0[k].Some? ==>
      var a := Accept(pending, marshal(c0[k].value), maxCount, maxSize);
      pending' == a.pending && batches' == batches + a.flushed
    ensures k' <= |c0|
    ensures var o := Settle(Consume(p0, c0[..k'], marshal, maxCount, maxSize), k' < i + 1);
      pending' == o.pending && batches' == b0 + o.flushed
  {
    var o := Consume(p0, c0[..k], marshal, maxCount, maxSize);
    if k == |c0| {
      IdleStep(o, k < i, b0, pending, batches, pending', batches');
    } else {
      UploadTaken(c0, p0, b0, k, pending, batches, pending', batches', marshal, maxCount, maxSize);
    }
  }

  /** An iteration taking the item of `c0` at `k`, after the `k` before it. */
  lemma UploadTaken(c0: seq<Option<EventJson>>, p0: seq<Line>, b0: seq<seq<Line>>, k: nat,
                    pending: seq<Line>, batches: seq<seq<Line>>, pending': seq<Line>, batches': seq<seq<Line>>,
                    marshal: EventJson -> Line, maxCount: int, maxSize: int)
    requires k < |c0|
    requires var o := Consume(p0, c0[..k], marshal, maxCount, maxSize);
      pending == o.pending && batches == b0 + o.flushed
    requires c0[k].None? ==> pending' == pending && batches' == batches
    requires c0[k].Some? ==>
      var a := Accept(pending, marshal(c0[k].value), maxCount, maxSize);
      pending' == a.pending && batches' == batches + a.flushed
    ensures var o := Consume(p0, c0[..k + 1], marshal, maxCount, maxSize);
      pending' == o.pending && batches' == b0 + o.flushed
  {
    assert c0[..k + 1] == c0[..k] + [c0[k]];
    ConsumeSnoc(p0, c0[..k], c0[k], marshal, maxCount, maxSize);
    var o := Consume(p0, c0[..k], marshal, maxCount, maxSize);
    TakeStep(o, c0[k], b0, pending, batches, pending', batches', marshal, maxCount, maxSize);
  }

  /** An iteration finding the channel empty, seen from the outcome before it. */
  lemma IdleStep(o: Outcome, fired: bool, b0: seq<seq<Line>>, pending: seq<Line>, batches: seq<seq<Line>>,
                 pending': seq<Line>, batches': seq<seq<Line>>)
    requires pending == Settle(o, fired).pending && batches == b0 + Settle(o, fired).flushed
    requires fired ==> pending == []
    requires pending' == Expire(pending).pending && batches' == batches + Expire(pending).flushed
    ensures pending' == Settle(o, true).pending && batches' == b0 + Settle(o, true).flushed
  {
    if fired {
      assert batches' == batches + [];
    } else {
      assert batches' == b0 + (o.flushed + Expire(o.pending).flushed);
    }
  }

  /** An iteration taking item `x`, seen from the outcome before it. */
  lemma TakeStep(o: Outcome, x: Option<EventJson>, b0: seq<seq<Line>>, pending: seq<Line>, batches: seq<seq<Line>>,
                 pending': seq<Line>, batches': seq<seq<Line>>,
                 marshal: EventJson -> Line, maxCount: int, maxSize: int)
    requires pending == o.pending && batches == b0 + o.flushed
    requires x.None? ==> pending' == pending && batches' == batches
    requires x.Some? ==>
      var a := Accept(pending, marshal(x.value), maxCount, maxSize);
      pending' == a.pending && batches' == batches + a.flushed
    ensures var t := Take(o, x, marshal, maxCount, maxSize);
      pending' == t.pending && batches' == b0 + t.flushed
  {
    if x.Some? {
      var a := Accept(o.pending, marshal(x.value), maxCount, maxSize);
      assert batches' == b0 + (o.flushed + a.flushed);
    }
  }

  /** More iterations than channel items without a stop: one of them found the channel empty. */
  lemma QuietAfter(c0: seq<Option<EventJson>>, r0: seq<EventJson>, i: nat,
                   ch: seq<Option<EventJson>>, received: seq<EventJson>, pending: seq<Line>)
    requires Advanced(c0, r0, i, ch, received, pending, false) && i > |c0|
    ensures ch == [] && pending == []
  {
  }

  /** One `Step` extends the invariant of `Start` by one iteration. */
  lemma AdvanceOne(c0: seq<Option<EventJson>>, r0: seq<EventJson>, i: nat,
                   ch: seq<Option<EventJson>>, rec: seq<EventJson>, pending: seq<Line>,
                   ch': seq<Option<EventJson>>, rec': seq<EventJson>, pending': seq<Line>, stop': bool)
    requires Advanced(c0, r0, i, ch, rec, pending, false)
    requires ch == [] ==> ch' == [] && !stop' && rec' == rec && pending' == []
    requires ch != [] ==> ch' == ch[1..] && (stop' <==> ch[0].None?)
    requires ch != [] && ch[0].None? ==> rec' == rec
    requires ch != [] && ch[0].Some? ==> rec' == rec + [ch[0].value]
    ensures Advanced(c0, r0, i + 1, ch', rec', pending', stop')
  {
    if ch != [] {
      var k := |c0| - |ch|;
      var taken := c0[..k];
      assert ch[0] == c0[k];
      assert c0[..k + 1] == taken + [ch[0]];
      PresentSnoc(taken, ch[0]);
    }
  }

  /**
   * The items taken from channel `c0` when `ch` remains: their events were
   * appended to the received ones in order, `stop` is set exactly when a nil
   * was taken, and only the last item taken can be a nil.
   */
  ghost predicate Taken(c0: seq<Option<EventJson>>, ch: seq<Option<EventJson>>,
                        r0: seq<EventJson>, received: seq<EventJson>, stop: bool)
    requires |ch| <= |c0|
  {
    var taken := c0[..|c0| - |ch|];
    && received == r0 + Present(taken)
    && (stop <==> None in taken)
    && (forall k | 0 <= k < |taken| - 1 :: taken[k].Some?)
  }

  /**
   * The sink sees every received event exactly once and in arrival order,
   * except the tail still in the builder: decoding all upload bodies and
   * then the builder gives the serialized received events.  Each upload's
   * count is the number of lines in its body.
   */
  lemma DeliveredInOrder(u: BatchUploader)
    requires u.Valid()
    ensures Unbatch(u.uploads) + Decode(u.sb) == Serialize(u.marshal, u.received)
    ensures forall i | 0 <= i < |u.uploads| :: u.uploads[i].count == |Decode(u.uploads[i].payload)|
  {
    UnbatchUploads(u.batches);
    DecodeJoin(u.pending);
  }
}

/** Runs of the accumulator on concrete channel contents. */
module BatchScenarios {
  import opened Wrappers
  import opened JsonLines
  import opened Dao

  /**
   * Count threshold 2, a size threshold no two events reach: A, B and C
   * sent back to back give an upload of A and B at once, then C alone when
   * the timer fires.
   */
  method CountThreshold(a: EventJson, b: EventJson, c: EventJson, marshal: EventJson -> Line)
    returns (sent: seq<Batch>)
    ensures sent == [BatchOf([marshal(a), marshal(b)]), BatchOf([marshal(c)])]
  {
    var la, lb, lc := marshal(a), marshal(b), marshal(c);
    var u := new BatchUploader(2, |la| + |lb| + |lc| + 3, 100, marshal);
    u.Send(Some(a));
    u.Send(Some(b));
    u.Send(Some(c));
    StepFull(u, la, lb);
    StepQuiet(u, lc);
    UploadsOfSnoc([], [la, lb]);
    UploadsOfSnoc([[la, lb]], [lc]);
    assert [] + [[la, lb]] == [[la, lb]] && u.batches == [[la, lb]] + [[lc]];
    sent := u.uploads;
  }

  /** The steps taking two events that reach the count threshold of 2. */
  method StepFull(u: BatchUploader, la: Line, lb: Line)
    requires u.Valid() && u.pending == [] && u.batches == [] && !u.stop && u.maxCount == 2
    requires |u.chEvents| > 2 && u.chEvents[0].Some? && u.chEvents[1].Some?
    requires u.marshal(u.chEvents[0].value) == la && u.marshal(u.chEvents[1].value) == lb
    requires |la| + |lb| + 1 < u.maxSize
    modifies u
    ensures u.Valid() && u.pending == [] && u.batches == [[la, lb]] && !u.stop
    ensures u.chEvents == old(u.chEvents)[2..]
  {
    StepBelow(u, la);
    JoinSnoc([la], lb);
    assert [la] + [lb] == [la, lb];
    u.Step();
  }

  /** The step taking one event below both thresholds into an empty builder. */
  method StepBelow(u: BatchUploader, l: Line)
    requires u.Valid() && u.pending == [] && !u.stop && u.maxCount >= 2 && |l| < u.maxSize
    requires |u.chEvents| > 0 && u.chEvents[0].Some? && u.marshal(u.chEvents[0].value) == l
    modifies u
    ensures u.Valid() && u.pending == [l] && u.batches == old(u.batches) && !u.stop
    ensures u.chEvents == old(u.chEvents)[1..]
  {
    JoinSnoc([], l);
    assert [] + [l] == [l];
    u.Step();
  }

  /** The step taking one event below both thresholds, then the timer firing. */
  method StepQuiet(u: BatchUploader, lc: Line)
    requires u.Valid() && u.pending == [] && !u.stop && u.maxCount == 2
    requires |u.chEvents| == 1 && u.chEvents[0].Some? && u.marshal(u.chEvents[0].value) == lc
    requires |lc| < u.maxSize
    modifies u
    ensures u.Valid() && u.pending == [] && u.batches == old(u.batches) + [[lc]]
  {
    StepBelow(u, lc);
    u.Step();
  }

  /** Size threshold 10 bytes: one event serialized to more than that is uploaded at once, alone. */
  method SizeThreshold(e: EventJson, marshal: EventJson -> Line) returns (sent: seq<Batch>)
    requires |marshal(e)| > 10
    ensures sent == [BatchOf([marshal(e)])]
  {
    var u := new BatchUploader(100, 10, 100, marshal);
    u.Send(Some(e));
    u.Step();
    sent := u.uploads;
  }

  /**
   * A nil sentinel behind a buffered event stops the loop: the buffered
   * event is never uploaded and what was sent after the nil stays in the
   * channel.
   */
  method StopDiscardsPending(e: EventJson, later: EventJson, marshal: EventJson -> Line)
    returns (sent: seq<Batch>, stopped: bool, left: seq<Option<EventJson>>)
    ensures stopped && sent == [] && left == [Some(later)]
  {
    var u := new BatchUploader(100, |marshal(e)| + 1, 100, marshal);
    u.Send(Some(e));
    u.Send(None);
    u.Send(Some(later));
    StepBelow(u, marshal(e));
    assert u.chEvents == [None, Some(later)];
    u.Step();
    sent, stopped, left := u.uploads, u.stop, u.chEvents;
  }
}
