/**
 * The ingest side of internal/biz/app.go: each record of a post request is
 * normalized into an `EventJson` (defaulted fields, resolved timestamp) and
 * sent, in order, into the batch uploader's channel.
 */
module Biz {
  import opened Wrappers
  import opened GoValues
  import opened StrConv
  import opened Api
  import opened JsonLines
  import opened Dao

  const DefaultSource: string := "hermes"
  const DefaultSourceType: string := "json"
  const DefaultIndex: string := "main"

  /**
   * `parseTime`: the epoch milliseconds of a record's `time` value.  `now`
   * is what `time.Now().UnixMilli()` would read and `rfc3339` stands for
   * `time.Parse(time.RFC3339, s)` followed by `UnixMilli()`.
   */
  function ParseTime(timeVal: Value, now: Int64, rfc3339: string -> Option<Int64>): (r: Int64)
    // the result is the clock or a value the input itself supplies
    ensures || r == now
            || (timeVal.Int64Val? && r == timeVal.n)
            || (timeVal.Str? && (ParseInt(timeVal.s) == Some(r) || rfc3339(timeVal.s) == Some(r)))
    // a base-10 integer string is used verbatim, before any RFC 3339 reading
    ensures timeVal.Str? && ParseInt(timeVal.s).Some? ==> r == ParseInt(timeVal.s).value
    // otherwise an RFC 3339 string gives its Unix milliseconds
    ensures timeVal.Str? && ParseInt(timeVal.s).None? && rfc3339(timeVal.s).Some? ==>
      r == rfc3339(timeVal.s).value
    // an unparseable string falls back to the clock
    ensures timeVal.Str? && ParseInt(timeVal.s).None? && rfc3339(timeVal.s).None? ==> r == now
    // an int64 is used verbatim
    ensures timeVal.Int64Val? ==> r == timeVal.n
    // nil, float64 (every decoded JSON number), bool and other types fall back to the clock
    ensures timeVal.Nil? || timeVal.Float64? || timeVal.Bool? || timeVal.Other? ==> r == now
  {
    if timeVal.Nil? then now
    else if timeVal.Str? && ParseInt(timeVal.s).Some? then ParseInt(timeVal.s).value
    else if timeVal.Str? && rfc3339(timeVal.s).Some? then rfc3339(timeVal.s).value
    else if timeVal.Int64Val? then timeVal.n
    else now
  }

  /** `"1700000000000"` is read as an integer whatever RFC 3339 parsing would make of it. */
  lemma ParseTimeMillisExample(now: Int64, rfc3339: string -> Option<Int64>)
    ensures ParseTime(Str("1700000000000"), now, rfc3339) == 1700000000000
  {
    ParseIntMillisExample();
  }

  /** Every int64, written in decimal, comes back unchanged as a timestamp. */
  lemma ParseTimeFormatted(n: Int64, now: Int64, rfc3339: string -> Option<Int64>)
    ensures ParseTime(Str(FormatInt(n)), now, rfc3339) == n
  {
  }

  /**
   * The event `Post` builds for one record: the record itself, its
   * resolved time, and each request-level field when it is non-empty,
   * otherwise the caller's address for the host and fixed defaults for the
   * others.
   */
  function NewEvent(req: PostRequest, remoteAddr: string, record: Record,
                    now: Int64, rfc3339: string -> Option<Int64>): (e: EventJson)
    ensures e.event == record
    ensures e.time == ParseTime(Lookup(record, "time"), now, rfc3339)
    ensures e.host == (if req.host != "" then req.host else remoteAddr)
    ensures e.source == (if req.source != "" then req.source else DefaultSource)
    ensures e.sourceType == (if req.sourceType != "" then req.sourceType else DefaultSourceType)
    ensures e.index == (if req.index != "" then req.index else DefaultIndex)
    // only the host can end up empty
    ensures e.source != "" && e.sourceType != "" && e.index != ""
  {
    EventJson(
      record,
      ParseTime(Lookup(record, "time"), now, rfc3339),
      if req.host != "" then req.host else remoteAddr,
      if req.source != "" then req.source else DefaultSource,
      if req.sourceType != "" then req.sourceType else DefaultSourceType,
      if req.index != "" then req.index else DefaultIndex)
  }

  /** Defaulting is idempotent: posting again with the event's own field values changes nothing. */
  lemma NewEventIdempotent(req: PostRequest, remoteAddr: string, record: Record,
                           now: Int64, rfc3339: string -> Option<Int64>)
    ensures var e := NewEvent(req, remoteAddr, record, now, rfc3339);
      var again := PostRequest(req.events, e.host, e.source, e.sourceType, e.index);
      NewEvent(again, remoteAddr, record, now, rfc3339) == e
  {
  }

  /** The events one request produces, in record order; record `i` reads the clock as `clock(i)`. */
  function Normalize(req: PostRequest, remoteAddr: string, clock: nat -> Int64,
                     rfc3339: string -> Option<Int64>): (es: seq<EventJson>)
    ensures |es| == |req.events|
    ensures forall i | 0 <= i < |es| :: es[i] == NewEvent(req, remoteAddr, req.events[i], clock(i), rfc3339)
  {
    seq(|req.events|, i requires 0 <= i < |req.events| => NewEvent(req, remoteAddr, req.events[i], clock(i), rfc3339))
  }

  /** The channel items for a sequence of events: none of them is the nil sentinel. */
  function AsItems(es: seq<EventJson>): (items: seq<Option<EventJson>>)
    ensures |items| == |es| && None !in items
  {
    seq(|es|, i requires 0 <= i < |es| => Some(es[i]))
  }

  /** The events among the items are the events themselves, in order. */
  lemma {:induction false} PresentItems(es: seq<EventJson>)
    ensures Present(AsItems(es)) == es
  {
    if es != [] {
      var n := |es| - 1;
      PresentItems(es[..n]);
      assert AsItems(es)[..n] == AsItems(es[..n]);
      assert AsItems(es) == AsItems(es[..n]) + [Some(es[n])];
      PresentSnoc(AsItems(es[..n]), Some(es[n]));
      assert es[..n] + [es[n]] == es;
    }
  }

  /** Items of two runs of events are the items of each, one after the other. */
  lemma AsItemsAppend(xs: seq<EventJson>, ys: seq<EventJson>)
    ensures AsItems(xs + ys) == AsItems(xs) + AsItems(ys)
  {
    assert forall i | 0 <= i < |xs + ys| :: AsItems(xs + ys)[i] == (AsItems(xs) + AsItems(ys))[i];
  }

  /** Channel items without a nil sentinel are exactly the items of the events among them. */
  lemma {:induction false} ItemsOfPresent(c: seq<Option<EventJson>>)
    requires None !in c
    ensures AsItems(Present(c)) == c
  {
    if c != [] {
      var n := |c| - 1;
      assert c == c[..n] + [c[n]];
      ItemsOfPresent(c[..n]);
      PresentSnoc(c[..n], c[n]);
      AsItemsAppend(Present(c[..n]), [c[n].value]);
    }
  }

  /** The channel items `Post` has sent after handling the first `n` records. */
  ghost function SentItems(req: PostRequest, remoteAddr: string, clock: nat -> Int64,
                           rfc3339: string -> Option<Int64>, n: nat): seq<Option<EventJson>>
    requires n <= |req.events|
  {
    if n == 0 then []
    else SentItems(req, remoteAddr, clock, rfc3339, n - 1)
         + [Some(NewEvent(req, remoteAddr, req.events[n - 1], clock(n - 1), rfc3339))]
  }

  /** The items sent for the first `n` records are the first `n` items of the normalized request. */
  lemma {:induction false} SentItemsAll(req: PostRequest, remoteAddr: string, clock: nat -> Int64,
                                        rfc3339: string -> Option<Int64>, n: nat)
    requires n <= |req.events|
    ensures SentItems(req, remoteAddr, clock, rfc3339, n) == AsItems(Normalize(req, remoteAddr, clock, rfc3339))[..n]
  {
    var es := Normalize(req, remoteAddr, clock, rfc3339);
    var items := AsItems(es);
    if n > 0 {
      SentItemsAll(req, remoteAddr, clock, rfc3339, n - 1);
      assert items[n - 1] == Some(es[n - 1]);
      assert items[..n] == items[..n - 1] + [items[n - 1]];
    }
  }

  /** The body of `Post`'s loop up to the send (lines 35-58): the event, field by field. */
  method BuildEvent(req: PostRequest, remoteAddr: string, event: Record,
                    now: Int64, rfc3339: string -> Option<Int64>) returns (eve: EventJson)
    ensures eve == NewEvent(req, remoteAddr, event, now, rfc3339)
  {
    eve := EventJson(event, 0, "", "", "", "");
    eve := eve.(time := ParseTime(Lookup(event, "time"), now, rfc3339));
    if req.host != "" {
      eve := eve.(host := req.host);
    } else {
      eve := eve.(host := remoteAddr);
    }
    if req.source != "" {
      eve := eve.(source := req.source);
    } else {
      eve := eve.(source := DefaultSource);
    }
    if req.sourceType != "" {
      eve := eve.(sourceType := req.sourceType);
    } else {
      eve := eve.(sourceType := DefaultSourceType);
    }
    if req.index != "" {
      eve := eve.(index := req.index);
    } else {
      eve := eve.(index := DefaultIndex);
    }
  }

  /** `App`: the service object holding the batch uploader. */
  class App {
    const batchUploader: BatchUploader

    /** `NewApp`: creates the uploader with the given thresholds and serializer. */
    constructor (maxCount: int, maxSize: int, maxDelayMs: int, marshal: EventJson -> Line)
      ensures fresh(batchUploader) && batchUploader.Valid()
      ensures batchUploader.maxCount == maxCount && batchUploader.maxSize == maxSize
      ensures batchUploader.maxDelayMs == ClampDelay(maxDelayMs) && batchUploader.marshal == marshal
      ensures batchUploader.chEvents == [] && batchUploader.uploads == [] && !batchUploader.stop
      ensures batchUploader.received == []
    {
      batchUploader := new BatchUploader(maxCount, maxSize, maxDelayMs, marshal);
    }

    /** The body of `Post`'s loop (lines 35-59): build the record's event and send it. */
    method PostRecord(req: PostRequest, remoteAddr: string, record: Record,
                      now: Int64, rfc3339: string -> Option<Int64>)
      modifies batchUploader`chEvents
      ensures batchUploader.chEvents == old(batchUploader.chEvents) + [Some(NewEvent(req, remoteAddr, record, now, rfc3339))]
    {
      var eve := BuildEvent(req, remoteAddr, record, now, rfc3339);
      batchUploader.Send(Some(eve));
    }

    /**
     * `Post`: one event per record, built field by field and sent into the
     * channel in record order; the reply counts the records, whatever
     * later becomes of them.
     */
    method Post(req: PostRequest, remoteAddr: string, clock: nat -> Int64,
                rfc3339: string -> Option<Int64>) returns (resp: PostResponse)
      modifies batchUploader`chEvents
      ensures batchUploader.chEvents == old(batchUploader.chEvents) + AsItems(Normalize(req, remoteAddr, clock, rfc3339))
      ensures resp.count == |req.events|
    {
      for i := 0 to |req.events|
        invariant batchUploader.chEvents == old(batchUploader.chEvents) + SentItems(req, remoteAddr, clock, rfc3339, i)
      {
        PostRecord(req, remoteAddr, req.events[i], clock(i), rfc3339);
      }
      SentItemsAll(req, remoteAddr, clock, rfc3339, |req.events|);
      resp := PostResponse(|req.events|);
    }
  }
}

/** The whole pipeline: a request through `Post`, then the accumulator loop. */
module Pipeline {
  import opened Wrappers
  import opened GoValues
  import opened JsonLines
  import opened Api
  import opened Dao
  import opened Biz

  lemma SerializeAppend(marshal: EventJson -> Line, xs: seq<EventJson>, ys: seq<EventJson>)
    ensures Serialize(marshal, xs + ys) == Serialize(marshal, xs) + Serialize(marshal, ys)
    decreases |ys|
  {
    if ys == [] {
      assert xs + ys == xs;
    } else {
      var n := |ys| - 1;
      SerializeAppend(marshal, xs, ys[..n]);
      assert (xs + ys)[..|xs| + n] == xs + ys[..n];
      assert ys[..n] + [ys[n]] == ys;
      assert (xs + ys[..n]) + [ys[n]] == xs + ys;
      SerializeSnoc(marshal, xs + ys[..n], ys[n]);
      SerializeSnoc(marshal, ys[..n], ys[n]);
    }
  }

  /** A loop run long enough over a channel without nil takes every item and ends quiet. */
  lemma DrainedAll(c0: seq<Option<EventJson>>, r0: seq<EventJson>, i: nat, ch: seq<Option<EventJson>>,
                   received: seq<EventJson>, pending: seq<Line>, stop: bool)
    requires Advanced(c0, r0, i, ch, received, pending, stop)
    requires None !in c0
    requires !stop ==> i > |c0|
    ensures !stop && ch == [] && pending == [] && received == r0 + Present(c0)
  {
    var taken := c0[..|c0| - |ch|];
    assert None !in taken;
    assert taken == c0;
  }

  /**
   * The loop run on a channel holding exactly the events `es`, long enough
   * to take them all and let the timer fire once: the sink has then seen
   * every event received before and then `es`, each once and in order, and
   * nothing is left in the builder.
   */
  method Drain(u: BatchUploader, ghost es: seq<EventJson>)
    requires u.Valid() && !u.stop && u.chEvents == AsItems(es)
    modifies u
    ensures u.Valid() && !u.stop && u.chEvents == [] && u.sb == []
    ensures Unbatch(u.uploads) == Serialize(u.marshal, old(u.received) + es)
  {
    ghost var r0 := u.received;
    ghost var c0 := u.chEvents;
    var iterations := u.Start(|u.chEvents| + 1);
    DrainedAll(c0, r0, iterations, u.chEvents, u.received, u.pending, u.stop);
    PresentItems(es);
    DeliveredInOrder(u);
    SerializeAppend(u.marshal, r0, es);
  }

  /**
   * A request posted while the channel holds only events (no stop signal
   * queued), followed by the loop draining the channel and the timer firing
   * once: every event reaches the sink, those already queued first and then
   * the request's in record order, after all events received before.
   */
  method PostAndDrain(app: App, req: PostRequest, remoteAddr: string, clock: nat -> Int64,
                      rfc3339: string -> Option<Int64>) returns (resp: PostResponse)
    requires app.batchUploader.Valid() && !app.batchUploader.stop && None !in app.batchUploader.chEvents
    modifies app.batchUploader
    ensures resp.count == |req.events|
    ensures app.batchUploader.Valid() && !app.batchUploader.stop
    ensures app.batchUploader.chEvents == [] && app.batchUploader.sb == []
    ensures Unbatch(app.batchUploader.uploads)
         == Serialize(app.batchUploader.marshal,
                      old(app.batchUploader.received) + Present(old(app.batchUploader.chEvents))
                      + Normalize(req, remoteAddr, clock, rfc3339))
  {
    ghost var r0, c0 := app.batchUploader.received, app.batchUploader.chEvents;
    ghost var posted := Normalize(req, remoteAddr, clock, rfc3339);
    QueuedThenPosted(c0, posted);
    resp := app.Post(req, remoteAddr, clock, rfc3339);
    Drain(app.batchUploader, Present(c0) + posted);
    assert r0 + (Present(c0) + posted) == r0 + Present(c0) + posted;
  }

  /** Events posted behind queued ones: the channel is the items of the queued events, then the posted ones. */
  lemma QueuedThenPosted(c: seq<Option<EventJson>>, posted: seq<EventJson>)
    requires None !in c
    ensures c + AsItems(posted) == AsItems(Present(c) + posted)
  {
    ItemsOfPresent(c);
    AsItemsAppend(Present(c), posted);
  }
}
