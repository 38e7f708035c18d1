/**
 * `sensor::LidarscanPreprocessor`: an activation and readiness state machine
 * around one batcher and one reused scan buffer.
 *
 * The specification functions below give the abstract state (`PreState`)
 * after each public operation; the class's methods are proved to follow them,
 * and the lemmas state what those functions promise, for one packet and for
 * any interleaving of readiness queries and packets.
 */
module LidarscanPreprocessors {
  import opened Wrappers
  import opened LidarScans
  import opened Batchers

  /** `OusterDriverException("Preprocessor data not ready.")`. */
  datatype PreprocessorError = NotReady

  /** Everything a preprocessor owns: its two flags, its stamp, its batcher's bookkeeping and its scan. */
  datatype PreState = PreState(
    activated: bool,
    dataReady: bool,
    timestamp: int,
    cursor: int,
    headers: seq<ColumnHeader>,
    data: seq<Pixel>)

  /**
   * The state right after construction. The C++ members `_dataReady` and
   * `_activated` have no initialiser; they are taken to start false.
   * `_timestamp` is left indeterminate there, so it is a parameter here.
   */
  function Initial(w: nat, h: nat, initialTimestamp: int): PreState
  {
    PreState(false, false, initialTimestamp, 0, seq(w, _ => EmptyHeader), seq(w * h, _ => EmptyPixel))
  }

  /** The effect of `isDataReady()`: activation, and nothing else. */
  function Queried(s: PreState): PreState
  {
    s.(activated := true)
  }

  /** The effect of `handle()`: batch the packet; a completed revolution is stamped and made ready. */
  function Handled(s: PreState, step: BatchStep, p: Packet): PreState
  {
    var o := Outcome(step, s.cursor, p, s.headers, s.data);
    var stamp := FrameStamp(o.headers);
    s.(cursor := o.cursor, headers := o.headers, data := o.data,
       timestamp := if o.complete && stamp.Some? then stamp.value else s.timestamp,
       dataReady := s.dataReady || o.complete)
  }

  /** The effect of `preprocess()`: nothing until activated, else clear readiness and handle the packet. */
  function Preprocessed(s: PreState, step: BatchStep, p: Packet): PreState
  {
    if s.activated then Handled(s.(dataReady := false), step, p) else s
  }

  /** What happens to a preprocessor over time: a readiness query, or a packet. */
  datatype Event = Query | Dispatch(packet: Packet, overrideTs: uint64)

  function Apply(s: PreState, step: BatchStep, e: Event): PreState
  {
    match e
    case Query => Queried(s)
    case Dispatch(p, _) => Preprocessed(s, step, p)
  }

  /** The state after a sequence of events, in order. */
  function Replay(s: PreState, step: BatchStep, events: seq<Event>): PreState
    decreases |events|
  {
    if events == [] then s else Replay(Apply(s, step, events[0]), step, events[1..])
  }

  /**
   * One packet. The activation flag is untouched. Before activation nothing
   * changes at all. After activation the batcher's outcome is installed,
   * readiness is exactly its completion flag (the previous cycle's readiness
   * is cleared first), and on completion the stamp becomes the timestamp of
   * the first stamped column, or stays as it was when no column is stamped.
   */
  lemma PreprocessCycle(s: PreState, step: BatchStep, p: Packet)
    ensures Preprocessed(s, step, p).activated == s.activated
    ensures !s.activated ==> Preprocessed(s, step, p) == s
    ensures s.activated ==>
      var o := Outcome(step, s.cursor, p, s.headers, s.data);
      var t := Preprocessed(s, step, p);
      && t.dataReady == o.complete
      && t.cursor == o.cursor && t.headers == o.headers && t.data == o.data
      && (o.complete && (exists j :: 0 <= j < |o.headers| && o.headers[j].timestamp != 0) ==>
            t.timestamp != 0 &&
            exists j :: 0 <= j < |o.headers| && o.headers[j].timestamp == t.timestamp &&
              forall k :: 0 <= k < j ==> o.headers[k].timestamp == 0)
      && (!o.complete || (forall j :: 0 <= j < |o.headers| ==> o.headers[j].timestamp == 0) ==>
            t.timestamp == s.timestamp)
  {
    if s.activated {
      var o := Outcome(step, s.cursor, p, s.headers, s.data);
      FrameStampIsFirstStampedColumn(o.headers);
    }
  }

  lemma {:induction false} ReplayAppend(s: PreState, step: BatchStep, a: seq<Event>, b: seq<Event>)
    ensures Replay(s, step, a + b) == Replay(Replay(s, step, a), step, b)
    decreases |a|
  {
    if a != [] {
      assert (a + b)[0] == a[0] && (a + b)[1..] == a[1..] + b;
      ReplayAppend(Apply(s, step, a[0]), step, a[1..], b);
    } else {
      assert a + b == b;
    }
  }

  /** Packets delivered before the first readiness query change nothing: no batching, no buffer write. */
  lemma {:induction false} UnqueriedPacketsAreDropped(s: PreState, step: BatchStep, events: seq<Event>)
    requires !s.activated
    requires Query !in events
    ensures Replay(s, step, events) == s
    decreases |events|
  {
    if events != [] {
      assert events[0] in events;
      assert forall e :: e in events[1..] ==> e in events;
      UnqueriedPacketsAreDropped(Apply(s, step, events[0]), step, events[1..]);
    }
  }

  /** The preprocessor is active exactly when it was already, or a query has happened: activation is never undone. */
  lemma {:induction false} ActivatedIffQueried(s: PreState, step: BatchStep, events: seq<Event>)
    ensures Replay(s, step, events).activated <==> s.activated || Query in events
    decreases |events|
  {
    if events != [] {
      if events[0].Dispatch? {
        PreprocessCycle(s, step, events[0].packet);
      }
      assert events == [events[0]] + events[1..];
      ActivatedIffQueried(Apply(s, step, events[0]), step, events[1..]);
    }
  }

  /** Two event sequences that differ only in the `override_ts` of their packets. */
  ghost predicate SameUpToOverride(a: seq<Event>, b: seq<Event>)
  {
    |a| == |b| &&
    forall i :: 0 <= i < |a| ==> (a[i].Query? <==> b[i].Query?) && (a[i].Dispatch? ==> a[i].packet == b[i].packet)
  }

  /** `override_ts` has no effect on any preprocessor state. */
  lemma {:induction false} OverrideHasNoEffect(s: PreState, step: BatchStep, a: seq<Event>, b: seq<Event>)
    requires SameUpToOverride(a, b)
    ensures Replay(s, step, a) == Replay(s, step, b)
    decreases |a|
  {
    if a != [] {
      assert Apply(s, step, a[0]) == Apply(s, step, b[0]);
      assert SameUpToOverride(a[1..], b[1..]) by {
        forall i | 0 <= i < |a[1..]|
          ensures (a[1..][i].Query? <==> b[1..][i].Query?) && (a[1..][i].Dispatch? ==> a[1..][i].packet == b[1..][i].packet)
        {
          assert a[1..][i] == a[i + 1] && b[1..][i] == b[i + 1];
        }
      }
      OverrideHasNoEffect(Apply(s, step, a[0]), step, a[1..], b[1..]);
    }
  }

  /** Asking for readiness twice in a row behaves exactly like asking once. */
  lemma RepeatedQueryIsIdempotent(s: PreState, step: BatchStep, before: seq<Event>, after: seq<Event>)
    ensures Replay(s, step, before + [Query, Query] + after) == Replay(s, step, before + [Query] + after)
  {
    var r := Replay(s, step, before);
    ReplayAppend(s, step, before, [Query, Query] + after);
    ReplayAppend(s, step, before, [Query] + after);
    assert before + [Query, Query] + after == before + ([Query, Query] + after);
    assert before + [Query] + after == before + ([Query] + after);
    assert ([Query, Query] + after)[1..] == [Query] + after;
    assert ([Query] + after)[1..] == after;
    assert Replay(r, step, [Query, Query] + after) == Replay(Queried(r), step, [Query] + after);
    assert Replay(Queried(r), step, [Query] + after) == Replay(Queried(Queried(r)), step, after);
    assert Replay(r, step, [Query] + after) == Replay(Queried(r), step, after);
  }

  /**
   * Once some query has happened, the readiness after a packet is exactly the
   * batcher's completion flag for that packet: a ready frame lasts only until
   * the next packet.
   */
  lemma LastPacketDecidesReadiness(s: PreState, step: BatchStep, events: seq<Event>, p: Packet, overrideTs: uint64)
    requires s.activated || Query in events
    ensures var r := Replay(s, step, events);
      Replay(s, step, events + [Dispatch(p, overrideTs)]).dataReady
        == Outcome(step, r.cursor, p, r.headers, r.data).complete
  {
    var r := Replay(s, step, events);
    ActivatedIffQueried(s, step, events);
    ReplayAppend(s, step, events, [Dispatch(p, overrideTs)]);
    assert Replay(r, step, [Dispatch(p, overrideTs)]) == Preprocessed(r, step, p);
    PreprocessCycle(r, step, p);
  }

  class LidarscanPreprocessor {
    var dataReady: bool
    var activated: bool
    var timestamp: int
    const batch: ScanBatcher
    const ls: LidarScan

    ghost predicate Valid()
      reads this, batch, ls
    {
      batch.Valid() && ls.Valid() && batch.w == ls.w && batch.h == ls.h
    }

    /** The abstract state of this preprocessor. */
    function State(): PreState
      reads this, batch, ls
    {
      PreState(activated, dataReady, timestamp, batch.cursor, ls.headers, ls.data)
    }

    /** The scan buffer is allocated here, once; `ls` is never reassigned. */
    constructor (w: nat, h: nat, step: BatchStep, initialTimestamp: int)
      requires KeepsShape(step, w, h)
      ensures Valid() && fresh(batch) && fresh(ls)
      ensures batch.step == step && ls.w == w && ls.h == h
      ensures State() == Initial(w, h, initialTimestamp)
    {
      batch := new ScanBatcher(w, h, step);
      ls := new LidarScan(w, h);
      dataReady, activated, timestamp := false, false, initialTimestamp;
    }

    /** `isDataReady()`: reports readiness and activates the preprocessor. */
    method IsDataReady() returns (ready: bool)
      modifies this`activated
      ensures activated
      ensures ready == dataReady
      ensures State() == Queried(old(State()))
    {
      activated := true;
      ready := dataReady;
    }

    /** `getData()`: the scan buffer itself, or NotReady. */
    method GetData() returns (r: Result<LidarScan, PreprocessorError>)
      ensures r.Success? <==> dataReady
      ensures r.Success? ==> r.value == ls
      ensures r.Failure? ==> r.error == NotReady
    {
      if !dataReady {
        return Failure(NotReady);
      }
      return Success(ls);
    }

    /** `getTimestamp()`: the stamp of the ready frame, or NotReady. */
    method GetTimestamp() returns (r: Result<int, PreprocessorError>)
      ensures r.Success? <==> dataReady
      ensures r.Success? ==> r.value == timestamp
      ensures r.Failure? ==> r.error == NotReady
    {
      if !dataReady {
        return Failure(NotReady);
      }
      return Success(timestamp);
    }

    /** `preprocess(data, override_ts)`: always reports success. */
    method Preprocess(data: Packet, overrideTs: uint64) returns (ok: bool)
      requires Valid()
      modifies this, batch, ls
      ensures Valid() && ok
      ensures State() == Preprocessed(old(State()), batch.step, data)
    {
      if !activated {
        return true;
      }
      if dataReady {
        dataReady := false;
      }
      var _ := Handle(data, overrideTs);
      return true;
    }

    /** `handle(data, override_ts)`, the private half of `preprocess`. */
    method Handle(data: Packet, overrideTs: uint64) returns (ok: bool)
      requires Valid()
      modifies this, batch, ls
      ensures Valid() && ok
      ensures State() == Handled(old(State()), batch.step, data)
    {
      var complete := batch.Batch(data, ls);
      if complete {
        var i := FindFirstNonZero(ls.headers);
        if i < |ls.headers| {
          timestamp := ls.headers[i].timestamp;
        }
        dataReady := true;
      }
      return true;
    }
  }
}
