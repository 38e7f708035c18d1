/**
 * The scan buffer (`ouster::LidarScan`) that a batcher fills in place, the raw
 * packet and timestamp types, and the search for the frame's timestamp: the
 * first column whose header carries a non-zero capture time.
 */
module LidarScans {
  import opened Wrappers

  newtype byte = x: int | 0 <= x < 0x100

  /** A raw lidar packet as handed to the preprocessors and processors. */
  type Packet = seq<byte>

  /** The `uint64_t override_ts` argument (0 means "use the packet's own time"). */
  type uint64 = x: int | 0 <= x < 0x1_0000_0000_0000_0000

  /** Per-column header of a scan; the core only reads the capture time (ns). */
  datatype ColumnHeader = ColumnHeader(timestamp: int, encoder: int, status: int)

  /** One row of the scan's data block: the channels of one pixel. */
  datatype Pixel = Pixel(range: int, intensity: int, ambient: int, reflectivity: int)

  const EmptyHeader := ColumnHeader(0, 0, 0)
  const EmptyPixel := Pixel(0, 0, 0, 0)

  /**
   * A scan of `w` columns by `h` pixels per column. `headers[v]` belongs to
   * column `v`; the data block holds `w * h` rows, pixel `u` of column `v`
   * at row `u * w + v`. The buffer is filled in place and never resized.
   */
  class LidarScan {
    const w: nat
    const h: nat
    var headers: seq<ColumnHeader>
    var data: seq<Pixel>

    ghost predicate Valid()
      reads this
    {
      |headers| == w && |data| == w * h
    }

    /** `LidarScan{w, h}`: a zeroed scan of the given shape. */
    constructor (w: nat, h: nat)
      ensures Valid() && this.w == w && this.h == h
      ensures headers == seq(w, _ => EmptyHeader)
      ensures data == seq(w * h, _ => EmptyPixel)
    {
      this.w, this.h := w, h;
      headers := seq(w, _ => EmptyHeader);
      data := seq(w * h, _ => EmptyPixel);
    }
  }

  /**
   * Index of the first header whose timestamp is non-zero, or `|headers|`
   * (the end iterator) when every timestamp is zero.
   */
  function FirstNonZero(headers: seq<ColumnHeader>): (i: nat)
    ensures i <= |headers|
    ensures forall j :: 0 <= j < i ==> headers[j].timestamp == 0
    ensures i < |headers| ==> headers[i].timestamp != 0
  {
    if |headers| == 0 || headers[0].timestamp != 0 then 0
    else 1 + FirstNonZero(headers[1..])
  }

  /** The `std::find_if` over the headers, as the linear search it is. */
  method FindFirstNonZero(headers: seq<ColumnHeader>) returns (i: nat)
    ensures i == FirstNonZero(headers)
  {
    i := 0;
    while i < |headers| && headers[i].timestamp == 0
      invariant i <= |headers|
      invariant forall j :: 0 <= j < i ==> headers[j].timestamp == 0
    {
      i := i + 1;
    }
  }

  /** The frame timestamp a completed scan yields, if any column is stamped. */
  function FrameStamp(headers: seq<ColumnHeader>): Option<int>
  {
    var i := FirstNonZero(headers);
    if i < |headers| then Some(headers[i].timestamp) else None
  }

  /**
   * A frame stamp exists exactly when some column is stamped, and then it is
   * the non-zero timestamp of a column preceded only by unstamped columns.
   */
  lemma FrameStampIsFirstStampedColumn(headers: seq<ColumnHeader>)
    ensures FrameStamp(headers).Some? <==> exists j :: 0 <= j < |headers| && headers[j].timestamp != 0
    ensures FrameStamp(headers).Some? ==>
      exists j :: 0 <= j < |headers| && headers[j].timestamp == FrameStamp(headers).value != 0 &&
        forall k :: 0 <= k < j ==> headers[k].timestamp == 0
  {
    var i := FirstNonZero(headers);
    if i < |headers| {
      assert headers[i].timestamp == FrameStamp(headers).value;
    }
  }

  /** The frame stamp of the headers `[0, 0, 1000, 2000, 0]` is 1000 ns. */
  lemma FrameStampExample()
    ensures FrameStamp([ColumnHeader(0, 0, 0), ColumnHeader(0, 1, 0), ColumnHeader(1000, 2, 0),
                        ColumnHeader(2000, 3, 0), ColumnHeader(0, 4, 0)]) == Some(1000)
  {
    var hs := [ColumnHeader(0, 0, 0), ColumnHeader(0, 1, 0), ColumnHeader(1000, 2, 0),
               ColumnHeader(2000, 3, 0), ColumnHeader(0, 4, 0)];
    assert hs[0].timestamp == 0 && hs[1].timestamp == 0 && hs[2].timestamp != 0;
    assert FirstNonZero(hs) == 2;
  }
}

/**
 * `ouster::ScanBatcher`, whose code is not part of this model: an oracle that
 * consumes one packet, writes into the scan and says whether the packet
 * completed a revolution.
 */
module Batchers {
  import opened LidarScans

  /** What one call of the batcher produces. */
  datatype BatchOutcome = BatchOutcome(complete: bool, cursor: int, headers: seq<ColumnHeader>, data: seq<Pixel>)

  /**
   * The batcher's behaviour: from its private bookkeeping (`cursor`), the
   * packet and the scan's current contents, to the new bookkeeping, the new
   * scan contents and the completion flag.
   */
  type BatchStep = (int, Packet, seq<ColumnHeader>, seq<Pixel>) -> BatchOutcome

  /** One application of the batcher. */
  function Outcome(step: BatchStep, cursor: int, p: Packet, hs: seq<ColumnHeader>, d: seq<Pixel>): BatchOutcome
  {
    step(cursor, p, hs, d)
  }

  /** The batcher writes into a fixed-size scan: it never changes its shape. */
  ghost predicate KeepsShape(step: BatchStep, w: nat, h: nat)
  {
    forall c, p, hs, d :: |hs| == w && |d| == w * h ==>
      |Outcome(step, c, p, hs, d).headers| == w && |Outcome(step, c, p, hs, d).data| == w * h
  }

  class ScanBatcher {
    const w: nat
    const h: nat
    const step: BatchStep
    var cursor: int

    ghost predicate Valid()
      reads this
    {
      KeepsShape(step, w, h)
    }

    /** `ScanBatcher(columns_per_frame, pf)`. */
    constructor (w: nat, h: nat, step: BatchStep)
      requires KeepsShape(step, w, h)
      ensures Valid() && this.w == w && this.h == h && this.step == step && cursor == 0
    {
      this.w, this.h, this.step := w, h, step;
      cursor := 0;
    }

    /** `operator()(data, ls)`: batch one packet into `ls`; changes only the batcher and `ls`. */
    method Batch(data: Packet, ls: LidarScan) returns (complete: bool)
      requires Valid() && ls.Valid() && ls.w == w && ls.h == h
      modifies this, ls
      ensures ls.Valid()
      ensures Outcome(step, old(cursor), data, old(ls.headers), old(ls.data))
        == BatchOutcome(complete, cursor, ls.headers, ls.data)
    {
      var o := Outcome(step, cursor, data, ls.headers, ls.data);
      cursor := o.cursor;
      ls.headers, ls.data := o.headers, o.data;
      complete := o.complete;
    }
  }
}
