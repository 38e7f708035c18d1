/**
 * `OS1::PointcloudProcessor`: the older self-contained cloud publisher with
 * its own batcher, scan and cloud. `scan_to_cloud` walks the `h x w` grid
 * and writes cloud cell `(v, u)` from data row `u * w + v`.
 */
module OS1PointcloudProcessors {
  import opened Wrappers
  import opened LidarScans
  import opened Batchers
  import opened Clouds

  /**
   * Row `i` of `ouster::cartesian(ls, xyz_lut)` for the processor's fixed
   * lookup table; that code is not part of this model.
   */
  type CartesianRows = (seq<Pixel>, nat) -> Xyz

  /** The data row of pixel `u` of column `v`, which is also cloud cell `(v, u)`. */
  function CellIndex(w: nat, u: nat, v: nat): nat
  {
    u * w + v
  }

  /** The grid row (pixel) of a cell index. */
  function Row(w: nat, i: nat): nat
    requires w > 0
  {
    i / w
  }

  /** The grid column of a cell index. */
  function Col(w: nat, i: nat): nat
    requires w > 0
  {
    i % w
  }

  lemma {:induction false} MulMono(a: nat, b: nat, w: nat)
    requires a <= b
    ensures a * w <= b * w
    decreases b - a
  {
    if a < b {
      MulMono(a, b - 1, w);
      assert b * w == (b - 1) * w + w;
    }
  }

  /** Euclidean division is determined by a quotient and an in-range remainder. */
  lemma DivModUnique(x: nat, w: nat, q: nat, r: nat)
    requires r < w && x == q * w + r
    ensures x / w == q && x % w == r
  {
    var q', r' := x / w, x % w;
    assert x == q' * w + r' && r' < w;
    if q' < q {
      MulMono(q' + 1, q, w);
    } else if q < q' {
      MulMono(q + 1, q', w);
    }
  }

  /** A grid position lands inside the `w * h` block, and `Row`/`Col` recover it. */
  lemma CellIndexLayout(w: nat, h: nat, u: nat, v: nat)
    requires u < h && v < w
    ensures CellIndex(w, u, v) < w * h
    ensures Row(w, CellIndex(w, u, v)) == u && Col(w, CellIndex(w, u, v)) == v
  {
    MulMono(u + 1, h, w);
    assert (u + 1) * w == u * w + w;
    DivModUnique(CellIndex(w, u, v), w, u, v);
  }

  /** Every index of the `w * h` block is the cell of the grid position `(Row, Col)` gives. */
  lemma CellIndexOnto(w: nat, h: nat, i: nat)
    requires i < w * h
    ensures w > 0 && Row(w, i) < h && Col(w, i) < w && CellIndex(w, Row(w, i), Col(w, i)) == i
  {
    assert w > 0;
    var q := i / w;
    if h <= q {
      MulMono(h, q, w);
    }
  }

  /**
   * `cloud(v, u)` over the `h x w` grid is a bijection onto the `w * h`
   * cells, with `(Row, Col)` as its inverse.
   */
  lemma CellIndexBijection(w: nat, h: nat)
    requires w > 0
    ensures forall u: nat, v: nat :: u < h && v < w ==>
      CellIndex(w, u, v) < w * h && Row(w, CellIndex(w, u, v)) == u && Col(w, CellIndex(w, u, v)) == v
    ensures forall i: nat :: i < w * h ==>
      Row(w, i) < h && Col(w, i) < w && CellIndex(w, Row(w, i), Col(w, i)) == i
  {
    forall u: nat, v: nat | u < h && v < w
      ensures CellIndex(w, u, v) < w * h && Row(w, CellIndex(w, u, v)) == u && Col(w, CellIndex(w, u, v)) == v
    {
      CellIndexLayout(w, h, u, v);
    }
    forall i: nat | i < w * h
      ensures Row(w, i) < h && Col(w, i) < w && CellIndex(w, Row(w, i), Col(w, i)) == i
    {
      CellIndexOnto(w, h, i);
    }
  }

  /** The point `scan_to_cloud` writes for pixel `u` of column `v`. */
  function CellPoint(
    cartesian: CartesianRows, scanTs: int, w: nat, headers: seq<ColumnHeader>, data: seq<Pixel>, u: nat, v: nat): Point
    requires v < |headers| && CellIndex(w, u, v) < |data|
  {
    var row := CellIndex(w, u, v);
    var pix := data[row];
    Point(cartesian(data, row), pix.intensity, headers[v].timestamp - scanTs, pix.reflectivity, u, pix.ambient,
          pix.reflectivity)
  }

  /** The whole cloud `scan_to_cloud` produces, cell by cell. */
  function CloudOf(
    cartesian: CartesianRows, scanTs: int, w: nat, h: nat, headers: seq<ColumnHeader>, data: seq<Pixel>): (c: seq<Point>)
    requires |headers| == w && |data| == w * h
    ensures |c| == w * h
  {
    seq(w * h, i requires 0 <= i < w * h =>
      CellIndexOnto(w, h, i);
      CellPoint(cartesian, scanTs, w, headers, data, Row(w, i), Col(w, i)))
  }

  /**
   * Cell `(v, u)` of the cloud is built from the cell's own data row: the
   * coordinates of that row, intensity, reflectivity (twice: the last field
   * is filled from reflectivity too) and ambient from its pixel, the ring
   * number `u`, and the time of column `v` relative to the scan stamp.
   */
  lemma CloudCell(
    cartesian: CartesianRows, scanTs: int, w: nat, h: nat, headers: seq<ColumnHeader>, data: seq<Pixel>, u: nat, v: nat)
    requires |headers| == w && |data| == w * h && u < h && v < w
    ensures CellIndex(w, u, v) < w * h
    ensures var c := CloudOf(cartesian, scanTs, w, h, headers, data);
      var row := CellIndex(w, u, v);
      && c[row] == CellPoint(cartesian, scanTs, w, headers, data, u, v)
      && c[row].xyz == cartesian(data, row)
      && c[row].intensity == data[row].intensity
      && c[row].reflectivity == data[row].reflectivity
      && c[row].range == data[row].reflectivity
      && c[row].ambient == data[row].ambient
      && c[row].ring == u
      && c[row].t == headers[v].timestamp - scanTs
  {
    CellIndexLayout(w, h, u, v);
  }

  /**
   * A point's time depends only on its column, and it is zero in the first
   * stamped column when the scan stamp is that column's time.
   */
  lemma CloudTimeIsPerColumn(
    cartesian: CartesianRows, w: nat, h: nat, headers: seq<ColumnHeader>, data: seq<Pixel>, u: nat, u': nat, v: nat)
    requires |headers| == w && |data| == w * h && u < h && u' < h && v < w
    requires FrameStamp(headers).Some?
    ensures var c := CloudOf(cartesian, FrameStamp(headers).value, w, h, headers, data);
      CellIndex(w, u, v) < w * h && CellIndex(w, u', v) < w * h &&
      c[CellIndex(w, u, v)].t == c[CellIndex(w, u', v)].t &&
      (v == FirstNonZero(headers) ==> c[CellIndex(w, u, v)].t == 0)
  {
    var ts := FrameStamp(headers).value;
    CloudCell(cartesian, ts, w, h, headers, data, u, v);
    CloudCell(cartesian, ts, w, h, headers, data, u', v);
  }

  /** `cloud.resize(n)`: existing points are kept, new ones are default points. */
  function Resized(points: seq<Point>, n: nat): (r: seq<Point>)
    ensures |r| == n
    ensures forall i :: 0 <= i < n && i < |points| ==> r[i] == points[i]
    ensures forall i :: |points| <= i < n ==> r[i] == ZeroPoint
  {
    if n <= |points| then points[..n] else points + seq(n - |points|, _ => ZeroPoint)
  }

  /**
   * `scan_to_cloud(xyz_lut, scan_ts, ls, cloud)`: the cloud becomes exactly
   * `CloudOf` the scan; nothing of its previous points survives, so building
   * twice from the same scan gives the same cloud.
   */
  method ScanToCloud(cartesian: CartesianRows, scanTs: int, ls: LidarScan, cloud: Cloud)
    requires ls.Valid()
    modifies cloud
    ensures cloud.points == CloudOf(cartesian, scanTs, ls.w, ls.h, ls.headers, ls.data)
  {
    var w, h := ls.w, ls.h;
    cloud.points := Resized(cloud.points, w * h);
    ghost var target := CloudOf(cartesian, scanTs, w, h, ls.headers, ls.data);
    ghost var k := 0;
    var u := 0;
    while u < h
      invariant 0 <= u <= h
      invariant k == CellIndex(w, u, 0) <= w * h
      invariant |cloud.points| == w * h
      invariant forall i :: 0 <= i < k ==> cloud.points[i] == target[i]
    {
      var v := 0;
      while v < w
        invariant 0 <= v <= w
        invariant k == CellIndex(w, u, v) <= w * h
        invariant |cloud.points| == w * h
        invariant forall i :: 0 <= i < k ==> cloud.points[i] == target[i]
      {
        var row := u * w + v;
        CloudCell(cartesian, scanTs, w, h, ls.headers, ls.data, u, v);
        assert row == k < w * h;
        var pix := ls.data[row];
        var ts := ls.headers[v].timestamp - scanTs;
        var point := Point(cartesian(ls.data, row), pix.intensity, ts, pix.reflectivity, u, pix.ambient, pix.reflectivity);
        assert point == target[k];
        cloud.points := cloud.points[row := point];
        v := v + 1;
        k := k + 1;
      }
      assert (u + 1) * w == u * w + w;
      MulMono(u + 1, h, w);
      u := u + 1;
    }
    assert k == w * h;
  }

  class PointcloudProcessor {
    const frame: string
    const cartesian: CartesianRows
    const batch: ScanBatcher
    const ls: LidarScan
    const cloud: Cloud
    var published: seq<CloudMessage>

    ghost predicate Valid()
      reads this, batch, ls
    {
      batch.Valid() && ls.Valid() && batch.w == ls.w && batch.h == ls.h
    }

    constructor (width: nat, height: nat, frame: string, step: BatchStep, cartesian: CartesianRows)
      requires KeepsShape(step, width, height)
      ensures Valid() && fresh(batch) && fresh(ls) && fresh(cloud)
      ensures batch.step == step && ls.w == width && ls.h == height
      ensures cloud.width == width && cloud.height == height && |cloud.points| == width * height
      ensures this.frame == frame && this.cartesian == cartesian && published == []
    {
      this.frame, this.cartesian := frame, cartesian;
      batch := new ScanBatcher(width, height, step);
      ls := new LidarScan(width, height);
      cloud := new Cloud(width, height);
      published := [];
    }

    /**
     * `lidar_handler(data)`: the packet is batched; only a completed revolution
     * with a stamped column is turned into a cloud, stamped with the first
     * stamped column's time, and published.
     */
    method LidarHandler(data: Packet)
      requires Valid()
      modifies this, batch, ls, cloud
      ensures Valid()
      ensures var o := Outcome(batch.step, old(batch.cursor), data, old(ls.headers), old(ls.data));
        var stamp := FrameStamp(o.headers);
        && batch.cursor == o.cursor && ls.headers == o.headers && ls.data == o.data
        && if o.complete && stamp.Some? then
             && cloud.points == CloudOf(cartesian, stamp.value, ls.w, ls.h, o.headers, o.data)
             && published == old(published) + [CloudMessage(cloud.points, stamp.value, frame, None)]
           else
             cloud.points == old(cloud.points) && published == old(published)
    {
      var complete := batch.Batch(data, ls);
      if complete {
        var i := FindFirstNonZero(ls.headers);
        if i < |ls.headers| {
          var scanTs := ls.headers[i].timestamp;
          ScanToCloud(cartesian, scanTs, ls, cloud);
          published := published + [CloudMessage(cloud.points, scanTs, frame, None)];
        }
      }
    }

    /** `process(data, override_ts)`: `override_ts` is ignored; always success. */
    method Process(data: Packet, overrideTs: uint64) returns (ok: bool)
      requires Valid()
      modifies this, batch, ls, cloud
      ensures Valid() && ok
      ensures var o := Outcome(batch.step, old(batch.cursor), data, old(ls.headers), old(ls.data));
        var stamp := FrameStamp(o.headers);
        && batch.cursor == o.cursor && ls.headers == o.headers && ls.data == o.data
        && if o.complete && stamp.Some? then
             && cloud.points == CloudOf(cartesian, stamp.value, ls.w, ls.h, o.headers, o.data)
             && published == old(published) + [CloudMessage(cloud.points, stamp.value, frame, None)]
           else
             cloud.points == old(cloud.points) && published == old(published)
    {
      LidarHandler(data);
      return true;
    }
  }
}
