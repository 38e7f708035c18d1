/**
 * `sensor::ScanProcessor`: a self-contained consumer with its own batcher and
 * scan. At construction it picks the beam ("ring") nearest the horizon; on
 * each completed, stamped revolution it publishes a laser scan of that ring.
 */
module ScanProcessors {
  import opened Wrappers
  import opened LidarScans
  import opened Batchers

  /** The starting value of `zero_angle`: beams at or beyond it are never chosen. */
  const AngleCutoff: real := 9999.0

  function Abs(x: real): (r: real)
    ensures r >= 0.0 && (r == x || r == -x)
  {
    if x < 0.0 then -x else x
  }

  /**
   * `ring` is the beam the constructor picks: the first index of smallest
   * absolute altitude among the beams below the cutoff, or 0 when none is.
   */
  ghost predicate NearestToHorizon(angles: seq<real>, ring: nat)
  {
    if exists i :: 0 <= i < |angles| && Abs(angles[i]) < AngleCutoff then
      && ring < |angles|
      && Abs(angles[ring]) < AngleCutoff
      && (forall i :: 0 <= i < |angles| ==> Abs(angles[ring]) <= Abs(angles[i]))
      && (forall i :: 0 <= i < ring ==> Abs(angles[ring]) < Abs(angles[i]))
    else
      ring == 0
  }

  /** The constructor's loop over `beam_altitude_angles`. */
  method SelectRing(angles: seq<real>) returns (ring: nat)
    ensures NearestToHorizon(angles, ring)
  {
    var zeroAngle := AngleCutoff;
    ring := 0;
    var i := 0;
    while i != |angles|
      invariant 0 <= i <= |angles|
      invariant zeroAngle <= AngleCutoff
      invariant forall j :: 0 <= j < i ==> zeroAngle <= Abs(angles[j])
      invariant zeroAngle < AngleCutoff ==>
        ring < i && Abs(angles[ring]) == zeroAngle &&
        forall j :: 0 <= j < ring ==> zeroAngle < Abs(angles[j])
      invariant zeroAngle == AngleCutoff ==> ring == 0
    {
      if Abs(angles[i]) < zeroAngle {
        ring := i;
        zeroAngle := Abs(angles[i]);
      }
      i := i + 1;
    }
  }

  /** What `ros2_ouster::toMsg` is given for a laser scan. */
  datatype ScanMessage = ScanMessage(
    headers: seq<ColumnHeader>,
    data: seq<Pixel>,
    stamp: int,
    frame: string,
    ring: nat,
    overrideTs: uint64)

  class ScanProcessor {
    const frame: string
    const ring: nat
    const batch: ScanBatcher
    const ls: LidarScan
    var published: seq<ScanMessage>

    ghost predicate Valid()
      reads this, batch, ls
    {
      batch.Valid() && ls.Valid() && batch.w == ls.w && batch.h == ls.h
    }

    constructor (width: nat, height: nat, frame: string, step: BatchStep, beamAltitudeAngles: seq<real>)
      requires KeepsShape(step, width, height)
      ensures Valid() && fresh(batch) && fresh(ls)
      ensures batch.step == step && ls.w == width && ls.h == height
      ensures NearestToHorizon(beamAltitudeAngles, ring)
      ensures this.frame == frame && published == []
    {
      this.frame := frame;
      batch := new ScanBatcher(width, height, step);
      ls := new LidarScan(width, height);
      var r := SelectRing(beamAltitudeAngles);
      ring := r;
      published := [];
    }

    /**
     * `handler(data, override_ts)`: the packet is batched into the scan; a
     * message is published only when the revolution completes and some column
     * is stamped, with the first stamped column's time, the selected ring and
     * `override_ts` passed through.
     */
    method Handler(data: Packet, overrideTs: uint64)
      requires Valid()
      modifies this, batch, ls
      ensures Valid()
      ensures var o := Outcome(batch.step, old(batch.cursor), data, old(ls.headers), old(ls.data));
        && batch.cursor == o.cursor && ls.headers == o.headers && ls.data == o.data
        && published == old(published) +
             (if o.complete && FrameStamp(o.headers).Some?
              then [ScanMessage(o.headers, o.data, FrameStamp(o.headers).value, frame, ring, overrideTs)]
              else [])
    {
      var complete := batch.Batch(data, ls);
      if complete {
        var i := FindFirstNonZero(ls.headers);
        if i < |ls.headers| {
          published := published + [ScanMessage(ls.headers, ls.data, ls.headers[i].timestamp, frame, ring, overrideTs)];
        }
      }
    }

    /** `process(data, override_ts)`: the handler, then success. */
    method Process(data: Packet, overrideTs: uint64) returns (ok: bool)
      requires Valid()
      modifies this, batch, ls
      ensures Valid() && ok
      ensures var o := Outcome(batch.step, old(batch.cursor), data, old(ls.headers), old(ls.data));
        && batch.cursor == o.cursor && ls.headers == o.headers && ls.data == o.data
        && published == old(published) +
             (if o.complete && FrameStamp(o.headers).Some?
              then [ScanMessage(o.headers, o.data, FrameStamp(o.headers).value, frame, ring, overrideTs)]
              else [])
    {
      Handler(data, overrideTs);
      return true;
    }
  }
}
