/**
 * `sensor::PointcloudProcessor`: a consumer of the shared lidar-scan
 * preprocessor. Each packet it sees, it asks for readiness (which activates
 * the preprocessor) and, when a frame is ready, builds the cloud from the
 * preprocessor's scan and stamp and publishes it.
 */
module PointcloudProcessors {
  import opened Wrappers
  import opened LidarScans
  import opened Batchers
  import opened LidarscanPreprocessors
  import opened PreprocessorManagers
  import opened Clouds

  /**
   * `ros2_ouster::toCloud` with the sensor's XYZ lookup table, whose code is
   * not part of this model: from the frame stamp, the scan and the cloud's
   * current points to the cloud's new points.
   */
  type CloudBuilder = (int, seq<ColumnHeader>, seq<Pixel>, seq<Point>) -> seq<Point>

  class PointcloudProcessor {
    const preprocessor: LidarscanPreprocessor
    const toCloud: CloudBuilder
    const cloud: Cloud
    const frame: string
    var published: seq<CloudMessage>

    ghost predicate Valid()
      reads this, preprocessor, preprocessor.batch, preprocessor.ls
    {
      preprocessor.Valid()
    }

    /** Takes the manager's preprocessor and allocates the cloud once, `width x height`. */
    constructor (width: nat, height: nat, frame: string, toCloud: CloudBuilder, manager: PreprocessorManager)
      requires manager.Valid()
      ensures Valid()
      ensures preprocessor == manager.lsPreprocessor
      ensures fresh(cloud) && cloud.width == width && cloud.height == height
      ensures |cloud.points| == width * height
      ensures this.frame == frame && this.toCloud == toCloud && published == []
    {
      var p := manager.GetLidarscanPreprocessor();
      preprocessor := p;
      this.toCloud, this.frame := toCloud, frame;
      cloud := new Cloud(width, height);
      published := [];
    }

    /**
     * `handler(data, override_ts)`. The packet itself is not read: the
     * manager has already batched it. Readiness is asked first, so the
     * preprocessor is active from now on and otherwise untouched. When a
     * frame is ready, the cloud is rebuilt and published with the same stamp;
     * `override_ts` goes only into the message. Otherwise nothing else changes.
     */
    method Handler(data: Packet, overrideTs: uint64)
      requires Valid()
      modifies this, preprocessor, cloud
      ensures Valid()
      ensures preprocessor.State() == Queried(old(preprocessor.State()))
      ensures old(preprocessor.dataReady) ==>
        && cloud.points == toCloud(preprocessor.timestamp, preprocessor.ls.headers, preprocessor.ls.data, old(cloud.points))
        && published == old(published) + [CloudMessage(cloud.points, preprocessor.timestamp, frame, Some(overrideTs))]
      ensures !old(preprocessor.dataReady) ==> cloud.points == old(cloud.points) && published == old(published)
    {
      var ready := preprocessor.IsDataReady();
      if !ready {
        return;
      }
      var stamp := preprocessor.GetTimestamp();
      var scan := preprocessor.GetData();
      if stamp.Success? && scan.Success? {
        cloud.points := toCloud(stamp.value, scan.value.headers, scan.value.data, cloud.points);
        var msgStamp := preprocessor.GetTimestamp();
        if msgStamp.Success? {
          published := published + [CloudMessage(cloud.points, msgStamp.value, frame, Some(overrideTs))];
        } else {
          assert false;
        }
      } else {
        assert false;
      }
    }

    /** `process(data, override_ts)`: the handler, then success. */
    method Process(data: Packet, overrideTs: uint64) returns (ok: bool)
      requires Valid()
      modifies this, preprocessor, cloud
      ensures Valid() && ok
      ensures preprocessor.State() == Queried(old(preprocessor.State()))
      ensures old(preprocessor.dataReady) ==>
        && cloud.points == toCloud(preprocessor.timestamp, preprocessor.ls.headers, preprocessor.ls.data, old(cloud.points))
        && published == old(published) + [CloudMessage(cloud.points, preprocessor.timestamp, frame, Some(overrideTs))]
      ensures !old(preprocessor.dataReady) ==> cloud.points == old(cloud.points) && published == old(published)
    {
      Handler(data, overrideTs);
      return true;
    }
  }

  /**
   * The manager and a consumer share one preprocessor. A packet dispatched
   * before any consumer has run changes nothing; once the consumer's handler
   * has asked for readiness through its handle, the manager's next dispatch
   * batches the packet into the shared scan.
   */
  method SharedPreprocessorActivation(
    w: nat, h: nat, step: BatchStep, initialTimestamp: int, frame: string,
    toCloud: CloudBuilder, p: Packet, overrideTs: uint64)
    returns (initial: PreState, afterIdleDispatch: PreState, afterConsumer: PreState, afterDispatch: PreState)
    requires KeepsShape(step, w, h)
    ensures initial == Initial(w, h, initialTimestamp)
    ensures afterIdleDispatch == initial
    ensures afterConsumer == Queried(initial)
    ensures afterDispatch == Handled(Queried(initial), step, p)
    ensures afterDispatch.dataReady == Outcome(step, initial.cursor, p, initial.headers, initial.data).complete
  {
    var manager := new PreprocessorManager(w, h, step, initialTimestamp);
    var consumer := new PointcloudProcessor(w, h, frame, toCloud, manager);
    initial := manager.lsPreprocessor.State();
    manager.Preprocess(p, overrideTs);
    afterIdleDispatch := manager.lsPreprocessor.State();
    consumer.Handler(p, overrideTs);
    afterConsumer := manager.lsPreprocessor.State();
    manager.Preprocess(p, overrideTs);
    afterDispatch := manager.lsPreprocessor.State();
  }
}
