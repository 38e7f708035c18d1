/**
 * `sensor::PreprocessorManager`: creates the (single) lidar-scan
 * preprocessor, forwards every packet to it, and hands the same instance to
 * every consumer that asks for it.
 */
module PreprocessorManagers {
  import opened LidarScans
  import opened Batchers
  import opened LidarscanPreprocessors

  class PreprocessorManager {
    const lsPreprocessor: LidarscanPreprocessor

    ghost predicate Valid()
      reads this, lsPreprocessor, lsPreprocessor.batch, lsPreprocessor.ls
    {
      lsPreprocessor.Valid()
    }

    /** Creates the lidar-scan preprocessor once; it is never replaced. */
    constructor (w: nat, h: nat, step: BatchStep, initialTimestamp: int)
      requires KeepsShape(step, w, h)
      ensures Valid()
      ensures fresh(lsPreprocessor) && fresh(lsPreprocessor.batch) && fresh(lsPreprocessor.ls)
      ensures lsPreprocessor.batch.step == step && lsPreprocessor.ls.w == w && lsPreprocessor.ls.h == h
      ensures lsPreprocessor.State() == Initial(w, h, initialTimestamp)
    {
      lsPreprocessor := new LidarscanPreprocessor(w, h, step, initialTimestamp);
    }

    /**
     * `preprocess(data, override_ts)`: exactly one forwarded call. The manager
     * never activates its preprocessor, so before any query nothing changes.
     */
    method Preprocess(data: Packet, overrideTs: uint64)
      requires Valid()
      modifies lsPreprocessor, lsPreprocessor.batch, lsPreprocessor.ls
      ensures Valid()
      ensures lsPreprocessor.State()
        == Preprocessed(old(lsPreprocessor.State()), lsPreprocessor.batch.step, data)
      ensures lsPreprocessor.activated == old(lsPreprocessor.activated)
      ensures !old(lsPreprocessor.activated) ==> lsPreprocessor.State() == old(lsPreprocessor.State())
    {
      var _ := lsPreprocessor.Preprocess(data, overrideTs);
      PreprocessCycle(old(lsPreprocessor.State()), lsPreprocessor.batch.step, data);
    }

    /** `get_lidarscan_preprocessor()`: always the instance created by the constructor. */
    method GetLidarscanPreprocessor() returns (p: LidarscanPreprocessor)
      ensures p == lsPreprocessor
    {
      p := lsPreprocessor;
    }
  }
}
