/** The handle through which a resource reports its changes (observers.rs, `Observers`). */
module Observers {
  import Paths
  import opened Registry
  import opened U24
  import opened Watch

  class Observers {
    const relativePathKey: Paths.Key
    const notifyChangeTx: WatchSender<NotificationState>
    var changeNum: u24

    constructor (relativePathKey: Paths.Key, first: u24)
      ensures this.relativePathKey == relativePathKey && changeNum == first && fresh(notifyChangeTx)
      ensures notifyChangeTx.State() == WatchState(InitialSequence(first), 0, 0)
    {
      this.relativePathKey, changeNum := relativePathKey, first;
      var tx := new WatchSender(InitialSequence(first), 0);
      notifyChangeTx := tx;
    }

    function RelativePath(): string {
      Paths.Join(relativePathKey)
    }

    /** The critical section of `notify_change`. */
    method NextChangeNum() returns (next: u24)
      modifies this
      ensures next == changeNum == WrappingAdd(old(changeNum), 1)
    {
      changeNum := WrappingAdd(changeNum, 1);
      next := changeNum;
    }

    /** Without observers the number still advances, but nothing is published. */
    method NotifyChange()
      modifies this, notifyChangeTx
      ensures changeNum == WrappingAdd(old(changeNum), 1)
      ensures notifyChangeTx.State() == Publish(old(notifyChangeTx.State()), ResourceChanged(changeNum))
      ensures notifyChangeTx.receivers == old(notifyChangeTx.receivers)
      ensures old(notifyChangeTx.receivers) > 0 ==>
                && notifyChangeTx.value == ResourceChanged(changeNum)
                && notifyChangeTx.version == old(notifyChangeTx.version) + 1
      ensures old(notifyChangeTx.receivers) == 0 ==>
                && notifyChangeTx.value == old(notifyChangeTx.value)
                && notifyChangeTx.version == old(notifyChangeTx.version)
    {
      var next := NextChangeNum();
      var _ := notifyChangeTx.Send(ResourceChanged(next));
    }
  }
}
