/** The two channel primitives the server is built on, as far as their semantics matter here. */
module Watch {

  /** What a watch channel holds: a value, how often it was published, and how many receivers
      are alive. */
  datatype WatchState<T> = WatchState(value: T, version: nat, receivers: nat)

  /** Publishing changes nothing once every receiver is gone. */
  function Publish<T>(w: WatchState<T>, value: T): WatchState<T> {
    if w.receivers > 0 then w.(value := value, version := w.version + 1) else w
  }

  function AddReceiver<T>(w: WatchState<T>): WatchState<T> {
    w.(receivers := w.receivers + 1)
  }

  function DropReceiver<T>(w: WatchState<T>): WatchState<T> {
    if w.receivers > 0 then w.(receivers := w.receivers - 1) else w
  }

  /** The sending side of a watch channel, shared by reference. */
  class WatchSender<T> {
    var value: T
    var version: nat
    var receivers: nat

    constructor (value: T, receivers: nat)
      ensures State() == WatchState(value, 0, receivers)
    {
      this.value, this.version, this.receivers := value, 0, receivers;
    }

    function State(): WatchState<T>
      reads this
    {
      WatchState(value, version, receivers)
    }

    /** Returns false, leaving the value alone, when there is no receiver. */
    method Send(v: T) returns (ok: bool)
      modifies this
      ensures State() == Publish(old(State()), v)
      ensures ok <==> old(receivers) > 0
      ensures receivers == old(receivers)
      ensures value == (if ok then v else old(value)) && version == old(version) + if ok then 1 else 0
    {
      ok := receivers > 0;
      if ok {
        value, version := v, version + 1;
      }
    }

    /** A new receiver, which has seen the current version. */
    method Subscribe() returns (seen: nat)
      modifies this
      ensures State() == AddReceiver(old(State()))
      ensures receivers == old(receivers) + 1 && value == old(value) && version == old(version)
      ensures seen == old(version)
    {
      receivers := receivers + 1;
      seen := version;
    }
  }

  /** The sending side of a one-shot channel; `fires` counts how often it was used. */
  class OneShotSender {
    var fires: nat

    constructor ()
      ensures fires == 0
    {
      fires := 0;
    }

    method Fire()
      modifies this
      ensures fires == old(fires) + 1
    {
      fires := fires + 1;
    }
  }
}
