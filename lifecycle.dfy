/**
  The start/stop toggle of `MainWindow` around the listener: the field that
  holds the open input port (`port`, `None` while idle), the stop flag that
  the listener polls (`stop_event`) and the listener thread, reduced to a
  flag that is set when the thread starts and cleared when it has been joined.
 */
module Lifecycle {

  /** A change of state of the controller: listening began, or it ended. */
  datatype Transition = Started | Stopped

  /** What a press of the start/stop control did. */
  datatype ToggleResult = Toggled(transition: Transition) | DeviceOpenError

  /** Starts and stops alternate, beginning with a start. */
  ghost predicate Alternating(log: seq<Transition>)
  {
    forall i | 0 <= i < |log| :: log[i] == if i % 2 == 0 then Started else Stopped
  }

  /** No two consecutive entries of an alternating log are the same transition. */
  lemma AlternatingHasNoRepeat(log: seq<Transition>)
    requires Alternating(log)
    ensures forall i | 0 <= i < |log| - 1 :: log[i] != log[i + 1]
  {
    forall i | 0 <= i < |log| - 1
      ensures log[i] != log[i + 1]
    {
      assert log[i] == if i % 2 == 0 then Started else Stopped;
      assert log[i + 1] == if (i + 1) % 2 == 0 then Started else Stopped;
    }
  }

  /** An open MIDI input; only whether it has been closed matters here. */
  class InputPort {
    const device: string
    var closed: bool

    /** `mido.open_input(device)` when the device can be opened. */
    constructor Open(device: string)
      ensures this.device == device && !closed
    {
      this.device := device;
      closed := false;
    }

    /** `port.close()`: any further read of the port fails. */
    method Close()
      modifies this
      ensures closed
    {
      closed := true;
    }
  }

  class Controller {
    /** The open input while listening, `null` while idle. */
    var port: InputPort?
    /** Whether the stop flag the listener polls is set. */
    var stopEvent: bool
    /** Whether a listener thread has been started and not yet joined. */
    var workerRunning: bool
    /** Every start and stop so far, oldest first. */
    ghost var history: seq<Transition>

    /**
      Listening means an open port, a clear stop flag and a running listener;
      idle means no port and no listener; and starts and stops alternate.
     */
    ghost predicate Valid()
      reads this, port
    {
      && Alternating(history)
      && (port != null <==> |history| % 2 == 1)
      && (port != null ==> !port.closed && !stopEvent && workerRunning)
      && (port == null ==> !workerRunning)
    }

    predicate Listening()
      reads this
    {
      port != null
    }

    /** The state after `__init__`: idle, stop flag clear. */
    constructor ()
      ensures Valid() && !Listening()
      ensures !stopEvent && !workerRunning && history == []
    {
      port := null;
      stopEvent := false;
      workerRunning := false;
      history := [];
    }

    /**
      `toggle_midi_listen`. While idle it opens `device` (the open fails when
      `deviceAvailable` is false, and then nothing changes), clears the stop
      flag and starts the listener. While listening it runs the stop sequence.
     */
    method Toggle(device: string, deviceAvailable: bool) returns (result: ToggleResult)
      requires Valid()
      modifies this, port
      ensures Valid()
      ensures old(port) == null && deviceAvailable ==>
        && result == Toggled(Started)
        && port != null && fresh(port) && port.device == device
        && !stopEvent && workerRunning
        && history == old(history) + [Started]
      ensures old(port) == null && !deviceAvailable ==>
        && result == DeviceOpenError
        && port == null && stopEvent == old(stopEvent) && workerRunning == old(workerRunning)
        && history == old(history)
      ensures old(port) != null ==>
        && result == Toggled(Stopped)
        && port == null && old(port).closed
        && stopEvent && !workerRunning
        && history == old(history) + [Stopped]
    {
      if port == null {
        if !deviceAvailable {
          result := DeviceOpenError;
          return;
        }
        port := new InputPort.Open(device);
        stopEvent := false;
        workerRunning := true;
        history := history + [Started];
        result := Toggled(Started);
      } else {
        StopListening();
        result := Toggled(Stopped);
      }
    }

    /**
      `closeEvent`: nothing to do while idle; while listening, the same stop
      sequence as the toggle.
     */
    method CloseEvent()
      requires Valid()
      modifies this, port
      ensures Valid() && !Listening() && !workerRunning
      ensures old(port) == null ==> unchanged(this)
      ensures old(port) != null ==> old(port).closed && stopEvent && history == old(history) + [Stopped]
    {
      if port != null {
        StopListening();
      }
    }

    /**
      The stop sequence: close the port, forget it, set the stop flag and
      wait for the listener to finish.
     */
    method StopListening()
      requires Valid() && Listening()
      modifies this, port
      ensures Valid() && !Listening()
      ensures old(port).closed && stopEvent && !workerRunning
      ensures history == old(history) + [Stopped]
    {
      port.Close();
      port := null;
      stopEvent := true;
      workerRunning := false;
      history := history + [Stopped];
    }
  }

  /**
    From idle, a successful start followed by a second toggle returns to
    idle with the stop flag set, and the port the start opened is closed.
   */
  method ToggleTwiceReturnsToIdle(c: Controller, device: string) returns (first: InputPort)
    requires c.Valid() && !c.Listening()
    modifies c
    ensures c.Valid() && !c.Listening() && c.stopEvent && !c.workerRunning
    ensures fresh(first) && first.device == device && first.closed
    ensures c.history == old(c.history) + [Started, Stopped]
  {
    var started := c.Toggle(device, true);
    assert started == Toggled(Started);
    first := c.port;
    var stopped := c.Toggle(device, true);
    assert stopped == Toggled(Stopped);
  }
}
