/**
 Client scenarios: the unit tests testInitialState, testMultipleStateChanges,
 testTriggerSequenceWrapsAt256 and the USB detection tests, and the retry
 sequence after an `Error` transition, replayed against the class contracts
 alone.
 */
module Scenarios {
  import opened Optional
  import opened ConnectionErrors
  import opened Triggers
  import UsbDetection

  /** A fresh manager is disconnected with no error (ConnectionErrorManagerTest.testInitialState). */
  method InitialState() {
    var m := new ConnectionErrorManager();
    var s := m.GetState();
    var e := m.GetError();
    assert s == Disconnected && e == NoError;
  }

  /**
   Four distinct transitions reach the listener in the order they were made
   (ConnectionErrorManagerTest.testMultipleStateChanges); only the `Error`
   transition reaches the error log.
   */
  method MultipleStateChanges(t1: Timestamp, t2: Timestamp, t3: Timestamp, t4: Timestamp) {
    var m := new ConnectionErrorManager();
    m.SetStateChangeListener(7);
    m.SetState(Connected, NoError, t1);
    m.SetState(Error, WriteFailed, t2);
    m.SetState(Disconnected, NoError, t3);
    m.SetState(Connected, NoError, t4);
    assert m.listenerCalls == [
      Notification(7, Connected, NoError),
      Notification(7, Error, WriteFailed),
      Notification(7, Disconnected, NoError),
      Notification(7, Connected, NoError)];
    assert m.errorLog == [LogEntry(t2, Connected, Error, WriteFailed)];
    assert m.retryCount == 0;
  }

  /** Repeating the current pair is ignored: no second notification, log line or retry. */
  method RedundantUpdateIgnored(t1: Timestamp, t2: Timestamp) {
    var m := new ConnectionErrorManager();
    m.SetStateChangeListener(1);
    m.SetState(Error, PortBusy, t1);
    m.SetState(Error, PortBusy, t2);
    assert |m.listenerCalls| == 1 && |m.errorLog| == 1 && |m.pending| == 1 && m.retryCount == 1;
  }

  /**
   `Error`/`PortBusy` posts one retry after 1000 ms; when it runs and the
   reconnection fails, a second retry is posted after 2000 ms and the counter
   is 2. Further failures post 4000, 8000 and 16000 ms.
   */
  method RetriesBackOff(t: Timestamp) {
    var m := new ConnectionErrorManager();
    m.SetState(Error, PortBusy, t);
    ScheduledDelays(0);
    assert m.state == Error && m.error == PortBusy;
    assert m.pending == [PendingRetry(0, 1000)] && m.retryCount == 1;
    m.FireRetry(0, false, t);
    ScheduledDelays(1);
    assert m.pending == [PendingRetry(1, 2000)] && m.retryCount == 2;
    m.FireRetry(0, false, t);
    ScheduledDelays(2);
    assert m.pending == [PendingRetry(2, 4000)] && m.retryCount == 3;
    m.FireRetry(0, false, t);
    ScheduledDelays(3);
    assert m.pending == [PendingRetry(3, 8000)] && m.retryCount == 4;
    m.FireRetry(0, false, t);
    ScheduledDelays(4);
    assert m.pending == [PendingRetry(4, 16000)] && m.retryCount == 5;
    assert m.state == Error && m.error == PortBusy;
    RetriesExhausted(m, t);
  }

  /**
   The fifth failed retry posts nothing and the manager stays in `Error`.
   A further `Error` transition schedules nothing either, until the counter
   is reset.
   */
  method RetriesExhausted(m: ConnectionErrorManager, t: Timestamp)
    requires m.Valid() && m.state == Error && m.error == PortBusy
    requires m.pending == [PendingRetry(4, 16000)] && m.retryCount == 5
    modifies m
  {
    m.FireRetry(0, false, t);
    assert m.pending == [] && m.retryCount == 5;
    assert m.state == Error && m.error == PortBusy;
    m.SetState(Error, WriteFailed, t);
    assert m.pending == [] && m.retryCount == 5;
    m.CancelRetries();
    m.SetState(Error, PortBusy, t);
    ScheduledDelays(0);
    assert m.pending == [PendingRetry(0, 1000)] && m.retryCount == 1;
  }

  /** Once connected again, a retry that was already posted does nothing when it runs. */
  method RetryAfterRecoveryIsNoOp(t: Timestamp) {
    var m := new ConnectionErrorManager();
    m.SetStateChangeListener(3);
    m.SetState(Error, WriteFailed, t);
    m.SetState(Connected, NoError, t);
    assert m.retryCount == 0 && |m.pending| == 1;
    var calls := m.listenerCalls;
    m.FireRetry(0, true, t);
    assert m.pending == [] && m.listenerCalls == calls && m.state == Connected;
  }

  /**
   Moving to `Disconnected` does not withdraw a posted retry: when it runs,
   the failed reconnection posts another one.
   */
  method RetryContinuesWhileDisconnected(t: Timestamp) {
    var m := new ConnectionErrorManager();
    m.SetState(Error, WriteFailed, t);
    m.SetState(Disconnected, NoError, t);
    m.FireRetry(0, false, t);
    ScheduledDelays(0);
    assert m.state == Disconnected && m.pending == [PendingRetry(0, 1000)] && m.retryCount == 1;
  }

  /**
   300 direct ticks report 1..256 and then 1, 2, 3
   (TriggerGeneratorTest.testTriggerSequenceWrapsAt256).
   */
  method TriggerSequenceWrapsAt256() {
    var g := new TriggerGenerator();
    for i := 0 to 300
      invariant g.Valid() && g.cycleStart == 0 && |g.emitted| == i
    {
      g.Tick(false);
    }
    assert forall i :: 0 <= i < 256 ==> g.emitted[i] == i + 1;
    assert g.emitted[256] == 1 && g.emitted[257] == 2 && g.emitted[258] == 3;
  }

  /** Stopping and restarting continues the cycle with no skip or repeat. */
  method StopThenStartContinues() {
    var g := new TriggerGenerator();
    g.Start();
    g.Tick(false);
    g.Tick(false);
    g.Stop();
    g.Start();
    g.Tick(false);
    assert g.emitted == [1, 2, 3];
    assert g.registrations == 2 && g.running;
  }

  /** A throwing listener is reported once and stops the generator; `start` can follow. */
  method ListenerThrowsStops() {
    var g := new TriggerGenerator();
    g.Start();
    g.Tick(true);
    assert !g.running && g.errorReports == 1 && g.counter == 1;
    var v := g.GetCurrentTriggerValue();
    assert v == 1;
    g.Start();
    assert g.running;
    g.Reset();
    v := g.GetCurrentTriggerValue();
    assert v == 256;
    g.Tick(false);
    assert g.emitted[|g.emitted| - 1] == 1;
    g.Shutdown();
    assert !g.running && g.shutDown;
  }

  /**
   No devices give null; two supported adapters and one unknown device give
   the first supported one; an unknown device alone gives null
   (UsbDetectionTest).
   */
  method MultipleDevicesPresent() {
    UsbDetection.NoDevicesConnected();
    var devices := [0x0403, 0x10C4, 0x1234];
    var r := UsbDetection.FindSupportedDevice(devices);
    UsbDetection.SelectsFirstSupported(devices, 0);
    assert r == Some(0);
    r := UsbDetection.FindSupportedDevice([0x1234]);
    assert !UsbDetection.Supported(0x1234);
    assert r == None;
  }
}
