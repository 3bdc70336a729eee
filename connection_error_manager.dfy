/**
 The connection state machine (`ConnectionErrorManager`): the current
 connection state and error code, one state-change listener, an error log,
 and retries with exponential backoff.

 Effects the manager has on the outside world are recorded in ghost
 sequences: the calls made to the listener, the lines appended to the error
 log file, and the retry callbacks posted to the main-thread handler that
 have not run yet. A posted callback running is an explicit `FireRetry` call.
 */
module ConnectionErrors {
  import opened Optional

  datatype ConnectionState = Connected | Disconnected | Error

  datatype ErrorCode =
    | NoError
    | PermissionDenied
    | DeviceNotFound
    | ConnectionFailed
    | WriteFailed
    | ReadFailed
    | PortBusy
    | UnknownError
  {
    /** The user-facing text attached to each code. */
    function Message(): string {
      match this
      case NoError => "No error"
      case PermissionDenied => "USB permission denied"
      case DeviceNotFound => "USB device not found"
      case ConnectionFailed => "Failed to connect to device"
      case WriteFailed => "Failed to write to device"
      case ReadFailed => "Failed to read from device"
      case PortBusy => "Serial port is busy"
      case UnknownError => "Unknown error occurred"
    }
  }

  /** The messages tell the codes apart; "No error" belongs to `NoError`. */
  lemma MessageIdentifiesCode(e1: ErrorCode, e2: ErrorCode)
    ensures e1.Message() == e2.Message() ==> e1 == e2
    ensures NoError.Message() == "No error"
  {
  }

  /** The formatted wall-clock time of a log line; its format is not modelled. */
  type Timestamp = string

  /** Identity of a registered listener lambda. */
  type ListenerId = nat

  /** One invocation of the state-change listener. */
  datatype Notification = Notification(listener: ListenerId, state: ConnectionState, error: ErrorCode)

  /** One line of the error log file: "<time>: State changed from <from> to <to> with error: <error>". */
  datatype LogEntry = LogEntry(time: Timestamp, from: ConnectionState, to: ConnectionState, error: ErrorCode)

  /** A retry callback posted to the handler: the retry index it captured and its delay. */
  datatype PendingRetry = PendingRetry(index: nat, delayMs: nat)

  const MaxRetries: nat := 5
  const BaseDelayMs: nat := 1000
  const MaxDelayMs: nat := 30000

  function Pow2(n: nat): (r: nat)
    ensures r >= 1
  {
    if n == 0 then 1 else 2 * Pow2(n - 1)
  }

  lemma {:induction false} Pow2Monotone(n: nat, m: nat)
    requires n <= m
    ensures Pow2(n) <= Pow2(m)
  {
    if n < m {
      Pow2Monotone(n, m - 1);
    }
  }

  /**
   The backoff delay for retry index n: 1000 ms doubled n times, capped at
   30000 ms. The integer power is exact where the source's floating-point
   `2.0.pow(n)` is exact, and beyond that both give the cap.
   */
  function BackoffDelay(n: nat): (d: nat)
    ensures BaseDelayMs <= d <= MaxDelayMs
    ensures d <= BaseDelayMs * Pow2(n)
    ensures d == MaxDelayMs || d == BaseDelayMs * Pow2(n)
  {
    var exponential := BaseDelayMs * Pow2(n);
    if exponential < MaxDelayMs then exponential else MaxDelayMs
  }

  /** Each further retry waits twice as long as the one before, up to the cap. */
  lemma BackoffDoubles(n: nat)
    ensures BackoffDelay(n + 1) == if 2 * BackoffDelay(n) < MaxDelayMs then 2 * BackoffDelay(n) else MaxDelayMs
  {
  }

  /** Delays never shrink as the retry index grows. */
  lemma BackoffMonotone(n: nat, m: nat)
    requires n <= m
    ensures BackoffDelay(n) <= BackoffDelay(m)
  {
    Pow2Monotone(n, m);
  }

  /**
   The indices that can actually be scheduled (below the retry limit) give
   the uncapped delays 1000, 2000, 4000, 8000 and 16000 ms.
   */
  lemma ScheduledDelays(n: nat)
    requires n < MaxRetries
    ensures BackoffDelay(n) == BaseDelayMs * Pow2(n)
    ensures BackoffDelay(n) in {1000, 2000, 4000, 8000, 16000}
  {
    assert Pow2(1) == 2 && Pow2(2) == 4 && Pow2(3) == 8 && Pow2(4) == 16;
  }

  /** From index 5 on, the formula would give the cap. */
  lemma BackoffCapped(n: nat)
    requires n >= MaxRetries
    ensures BackoffDelay(n) == MaxDelayMs
  {
    assert Pow2(5) == 32;
    Pow2Monotone(5, n);
  }

  class ConnectionErrorManager {
    /** `currentState`. */
    var state: ConnectionState
    /** `currentError`. */
    var error: ErrorCode
    /** `retryCount`: retries scheduled since the counter was last reset. */
    var retryCount: nat
    /** `stateChangeListener`, null until one is registered. */
    var listener: Option<ListenerId>

    /** Every listener invocation, in order. */
    ghost var listenerCalls: seq<Notification>
    /** Every line appended to the error log file, in order. */
    ghost var errorLog: seq<LogEntry>
    /** Retry callbacks posted to the handler that have not run yet. */
    ghost var pending: seq<PendingRetry>

    /**
     The retry counter never passes the limit, and every posted retry carries
     an index below the limit together with that index's backoff delay.
     */
    ghost predicate Valid()
      reads this
    {
      && retryCount <= MaxRetries
      && forall k :: 0 <= k < |pending| ==>
           pending[k].index < MaxRetries && pending[k].delayMs == BackoffDelay(pending[k].index)
    }

    /** Every posted retry waits 1000, 2000, 4000, 8000 or 16000 ms, never more than the cap. */
    lemma PendingDelays()
      requires Valid()
      ensures forall k :: 0 <= k < |pending| ==>
        pending[k].delayMs in {1000, 2000, 4000, 8000, 16000} && pending[k].delayMs <= MaxDelayMs
    {
      forall k | 0 <= k < |pending|
        ensures pending[k].delayMs in {1000, 2000, 4000, 8000, 16000}
      {
        ScheduledDelays(pending[k].index);
      }
    }

    constructor ()
      ensures Valid()
      ensures state == Disconnected && error == NoError && retryCount == 0
      ensures listener == None
      ensures listenerCalls == [] && errorLog == [] && pending == []
    {
      state, error := Disconnected, NoError;
      retryCount := 0;
      listener := None;
      listenerCalls, errorLog, pending := [], [], [];
    }

    /** `getState`: the state of the last accepted transition. */
    method GetState() returns (s: ConnectionState)
      ensures s == state
    {
      s := state;
    }

    /** `getError`: the error code of the last accepted transition. */
    method GetError() returns (e: ErrorCode)
      ensures e == error
    {
      e := error;
    }

    /** `setStateChangeListener`: replaces any previously registered listener. */
    method SetStateChangeListener(l: ListenerId)
      requires Valid()
      modifies this`listener
      ensures Valid()
      ensures listener == Some(l)
    {
      listener := Some(l);
    }

    /**
     `setState`. A pair equal to the current one is ignored. Otherwise the
     pair is recorded, an `Error` transition is appended to the error log,
     the listener (if any) is called with the pair, and then an `Error`
     transition schedules a retry while fewer than five are counted, while
     any other transition resets the retry counter. Callbacks already posted
     stay posted.
     */
    method SetState(s: ConnectionState, e: ErrorCode, time: Timestamp)
      requires Valid()
      modifies this
      ensures Valid()
      ensures listener == old(listener)
      ensures s == old(state) && e == old(error) ==>
        && state == old(state) && error == old(error) && retryCount == old(retryCount)
        && listenerCalls == old(listenerCalls) && errorLog == old(errorLog) && pending == old(pending)
      ensures !(s == old(state) && e == old(error)) ==>
        && state == s && error == e
        && listenerCalls == old(listenerCalls) + (if listener.Some? then [Notification(listener.value, s, e)] else [])
        && errorLog == old(errorLog) + (if s == Error then [LogEntry(time, old(state), s, e)] else [])
        && (s == Error && old(retryCount) < MaxRetries ==>
              retryCount == old(retryCount) + 1 &&
              pending == old(pending) + [PendingRetry(old(retryCount), BackoffDelay(old(retryCount)))])
        && (s == Error && old(retryCount) >= MaxRetries ==>
              retryCount == old(retryCount) && pending == old(pending))
        && (s != Error ==> retryCount == 0 && pending == old(pending))
    {
      if state == s && error == e {
        return;
      }
      var oldState := state;
      state := s;
      error := e;
      if s == Error {
        errorLog := errorLog + [LogEntry(time, oldState, s, e)];
      }
      if listener.Some? {
        listenerCalls := listenerCalls + [Notification(listener.value, s, e)];
      }
      if s == Error && retryCount < MaxRetries {
        ScheduleRetry();
      } else if s != Error {
        retryCount := 0;
      }
    }

    /**
     `scheduleRetry`: takes the current count as the retry index and
     increments the counter; an index below the limit posts one callback with
     that index's backoff delay, an index at or over the limit posts nothing.
     */
    method ScheduleRetry()
      modifies this`retryCount, this`pending
      ensures retryCount == old(retryCount) + 1
      ensures old(retryCount) >= MaxRetries ==> pending == old(pending)
      ensures old(retryCount) < MaxRetries ==>
        pending == old(pending) + [PendingRetry(old(retryCount), BackoffDelay(old(retryCount)))]
    {
      var currentRetryCount := retryCount;
      retryCount := retryCount + 1;
      if currentRetryCount >= MaxRetries {
        return;
      }
      var delayMs := BackoffDelay(currentRetryCount);
      pending := pending + [PendingRetry(currentRetryCount, delayMs)];
    }

    /**
     `attemptReconnection`, with the outcome of `tryReconnect` as a
     parameter. Success is a transition to `Connected` with no error; failure
     schedules another retry while fewer than five are counted and otherwise
     leaves everything as it is. Its one caller, the posted retry callback,
     runs it only when the state is not `Connected`.
     */
    method AttemptReconnection(reconnectOk: bool, time: Timestamp)
      requires Valid() && state != Connected
      modifies this
      ensures Valid()
      ensures listener == old(listener) && errorLog == old(errorLog)
      ensures reconnectOk ==>
        && state == Connected && error == NoError && retryCount == 0 && pending == old(pending)
        && listenerCalls == old(listenerCalls) + (if listener.Some? then [Notification(listener.value, Connected, NoError)] else [])
      ensures !reconnectOk ==>
        && state == old(state) && error == old(error) && listenerCalls == old(listenerCalls)
        && (old(retryCount) < MaxRetries ==>
              retryCount == old(retryCount) + 1 &&
              pending == old(pending) + [PendingRetry(old(retryCount), BackoffDelay(old(retryCount)))])
        && (old(retryCount) >= MaxRetries ==> retryCount == old(retryCount) && pending == old(pending))
    {
      if reconnectOk {
        SetState(Connected, NoError, time);
      } else if retryCount < MaxRetries {
        ScheduleRetry();
      }
    }

    /**
     The posted retry callback `pending[k]` runs: it leaves the handler's
     queue, does nothing more when the state is `Connected`, and otherwise
     attempts a reconnection (`reconnectOk` stands for the result of
     `tryReconnect`, which as written always fails).
     */
    method FireRetry(k: nat, reconnectOk: bool, time: Timestamp)
      requires Valid() && k < |pending|
      modifies this
      ensures Valid()
      ensures listener == old(listener) && errorLog == old(errorLog)
      ensures old(state) == Connected ==>
        && state == old(state) && error == old(error) && retryCount == old(retryCount)
        && listenerCalls == old(listenerCalls)
        && pending == old(pending[..k] + pending[k + 1..])
      ensures old(state) != Connected && reconnectOk ==>
        && state == Connected && error == NoError && retryCount == 0
        && listenerCalls == old(listenerCalls) + (if listener.Some? then [Notification(listener.value, Connected, NoError)] else [])
        && pending == old(pending[..k] + pending[k + 1..])
      ensures old(state) != Connected && !reconnectOk ==>
        && state == old(state) && error == old(error) && listenerCalls == old(listenerCalls)
        && (old(retryCount) < MaxRetries ==>
              retryCount == old(retryCount) + 1 &&
              pending == old(pending[..k] + pending[k + 1..]) + [PendingRetry(old(retryCount), BackoffDelay(old(retryCount)))])
        && (old(retryCount) >= MaxRetries ==>
              retryCount == old(retryCount) && pending == old(pending[..k] + pending[k + 1..]))
    {
      pending := pending[..k] + pending[k + 1..];
      if state == Connected {
        return;
      }
      AttemptReconnection(reconnectOk, time);
    }

    /**
     `cancelRetries`: resets the retry counter only. Callbacks already posted
     are not removed, and state and error are untouched.
     */
    method CancelRetries()
      requires Valid()
      modifies this`retryCount
      ensures Valid()
      ensures retryCount == 0
    {
      retryCount := 0;
    }
  }
}
