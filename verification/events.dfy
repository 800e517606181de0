/**
 * The host-event handlers of Manager.Events.cs. Each handler takes one
 * snapshot of the live plugin instances and calls the matching capability
 * on each of them in order; the whole loop sits inside a single try/catch,
 * so the first instance that throws ends the delivery and the exception is
 * logged, never passed on to the caller.
 *
 * Whether a call throws is outside the model: `throws(instance, call)` says
 * it for every instance and call.
 */
module Events {
  import opened Registry

  /* The payload structs, opaque here: they are only passed through. */
  datatype ExceptionEventInfo = ExceptionEventInfo(contents: seq<int>)
  datatype ThreadCreateEventInfo = ThreadCreateEventInfo(contents: seq<int>)
  datatype ThreadExitEventInfo = ThreadExitEventInfo(contents: seq<int>)
  datatype ProcessCreateEventInfo = ProcessCreateEventInfo(contents: seq<int>)
  datatype ProcessExitEventInfo = ProcessExitEventInfo(contents: seq<int>)
  datatype BreakpointEventInfo = BreakpointEventInfo(contents: seq<int>)

  /** One call of an IPlugin capability, with its argument. */
  datatype Call =
    | ExceptionEvent(exception: ExceptionEventInfo)
    | ThreadCreateEvent(threadCreate: ThreadCreateEventInfo)
    | ProcessCreateEvent(processCreate: ProcessCreateEventInfo)
    | ThreadExitEvent(threadExit: ThreadExitEventInfo)
    | ProcessExitEvent(processExit: ProcessExitEventInfo)
    | BreakpointEvent(breakpoint: BreakpointEventInfo)
    | SteppedEvent
    | DebuggerStart(fileName: string)
    | DebuggerStop

  /** `call` was made on `target`. */
  datatype Delivery = Delivery(target: Instance, call: Call)

  /** How a handler ended: the loop ran out, or the catch block logged the exception of the instance at `failedAt`. */
  datatype DispatchEnd = Completed | Caught(failedAt: nat)

  datatype Fanout = Fanout(log: seq<Delivery>, end: DispatchEnd)

  /**
   * List.ForEach over the snapshot with the exception escaping it: the calls
   * made, and where the first exception came from.
   */
  function ForEach(snapshot: seq<Instance>, call: Call, throws: (Instance, Call) -> bool): Fanout
    decreases |snapshot|
  {
    if snapshot == [] then Fanout([], Completed)
    else if throws(snapshot[0], call) then Fanout([Delivery(snapshot[0], call)], Caught(0))
    else
      var rest := ForEach(snapshot[1..], call, throws);
      Fanout([Delivery(snapshot[0], call)] + rest.log,
             match rest.end
             case Completed => Completed
             case Caught(k) => Caught(k + 1))
  }

  /** `log` holds the call on each of the first `n` snapshot entries, in snapshot order. */
  predicate DeliveredInOrder(log: seq<Delivery>, snapshot: seq<Instance>, call: Call, n: nat) {
    && n <= |snapshot|
    && |log| == n
    && forall i :: 0 <= i < n ==> log[i] == Delivery(snapshot[i], call)
  }

  /** If no instance throws, every instance receives the call once, in snapshot order. */
  lemma {:induction false} ForEachAllDelivered(snapshot: seq<Instance>, call: Call, throws: (Instance, Call) -> bool)
    requires forall i :: 0 <= i < |snapshot| ==> !throws(snapshot[i], call)
    ensures ForEach(snapshot, call, throws).end == Completed
    ensures DeliveredInOrder(ForEach(snapshot, call, throws).log, snapshot, call, |snapshot|)
  {
    if snapshot != [] {
      ForEachAllDelivered(snapshot[1..], call, throws);
    }
  }

  /**
   * If the instance at `k` is the first to throw, the instances before it
   * and the one at `k` were called once each, none after it was, and the
   * exception at `k` is the one caught.
   */
  lemma {:induction false} ForEachStopsAtFirstThrow(snapshot: seq<Instance>, call: Call, throws: (Instance, Call) -> bool, k: nat)
    requires k < |snapshot| && throws(snapshot[k], call)
    requires forall i :: 0 <= i < k ==> !throws(snapshot[i], call)
    ensures ForEach(snapshot, call, throws).end == Caught(k)
    ensures DeliveredInOrder(ForEach(snapshot, call, throws).log, snapshot, call, k + 1)
  {
    if k > 0 {
      ForEachStopsAtFirstThrow(snapshot[1..], call, throws, k - 1);
    }
  }

  /** The loop completes exactly when no instance throws. */
  lemma {:induction false} ForEachCompletesIffNoThrow(snapshot: seq<Instance>, call: Call, throws: (Instance, Call) -> bool)
    ensures ForEach(snapshot, call, throws).end == Completed
            <==> forall i :: 0 <= i < |snapshot| ==> !throws(snapshot[i], call)
  {
    if snapshot != [] && !throws(snapshot[0], call) {
      ForEachCompletesIffNoThrow(snapshot[1..], call, throws);
      if forall i :: 0 <= i < |snapshot[1..]| ==> !throws(snapshot[1..][i], call) {
        assert forall i :: 0 <= i < |snapshot| ==> !throws(snapshot[i], call) by {
          forall i | 0 <= i < |snapshot| ensures !throws(snapshot[i], call) {
            if i > 0 { assert snapshot[i] == snapshot[1..][i - 1]; }
          }
        }
      } else {
        var j :| 0 <= j < |snapshot[1..]| && throws(snapshot[1..][j], call);
        assert throws(snapshot[j + 1], call);
      }
    }
  }

  /** Every call made is the handler's own capability with the handler's argument. */
  lemma {:induction false} ForEachOnlyThisCall(snapshot: seq<Instance>, call: Call, throws: (Instance, Call) -> bool)
    ensures forall d :: d in ForEach(snapshot, call, throws).log ==> d.call == call
  {
    if snapshot != [] && !throws(snapshot[0], call) {
      ForEachOnlyThisCall(snapshot[1..], call, throws);
    }
  }

  /**
   * Three live instances where the second throws: the first and second are
   * called, the third never is.
   */
  lemma SecondOfThreeThrows(call: Call)
    ensures var a, b, c := Instance(1, true), Instance(2, true), Instance(3, true);
      var r := ForEach([a, b, c], call, (x: Instance, _: Call) => x == b);
      && r == Fanout([Delivery(a, call), Delivery(b, call)], Caught(1))
      && (forall d :: d in r.log ==> d.target != c)
  {
  }

  /**
   * The body every handler shares: `try { snapshot.ForEach(...) } catch { log }`.
   * It always returns normally.
   */
  method Dispatch(snapshot: seq<Instance>, call: Call, throws: (Instance, Call) -> bool)
    returns (log: seq<Delivery>, end: DispatchEnd)
    ensures Fanout(log, end) == ForEach(snapshot, call, throws)
  {
    log := [];
    var i := 0;
    while i < |snapshot|
      invariant 0 <= i <= |snapshot|
      invariant DeliveredInOrder(log, snapshot, call, i)
      invariant forall j :: 0 <= j < i ==> !throws(snapshot[j], call)
    {
      log := log + [Delivery(snapshot[i], call)];
      if throws(snapshot[i], call) {
        ForEachStopsAtFirstThrow(snapshot, call, throws, i);
        return log, Caught(i);
      }
      i := i + 1;
    }
    ForEachAllDelivered(snapshot, call, throws);
    end := Completed;
  }

  /** Manager.OnExceptionEvent. */
  method OnExceptionEvent(plugins: Plugins, ev: ExceptionEventInfo, throws: (Instance, Call) -> bool)
    returns (log: seq<Delivery>, end: DispatchEnd)
    ensures Fanout(log, end) == ForEach(plugins.GetPluginInstances(), ExceptionEvent(ev), throws)
    ensures forall d :: d in log ==> d.call == ExceptionEvent(ev)
  {
    var snapshot := plugins.GetPluginInstances();
    log, end := Dispatch(snapshot, ExceptionEvent(ev), throws);
    ForEachOnlyThisCall(snapshot, ExceptionEvent(ev), throws);
  }

  /** Manager.OnThreadCreateEvent. */
  method OnThreadCreateEvent(plugins: Plugins, ev: ThreadCreateEventInfo, throws: (Instance, Call) -> bool)
    returns (log: seq<Delivery>, end: DispatchEnd)
    ensures Fanout(log, end) == ForEach(plugins.GetPluginInstances(), ThreadCreateEvent(ev), throws)
    ensures forall d :: d in log ==> d.call == ThreadCreateEvent(ev)
  {
    var snapshot := plugins.GetPluginInstances();
    log, end := Dispatch(snapshot, ThreadCreateEvent(ev), throws);
    ForEachOnlyThisCall(snapshot, ThreadCreateEvent(ev), throws);
  }

  /** Manager.OnProcessCreateEvent. */
  method OnProcessCreateEvent(plugins: Plugins, ev: ProcessCreateEventInfo, throws: (Instance, Call) -> bool)
    returns (log: seq<Delivery>, end: DispatchEnd)
    ensures Fanout(log, end) == ForEach(plugins.GetPluginInstances(), ProcessCreateEvent(ev), throws)
    ensures forall d :: d in log ==> d.call == ProcessCreateEvent(ev)
  {
    var snapshot := plugins.GetPluginInstances();
    log, end := Dispatch(snapshot, ProcessCreateEvent(ev), throws);
    ForEachOnlyThisCall(snapshot, ProcessCreateEvent(ev), throws);
  }

  /** Manager.OnThreadExitEvent. */
  method OnThreadExitEvent(plugins: Plugins, ev: ThreadExitEventInfo, throws: (Instance, Call) -> bool)
    returns (log: seq<Delivery>, end: DispatchEnd)
    ensures Fanout(log, end) == ForEach(plugins.GetPluginInstances(), ThreadExitEvent(ev), throws)
    ensures forall d :: d in log ==> d.call == ThreadExitEvent(ev)
  {
    var snapshot := plugins.GetPluginInstances();
    log, end := Dispatch(snapshot, ThreadExitEvent(ev), throws);
    ForEachOnlyThisCall(snapshot, ThreadExitEvent(ev), throws);
  }

  /** Manager.OnProcessExitEvent. */
  method OnProcessExitEvent(plugins: Plugins, ev: ProcessExitEventInfo, throws: (Instance, Call) -> bool)
    returns (log: seq<Delivery>, end: DispatchEnd)
    ensures Fanout(log, end) == ForEach(plugins.GetPluginInstances(), ProcessExitEvent(ev), throws)
    ensures forall d :: d in log ==> d.call == ProcessExitEvent(ev)
  {
    var snapshot := plugins.GetPluginInstances();
    log, end := Dispatch(snapshot, ProcessExitEvent(ev), throws);
    ForEachOnlyThisCall(snapshot, ProcessExitEvent(ev), throws);
  }

  /** Manager.OnBreakpointEvent. */
  method OnBreakpointEvent(plugins: Plugins, ev: BreakpointEventInfo, throws: (Instance, Call) -> bool)
    returns (log: seq<Delivery>, end: DispatchEnd)
    ensures Fanout(log, end) == ForEach(plugins.GetPluginInstances(), BreakpointEvent(ev), throws)
    ensures forall d :: d in log ==> d.call == BreakpointEvent(ev)
  {
    var snapshot := plugins.GetPluginInstances();
    log, end := Dispatch(snapshot, BreakpointEvent(ev), throws);
    ForEachOnlyThisCall(snapshot, BreakpointEvent(ev), throws);
  }

  /** Manager.OnSteppedEvent. */
  method OnSteppedEvent(plugins: Plugins, throws: (Instance, Call) -> bool)
    returns (log: seq<Delivery>, end: DispatchEnd)
    ensures Fanout(log, end) == ForEach(plugins.GetPluginInstances(), SteppedEvent, throws)
    ensures forall d :: d in log ==> d.call == SteppedEvent
  {
    var snapshot := plugins.GetPluginInstances();
    log, end := Dispatch(snapshot, SteppedEvent, throws);
    ForEachOnlyThisCall(snapshot, SteppedEvent, throws);
  }

  /** Manager.OnDebuggerStart. */
  method OnDebuggerStart(plugins: Plugins, fileName: string, throws: (Instance, Call) -> bool)
    returns (log: seq<Delivery>, end: DispatchEnd)
    ensures Fanout(log, end) == ForEach(plugins.GetPluginInstances(), DebuggerStart(fileName), throws)
    ensures forall d :: d in log ==> d.call == DebuggerStart(fileName)
  {
    var snapshot := plugins.GetPluginInstances();
    log, end := Dispatch(snapshot, DebuggerStart(fileName), throws);
    ForEachOnlyThisCall(snapshot, DebuggerStart(fileName), throws);
  }

  /** Manager.OnDebuggerStop. */
  method OnDebuggerStop(plugins: Plugins, throws: (Instance, Call) -> bool)
    returns (log: seq<Delivery>, end: DispatchEnd)
    ensures Fanout(log, end) == ForEach(plugins.GetPluginInstances(), DebuggerStop, throws)
    ensures forall d :: d in log ==> d.call == DebuggerStop
  {
    var snapshot := plugins.GetPluginInstances();
    log, end := Dispatch(snapshot, DebuggerStop, throws);
    ForEachOnlyThisCall(snapshot, DebuggerStop, throws);
  }
}
