/**
 * `CameraManager`: the single camera shared by the camera analyzers (the
 * server package and the original app carry the same class). Only one
 * analyzer owns the camera at a time; `start` switches to another type by
 * stopping the current one first. The lock is dropped (every operation is
 * one sequential step), the capture thread is a flag saying whether one was
 * started, and constructing the analyzer class is an input saying what that
 * construction produced.
 */
module Cameras {
  import opened Wrappers

  /** What `analyzer_cls()` and the `is_opened()` check give `start`. */
  datatype Launch<A> =
    | Opened(analyzer: A)           // built, and the camera opened
    | NotOpened(analyzer: A)        // built, but the camera did not open
    | ConstructorRaised             // `analyzer_cls()` raised
    | OpenCheckRaised(analyzer: A)  // built and stored, then `is_opened()` raised

  /** The manager's fields; `thread` says whether a capture thread is held. */
  datatype ManagerState<A, F> = ManagerState(
    analyzer: Option<A>,
    analyzerType: Option<string>,
    frame: Option<F>,
    running: bool,
    thread: bool)

  /** `__init__`, and the state `_stop_internal` leaves. */
  function Stopped<A, F>(): ManagerState<A, F>
  {
    ManagerState(None, None, None, false, false)
  }

  /**
   * `start(analyzer_cls, analyzer_type)`: the new state and the value
   * returned. The same type while running is a no-op that reports success;
   * anything else stops the current analyzer and then tries the new one.
   */
  function StartSpec<A, F>(s: ManagerState<A, F>, t: string, launch: Launch<A>): (ManagerState<A, F>, bool)
  {
    if s.analyzerType == Some(t) && s.running then (s, true)
    else
      match launch
      case Opened(a) => (ManagerState(Some(a), Some(t), None, true, true), true)
      case NotOpened(_) => (Stopped(), false)
      case ConstructorRaised => (Stopped(), false)
      case OpenCheckRaised(a) => (Stopped().(analyzer := Some(a)), false)
  }

  /**
   * One pass of the capture loop: while running with an analyzer whose
   * camera is open, a frame that was read replaces the stored one.
   */
  function StoreSpec<A, F>(s: ManagerState<A, F>, isOpen: bool, captured: Option<F>): ManagerState<A, F>
  {
    if s.running && s.analyzer.Some? && isOpen && captured.Some? then s.(frame := captured) else s
  }

  /**
   * What every reachable state satisfies: a running manager holds an
   * analyzer, its type and a capture thread; a stopped one holds no type, no
   * thread and no frame.
   */
  ghost predicate ManagerValid<A, F>(s: ManagerState<A, F>)
  {
    && (s.running ==> s.analyzer.Some? && s.analyzerType.Some? && s.thread)
    && (!s.running ==> s.analyzerType.None? && !s.thread && s.frame.None?)
  }

  lemma StoppedIsValid<A, F>()
    ensures ManagerValid(Stopped<A, F>())
  {
  }

  /** Starting the type that is already running returns true and changes nothing, whatever the launch would give. */
  lemma SameTypeStartChangesNothing<A, F>(s: ManagerState<A, F>, t: string, launch: Launch<A>)
    requires s.running && s.analyzerType == Some(t)
    ensures StartSpec(s, t, launch) == (s, true)
  {
  }

  /**
   * Any other start succeeds exactly when the camera opened, and then runs
   * the new analyzer under the new type with no frame yet; a failure leaves
   * the manager stopped, with no analyzer unless `is_opened()` raised after
   * it was stored.
   */
  lemma StartOutcome<A, F>(s: ManagerState<A, F>, t: string, launch: Launch<A>)
    requires !(s.running && s.analyzerType == Some(t))
    ensures var (r, ok) := StartSpec(s, t, launch);
            && (ok <==> launch.Opened?)
            && (ok ==> r == ManagerState(Some(launch.analyzer), Some(t), None, true, true))
            && (!ok ==> !r.running && r.analyzerType.None? && r.frame.None? && !r.thread)
            && (!ok ==> (r.analyzer.Some? <==> launch.OpenCheckRaised?))
  {
  }

  /** After a start that returned true, the same type is running, and starting it again is a no-op. */
  lemma StartIsIdempotent<A, F>(s: ManagerState<A, F>, t: string, launch: Launch<A>, again: Launch<A>)
    requires StartSpec(s, t, launch).1
    ensures var r := StartSpec(s, t, launch).0;
            && r.running && r.analyzerType == Some(t)
            && StartSpec(r, t, again) == (r, true)
  {
  }

  /** `start` keeps the invariant. */
  lemma StartKeepsValid<A, F>(s: ManagerState<A, F>, t: string, launch: Launch<A>)
    requires ManagerValid(s)
    ensures ManagerValid(StartSpec(s, t, launch).0)
  {
  }

  /** Storing a captured frame keeps the invariant, and a stopped manager never gets a frame. */
  lemma StoreKeepsValid<A, F>(s: ManagerState<A, F>, isOpen: bool, captured: Option<F>)
    requires ManagerValid(s)
    ensures ManagerValid(StoreSpec(s, isOpen, captured))
    ensures !s.running ==> StoreSpec(s, isOpen, captured) == s
  {
  }

  class CameraManager<A, F> {
    var analyzer: Option<A>
    var analyzerType: Option<string>
    var frame: Option<F>
    var running: bool
    var thread: bool

    function State(): ManagerState<A, F>
      reads this
    {
      ManagerState(analyzer, analyzerType, frame, running, thread)
    }

    ghost predicate Valid()
      reads this
    {
      ManagerValid(State())
    }

    /** `__init__`. */
    constructor()
      ensures State() == Stopped() && Valid()
    {
      analyzer, analyzerType, frame := None, None, None;
      running, thread := false, false;
    }

    /** `start`, with the outcome of building the analyzer as `launch`. */
    method Start(launch: Launch<A>, t: string) returns (ok: bool)
      requires Valid()
      modifies this
      ensures Valid()
      ensures (State(), ok) == StartSpec(old(State()), t, launch)
    {
      StartKeepsValid(State(), t, launch);
      if analyzerType == Some(t) && running {
        return true;
      }
      StopInternal();
      if launch.ConstructorRaised? {
        return false;
      }
      analyzer := Some(launch.analyzer);
      if launch.OpenCheckRaised? {
        return false;
      }
      if launch.NotOpened? {
        analyzer := None;
        return false;
      }
      analyzerType := Some(t);
      running := true;
      thread := true;
      return true;
    }

    /** `_stop_internal`: join the thread, release the analyzer, and clear every field. */
    method StopInternal()
      modifies this
      ensures State() == Stopped() && Valid()
    {
      running := false;
      if thread {
        thread := false;
      }
      if analyzer.Some? {
        analyzer := None;
      }
      frame := None;
      analyzerType := None;
    }

    /** `stop`; calling it twice leaves the same state as calling it once. */
    method Stop()
      modifies this
      ensures State() == Stopped() && Valid()
    {
      StopInternal();
    }

    /** One pass of `_capture_loop`: `isOpen` is `is_opened()`, `captured` what `read_frame()` returned. */
    method StoreFrame(isOpen: bool, captured: Option<F>)
      requires Valid()
      modifies this
      ensures Valid()
      ensures State() == StoreSpec(old(State()), isOpen, captured)
    {
      StoreKeepsValid(State(), isOpen, captured);
      if running && analyzer.Some? && isOpen {
        if captured.Some? {
          frame := captured;
        }
      }
    }

    /** `get_frame`: the stored frame (its copy), or `None` when there is none. */
    method GetFrame() returns (r: Option<F>)
      ensures r == frame
      ensures !running && Valid() ==> r.None?
    {
      r := frame;
    }

    /** `is_running`. */
    method IsRunning() returns (r: bool)
      ensures r == running
      ensures r && Valid() ==> analyzer.Some? && analyzerType.Some?
    {
      r := running;
    }

    /** `get_analyzer_type`. */
    method GetAnalyzerType() returns (r: Option<string>)
      ensures r == analyzerType
      ensures Valid() ==> (r.Some? <==> running)
    {
      r := analyzerType;
    }
  }
}
