/** Starting and stopping the process as an interleaved system: the main goroutine
    registers workers, waits for them under deadlines and closes the store last. */
module Shutdown {
  /** Every worker counted by the lifecycle manager. Watch waits for the usage recorder
      and has no channel of its own that anybody waits for. */
  datatype Worker = Retry | Watch | Prune | Recompute | Reconcile | Probe

  /** Where the main goroutine is, named by the step it takes next; `joined` is its
      record of whether every wait so far ended before its deadline. */
  datatype Pc =
    | Register(w: Worker)
    | Launch(w: Worker)
    | Boot
    | Listen
    | Serve
    | WaitFor(w: Worker, joined: bool)
    | DrainHttp(joined: bool)
    | WaitRetry(joined: bool)
    | CloseQueue(joined: bool)
    | DrainUsage(joined: bool)
    | AbortJoin(joined: bool)
    | FullJoin(joined: bool)
    | Barrier(joined: bool)
    | MarkJoined
    | Verify(joined: bool)
    | CloseStore
    | Returned

  /** `registered` and `launched` count workers in the order of the program; `counter`
      and `flag` are the manager's two atomics; `closed` are the workers whose done
      channel is closed. */
  datatype State = State(
    pc: Pc,
    registered: nat,
    launched: nat,
    exited: set<Worker>,
    closed: set<Worker>,
    counter: int,
    flag: bool,
    queueClosed: bool,
    recorderDone: bool,
    storeClosed: bool)

  /** Workers are registered in this order. */
  function Order(w: Worker): nat {
    match w
    case Retry => 0
    case Watch => 1
    case Prune => 2
    case Recompute => 3
    case Reconcile => 4
    case Probe => 5
  }

  /** A worker may leave at any time; the deferred calls run the counter first and the
      channel second. `good` is the luck of a main step: a start that succeeds, a wait
      that ends before its deadline. */
  datatype Step =
    | Exit(w: Worker)
    | CloseDone(w: Worker)
    | RecorderStops
    | Main(good: bool)

  const Init := State(Register(Retry), 0, 0, {}, {}, 0, false, false, false, false)

  /** The worker that is started, and the one that is waited for, after `w`. */
  function AfterLaunch(probes: bool, w: Worker): Pc {
    match w
    case Retry => Register(Watch)
    case Watch => Boot
    case Prune => Register(Recompute)
    case Recompute => Register(Reconcile)
    case Reconcile => if probes then Register(Probe) else Serve
    case Probe => Serve
  }

  function AfterWait(probes: bool, w: Worker, joined: bool): Pc {
    match w
    case Prune => WaitFor(Recompute, joined)
    case Recompute => WaitFor(Reconcile, joined)
    case Reconcile => if probes then WaitFor(Probe, joined) else DrainHttp(joined)
    case _ => DrainHttp(joined)
  }

  predicate Enabled(s: State, step: Step) {
    match step
    case Exit(w) => Order(w) < s.launched && w !in s.exited && (w.Watch? ==> s.recorderDone)
    case CloseDone(w) => w in s.exited && w !in s.closed && !w.Watch?
    case RecorderStops => s.queueClosed && !s.recorderDone
    case Main(good) =>
      match s.pc
      case WaitFor(w, _) => good ==> w in s.closed
      case WaitRetry(_) => good ==> Retry in s.closed
      case DrainUsage(_) => good ==> s.recorderDone
      case AbortJoin(_) => good ==> s.recorderDone
      case FullJoin(_) => s.recorderDone
      case Returned => false
      case _ => true
  }

  /** The main goroutine's next position. */
  function NextPc(probes: bool, s: State, good: bool): Pc {
    match s.pc
    case Register(w) => Launch(w)
    case Launch(w) => AfterLaunch(probes, w)
    case Boot => if good then Listen else Returned
    case Listen => if good then Register(Prune) else WaitRetry(true)
    case Serve => WaitFor(Prune, true)
    case WaitFor(w, joined) => AfterWait(probes, w, joined && good)
    case DrainHttp(joined) => WaitRetry(joined)
    case WaitRetry(joined) => CloseQueue(joined && good)
    case CloseQueue(joined) => DrainUsage(joined)
    case DrainUsage(joined) => if good then FullJoin(joined) else AbortJoin(joined)
    case AbortJoin(joined) => Barrier(joined && good)
    case FullJoin(joined) => Barrier(joined)
    case Barrier(joined) => if joined && !s.flag && s.counter == 0 then MarkJoined else Verify(joined)
    case MarkJoined => Verify(true)
    case Verify(joined) => if joined && s.flag && s.counter == 0 then CloseStore else Returned
    case CloseStore => Returned
    case Returned => Returned
  }

  function AfterMain(probes: bool, s: State, good: bool): State {
    var n, l := if s.pc.Register? then 1 else 0, if s.pc.Launch? then 1 else 0;
    State(NextPc(probes, s, good), s.registered + n, s.launched + l, s.exited, s.closed, s.counter + n,
          s.flag || s.pc.MarkJoined?, s.queueClosed || s.pc.CloseQueue?, s.recorderDone,
          s.storeClosed || s.pc.CloseStore?)
  }

  function Apply(probes: bool, s: State, step: Step): State {
    match step
    case Exit(w) => s.(exited := s.exited + {w}, counter := s.counter - 1)
    case CloseDone(w) => s.(closed := s.closed + {w})
    case RecorderStops => s.(recorderDone := true)
    case Main(good) => AfterMain(probes, s, good)
  }

  predicate Follows(probes: bool, states: seq<State>, steps: seq<Step>, i: nat)
    requires i < |steps| < |states|
  {
    Enabled(states[i], steps[i]) && states[i + 1] == Apply(probes, states[i], steps[i])
  }

  ghost predicate Run(probes: bool, states: seq<State>, steps: seq<Step>) {
    && |states| == |steps| + 1 && states[0] == Init
    && forall i :: 0 <= i < |steps| ==> Follows(probes, states, steps, i)
  }

  // ----- safety -----

  /** No worker is registered from here on. */
  predicate Stopping(pc: Pc) {
    pc.WaitFor? || pc.DrainHttp? || pc.WaitRetry? || pc.CloseQueue? || pc.DrainUsage? || pc.AbortJoin? || pc.FullJoin?
    || pc.Barrier? || pc.MarkJoined? || pc.Verify? || pc.CloseStore? || pc.Returned?
  }

  /** How many workers are registered when main is about to take this step. */
  function RegisteredAt(probes: bool, pc: Pc): nat {
    match pc
    case Register(w) => Order(w)
    case Launch(w) => Order(w) + 1
    case Boot | Listen => 2
    case _ => if probes then 6 else 5
  }

  function FirstWorkers(n: nat): set<Worker> {
    set w: Worker | Order(w) < n
  }

  predicate Nested(s: State) {
    && s.closed <= s.exited && (forall w :: w in s.exited ==> Order(w) < s.launched)
    && s.launched <= s.registered <= 6
    && (Watch in s.exited ==> s.recorderDone)
  }

  predicate Placed(probes: bool, s: State) {
    && (s.registered == RegisteredAt(probes, s.pc) || (Stopping(s.pc) && s.registered == 2))
    && s.launched == (if s.pc.Launch? then s.registered - 1 else s.registered)
    && (s.pc == Register(Probe) || s.pc == Launch(Probe) ==> probes)
  }

  predicate Counted(probes: bool, s: State) {
    Nested(s) && Placed(probes, s) && s.counter == s.registered - |s.exited|
  }

  /** Once the flag is up, or the store about to close, nobody is left. */
  predicate Joined(s: State) {
    && (s.flag || s.pc.MarkJoined? || s.pc.CloseStore? || s.storeClosed ==> Stopping(s.pc) && s.counter == 0)
    && (s.storeClosed ==> s.pc.Returned?)
  }

  function AtOrder(n: nat): Worker
    requires n < 6
    ensures Order(AtOrder(n)) == n
  {
    if n == 0 then Retry else if n == 1 then Watch else if n == 2 then Prune
    else if n == 3 then Recompute else if n == 4 then Reconcile else Probe
  }

  lemma {:induction false} FirstCount(ws: set<Worker>, n: nat)
    requires n <= 6 && forall w :: w in ws ==> Order(w) < n
    ensures |ws| <= n && (|ws| == n ==> forall w :: Order(w) < n ==> w in ws)
  {
    if n == 0 {
      assert forall w :: w !in ws;
      assert ws == {};
    } else {
      var last := AtOrder(n - 1);
      FirstCount(ws - {last}, n - 1);
    }
  }

  lemma {:induction false} FullCount(n: nat)
    requires n <= 6
    ensures |FirstWorkers(n)| == n
  {
    if n == 0 {
      assert FirstWorkers(0) == {};
    } else {
      FullCount(n - 1);
      assert FirstWorkers(n) == FirstWorkers(n - 1) + {AtOrder(n - 1)};
    }
  }

  lemma MainKeepsPlace(probes: bool, s: State, good: bool)
    requires Placed(probes, s) && Enabled(s, Main(good))
    ensures Placed(probes, AfterMain(probes, s, good))
  {
  }

  lemma MainKeepsJoined(probes: bool, s: State, good: bool)
    requires Joined(s) && Placed(probes, s) && Enabled(s, Main(good))
    ensures Joined(AfterMain(probes, s, good))
  {
  }

  lemma MainKeepsNested(probes: bool, s: State, good: bool)
    requires Nested(s) && Placed(probes, s) && Enabled(s, Main(good))
    ensures Nested(AfterMain(probes, s, good))
    ensures AfterMain(probes, s, good).counter - s.counter == AfterMain(probes, s, good).registered - s.registered
  {
  }

  lemma OthersKeep(probes: bool, s: State, step: Step)
    requires Counted(probes, s) && Joined(s) && Enabled(s, step) && !step.Main?
    ensures Counted(probes, Apply(probes, s, step)) && Joined(Apply(probes, s, step))
  {
    FirstCount(s.exited, s.registered);
    if step.Exit? {
      FirstCount(s.exited + {step.w}, s.registered);
    }
  }

  lemma Keeps(probes: bool, s: State, step: Step)
    requires Counted(probes, s) && Joined(s) && Enabled(s, step)
    ensures Counted(probes, Apply(probes, s, step)) && Joined(Apply(probes, s, step))
  {
    if step.Main? {
      MainKeepsPlace(probes, s, step.good);
      MainKeepsJoined(probes, s, step.good);
      MainKeepsNested(probes, s, step.good);
    } else {
      OthersKeep(probes, s, step);
    }
  }

  lemma {:induction false} KeptThroughout(probes: bool, states: seq<State>, steps: seq<Step>, i: nat)
    requires Run(probes, states, steps) && i < |states|
    ensures Counted(probes, states[i]) && Joined(states[i])
  {
    if i > 0 {
      assert Follows(probes, states, steps, i - 1);
      KeptThroughout(probes, states, steps, i - 1);
      Keeps(probes, states[i - 1], steps[i - 1]);
    }
  }

  /** The counter is never negative, and the store is closed only in a state in which
      every registered worker has executed WorkerExited and the recorder has stopped,
      whatever the interleaving and whichever deadlines expire. */
  lemma StoreClosesLast(probes: bool, states: seq<State>, steps: seq<Step>, i: nat)
    requires Run(probes, states, steps) && i < |states|
    ensures states[i].counter >= 0
    ensures states[i].pc.CloseStore? || states[i].storeClosed ==>
      states[i].exited == FirstWorkers(states[i].registered) && Watch in states[i].exited && states[i].recorderDone
  {
    KeptThroughout(probes, states, steps, i);
    FirstCount(states[i].exited, states[i].registered);
  }

  // ----- when the store really is closed -----

  /** The workers some wait of main has covered by the time it takes this step. */
  predicate Covered(pc: Pc, w: Worker) {
    match pc
    case WaitFor(v, _) => 2 <= Order(w) < Order(v)
    case DrainHttp(_) | WaitRetry(_) => 2 <= Order(w)
    case _ => w != Watch
  }

  predicate Hopeful(pc: Pc) {
    (pc.WaitFor? || pc.DrainHttp? || pc.WaitRetry? || pc.CloseQueue? || pc.DrainUsage? || pc.AbortJoin? || pc.FullJoin? || pc.Barrier?)
    && pc.joined
  }

  /** As long as no wait met its deadline, every channel waited for is closed. */
  predicate Waited(probes: bool, s: State) {
    && (Hopeful(s.pc) ==> forall w :: Order(w) < s.registered && Covered(s.pc, w) ==> w in s.closed)
    && (s.pc == Barrier(true) ==> s.recorderDone)
    && (s.pc.WaitFor? ==> 2 <= Order(s.pc.w) && (s.pc.w.Probe? ==> probes)
                          && s.registered == if probes then 6 else 5)
  }

  /** One wait covers one more worker. */
  lemma WaitCovers(probes: bool, s: State, good: bool, w: Worker)
    requires Placed(probes, s) && Waited(probes, s) && Enabled(s, Main(good))
    requires Hopeful(NextPc(probes, s, good)) && Order(w) < s.registered && Covered(NextPc(probes, s, good), w)
    ensures w in s.closed
  {
    if Hopeful(s.pc) && Covered(s.pc, w) {
      assert w in s.closed;
    }
  }

  lemma MainKeepsWaited(probes: bool, s: State, good: bool)
    requires Placed(probes, s) && Waited(probes, s) && Enabled(s, Main(good))
    ensures Waited(probes, AfterMain(probes, s, good))
  {
    var s' := AfterMain(probes, s, good);
    if Hopeful(s'.pc) {
      forall w | Order(w) < s'.registered && Covered(s'.pc, w) ensures w in s'.closed {
        WaitCovers(probes, s, good, w);
      }
    }
  }

  lemma WaitedKept(probes: bool, s: State, step: Step)
    requires Counted(probes, s) && Waited(probes, s) && Enabled(s, step)
    ensures Waited(probes, Apply(probes, s, step))
  {
    if step.Main? {
      MainKeepsWaited(probes, s, step.good);
    }
  }

  lemma {:induction false} WaitedThroughout(probes: bool, states: seq<State>, steps: seq<Step>, i: nat)
    requires Run(probes, states, steps) && i < |states|
    ensures Waited(probes, states[i])
  {
    if i > 0 {
      assert Follows(probes, states, steps, i - 1);
      WaitedThroughout(probes, states, steps, i - 1);
      KeptThroughout(probes, states, steps, i - 1);
      WaitedKept(probes, states[i - 1], steps[i - 1]);
    }
  }

  /** When every wait has ended in time, what is left to chance at the barrier is the
      watcher: the counter is zero exactly if it, too, has gone. Nobody waits for it. */
  lemma BarrierHangsOnTheWatcher(probes: bool, states: seq<State>, steps: seq<Step>, i: nat)
    requires Run(probes, states, steps) && i < |states| && states[i].pc == Barrier(true)
    ensures states[i].recorderDone && (states[i].counter == 0 <==> Watch in states[i].exited)
  {
    var s := states[i];
    WaitedThroughout(probes, states, steps, i);
    KeptThroughout(probes, states, steps, i);
    FirstCount(s.exited, s.registered);
    if Watch in s.exited {
      assert s.exited == FirstWorkers(s.registered);
      FullCount(s.registered);
    }
  }

  /** Main passes the barrier at step `i` with every wait in time and the watcher gone. */
  predicate OpensAt(states: seq<State>, steps: seq<Step>, i: int)
    requires |states| == |steps| + 1
  {
    0 <= i < |steps| && steps[i].Main? && states[i].pc == Barrier(true) && Watch in states[i].exited
  }

  ghost predicate Opened(states: seq<State>, steps: seq<Step>, n: nat)
    requires |states| == |steps| + 1
  {
    exists i :: 0 <= i < n && OpensAt(states, steps, i)
  }

  /** What the barrier has decided by now. */
  predicate Decided(s: State, passed: bool) {
    match s.pc
    case MarkJoined => passed && s.counter == 0
    case Verify(joined) => passed <==> joined && s.flag && s.counter == 0
    case CloseStore => passed
    case Returned => s.storeClosed <==> passed
    case _ => !passed && !s.flag && !s.storeClosed
  }

  /** Nobody but main decides anything: once it is open, nobody is left to leave. */
  lemma OthersDecideNothing(probes: bool, s: State, step: Step, passed: bool)
    requires Joined(s) && Enabled(s, step) && !step.Main? && Decided(s, passed)
    requires Apply(probes, s, step).counter >= 0
    ensures Decided(Apply(probes, s, step), passed)
  {
  }

  lemma MainDecides(probes: bool, s: State, good: bool, passed: bool)
    requires Joined(s) && Enabled(s, Main(good)) && Decided(s, passed)
    requires s.pc == Barrier(true) ==> (s.counter == 0 <==> Watch in s.exited)
    ensures Decided(AfterMain(probes, s, good), passed || (s.pc == Barrier(true) && Watch in s.exited))
  {
  }

  lemma OpenedGrows(states: seq<State>, steps: seq<Step>, n: nat)
    requires |states| == |steps| + 1
    ensures Opened(states, steps, n + 1) <==> Opened(states, steps, n) || OpensAt(states, steps, n)
  {
  }

  lemma {:induction false} DecidedThroughout(probes: bool, states: seq<State>, steps: seq<Step>, n: nat)
    requires Run(probes, states, steps) && n < |states|
    ensures Decided(states[n], Opened(states, steps, n))
  {
    if n > 0 {
      var s, step := states[n - 1], steps[n - 1];
      assert Follows(probes, states, steps, n - 1);
      DecidedThroughout(probes, states, steps, n - 1);
      KeptThroughout(probes, states, steps, n - 1);
      KeptThroughout(probes, states, steps, n);
      if s.pc == Barrier(true) {
        BarrierHangsOnTheWatcher(probes, states, steps, n - 1);
      }
      OpenedGrows(states, steps, n - 1);
      if step.Main? {
        MainDecides(probes, s, step.good, Opened(states, steps, n - 1));
      } else {
        FirstCount(states[n].exited, states[n].registered);
        OthersDecideNothing(probes, s, step, Opened(states, steps, n - 1));
      }
    }
  }

  /** A process that has returned has closed its store exactly if main came to the
      barrier with every wait in time and found the watcher gone. */
  lemma StoreClosesExactly(probes: bool, states: seq<State>, steps: seq<Step>, n: nat)
    requires Run(probes, states, steps) && n < |states| && states[n].pc.Returned?
    ensures states[n].storeClosed <==>
      exists i :: 0 <= i < n && steps[i].Main? && states[i].pc == Barrier(true) && Watch in states[i].exited
  {
    DecidedThroughout(probes, states, steps, n);
    assert forall i :: 0 <= i < n ==>
      (OpensAt(states, steps, i) <==> steps[i].Main? && states[i].pc == Barrier(true) && Watch in states[i].exited);
  }

  // ----- a run without an expired deadline that leaves the store open -----

  function Last(states: seq<State>): State
    requires states != []
  {
    states[|states| - 1]
  }

  /** From step `from` on no main step runs out of luck. */
  predicate Punctual(steps: seq<Step>, from: nat) {
    forall i :: from <= i < |steps| && steps[i].Main? ==> steps[i].good
  }

  lemma Extend(probes: bool, states: seq<State>, steps: seq<Step>, step: Step)
    returns (states': seq<State>, steps': seq<Step>)
    requires Run(probes, states, steps) && Enabled(Last(states), step)
    ensures Run(probes, states', steps') && |steps'| == |steps| + 1
    ensures Last(states') == Apply(probes, Last(states), step)
    ensures Punctual(steps, 6) && (step.Main? ==> step.good) ==> Punctual(steps', 6)
  {
    states', steps' := states + [Apply(probes, Last(states), step)], steps + [step];
    forall i | 0 <= i < |steps'| ensures Follows(probes, states', steps', i) {
      assert i < |steps| ==> Follows(probes, states, steps, i);
    }
  }

  /** Everything before the listener is bound. */
  lemma Booted() returns (states: seq<State>, steps: seq<Step>)
    ensures Run(true, states, steps) && |steps| == 5
    ensures Last(states) == State(Listen, 2, 2, {}, {}, 2, false, false, false, false)
  {
    states, steps := [Init], [];
    states, steps := Extend(true, states, steps, Main(true));
    states, steps := Extend(true, states, steps, Main(true));
    assert Last(states) == State(Register(Watch), 1, 1, {}, {}, 1, false, false, false, false);
    states, steps := Extend(true, states, steps, Main(true));
    states, steps := Extend(true, states, steps, Main(true));
    assert Last(states) == State(Boot, 2, 2, {}, {}, 2, false, false, false, false);
    states, steps := Extend(true, states, steps, Main(true));
  }

  /** A failed bind shuts down the same way with the fewest workers. */
  lemma RetryJoined() returns (states: seq<State>, steps: seq<Step>)
    ensures Run(true, states, steps) && Punctual(steps, 6)
    ensures Last(states) == State(CloseQueue(true), 2, 2, {Retry}, {Retry}, 1, false, false, false, false)
  {
    states, steps := Booted();
    states, steps := Extend(true, states, steps, Main(false));
    assert Last(states) == State(WaitRetry(true), 2, 2, {}, {}, 2, false, false, false, false);
    states, steps := Extend(true, states, steps, Exit(Retry));
    states, steps := Extend(true, states, steps, CloseDone(Retry));
    assert Last(states) == State(WaitRetry(true), 2, 2, {Retry}, {Retry}, 1, false, false, false, false);
    states, steps := Extend(true, states, steps, Main(true));
  }

  /** Safe but not live: everyone has finished in time, and still the store stays open,
      because the watcher had not yet told the counter. */
  lemma StoreMayStayOpen() returns (states: seq<State>, steps: seq<Step>)
    ensures Run(true, states, steps) && Punctual(steps, 6)
    ensures Last(states).pc.Returned? && Last(states).recorderDone && !Last(states).storeClosed
  {
    states, steps := RetryJoined();
    states, steps := Extend(true, states, steps, Main(true));
    states, steps := Extend(true, states, steps, RecorderStops);
    assert Last(states) == State(DrainUsage(true), 2, 2, {Retry}, {Retry}, 1, false, true, true, false);
    states, steps := Extend(true, states, steps, Main(true));
    states, steps := Extend(true, states, steps, Main(true));
    assert Last(states) == State(Barrier(true), 2, 2, {Retry}, {Retry}, 1, false, true, true, false);
    states, steps := Extend(true, states, steps, Main(true));
    states, steps := Extend(true, states, steps, Main(true));
  }
}
