/** The two watchdogs of a streaming attempt as an interleaved system: the request's
    own goroutine, the first-token timer with its callback, and the idle timer, whose
    callbacks may overlap because re-arming does not wait for one already running. */
module Watchdog {
  /** Where the request's goroutine is, named by the step it takes next. */
  datatype Pc =
    | AwaitFirst
    | CallStop(got: bool)
    | AwaitDone(got: bool)
    | Judge(got: bool)
    | WriteHead
    | FirstStamp
    | ArmIdle
    | Stamp
    | Rearm
    | Forward
    | Read
    | Left
    | Ended

  datatype First =
    | Waiting(deadline: int)
    | Stopped
    | Fired
    | Flagged
    | Closed
    | Signalled

  /** `mark` is the number of events recorded when the timer was armed. */
  datatype Idle = Off | Armed(deadline: int, mark: nat)

  /** One run of the idle callback. `stamp` is the time of the last event as it loaded
      it, `seen` the number recorded by then, `at` the time it compared that with. */
  datatype Check =
    | Started(mark: nat)
    | Loaded(mark: nat, seen: nat, stamp: int)
    | Overdue(mark: nat, seen: nat, at: int)
    | Noted(mark: nat, seen: nat, at: int)
    | Cut(mark: nat, seen: nat, at: int)
    | Returned(mark: nat)

  /** Timers run on the monotonic clock `mono`; event times are wall-clock times. */
  datatype State = State(
    mono: int,
    wall: int,
    pc: Pc,
    header: bool,
    first: First,
    firstTimedOut: bool,
    idle: Idle,
    idleTimedOut: bool,
    checks: seq<Check>,
    events: seq<int>,
    closed: bool)

  datatype Config = Config(firstTimeout: nat, idleTimeout: nat)

  /** `choice` is whatever the stream or the client answers. */
  datatype Step =
    | Tick(elapsed: nat, wallElapsed: int)
    | FirstTimer
    | IdleFires
    | IdleCheck(i: nat)
    | Main(choice: bool)

  function Start(c: Config, mono: int, wall: int): State {
    State(mono, wall, AwaitFirst, false, Waiting(mono + c.firstTimeout), false, Off, false, [], [], false)
  }

  /** The shared time of the last event, which starts out as zero. */
  function LastEvent(s: State): int {
    if s.events == [] then 0 else s.events[|s.events| - 1]
  }

  predicate InFlight(k: Check) {
    k.Started? || k.Loaded? || k.Overdue? || k.Noted?
  }

  predicate Enabled(s: State, step: Step) {
    match step
    case Tick(_, _) => true
    case FirstTimer =>
      (s.first.Waiting? && s.mono >= s.first.deadline) || s.first.Fired? || s.first.Flagged? || s.first.Closed?
    case IdleFires => s.idle.Armed? && s.mono >= s.idle.deadline
    case IdleCheck(i) => i < |s.checks| && InFlight(s.checks[i])
    case Main(_) => !s.pc.Left? && !s.pc.Ended? && (s.pc.AwaitDone? ==> s.first.Signalled?)
  }

  function AfterFirstTimer(s: State): State {
    match s.first
    case Waiting(_) => s.(first := Fired)
    case Fired => s.(first := Flagged, firstTimedOut := true)
    case Flagged => s.(first := Closed, closed := true)
    case _ => s.(first := Signalled)
  }

  /** A callback loads the time of the last event, compares, and only then flags and
      closes. */
  function NextCheck(c: Config, s: State, k: Check): Check {
    match k
    case Started(mark) => Loaded(mark, |s.events|, LastEvent(s))
    case Loaded(mark, seen, stamp) =>
      if s.wall - stamp < c.idleTimeout then Returned(mark) else Overdue(mark, seen, s.wall)
    case Overdue(mark, seen, at) => Noted(mark, seen, at)
    case Noted(mark, seen, at) => Cut(mark, seen, at)
    case _ => k
  }

  function AfterCheck(c: Config, s: State, i: nat): State
    requires i < |s.checks|
  {
    var k := s.checks[i];
    s.(checks := s.checks[i := NextCheck(c, s, k)],
       idleTimedOut := s.idleTimedOut || k.Overdue?,
       closed := s.closed || k.Noted?)
  }

  function NextPc(s: State, choice: bool): Pc {
    match s.pc
    case AwaitFirst => CallStop(choice)
    case CallStop(got) => if s.first.Waiting? then Judge(got) else AwaitDone(got)
    case AwaitDone(got) => Judge(got)
    case Judge(got) => if !got || s.firstTimedOut then Left else WriteHead
    case WriteHead => FirstStamp
    case FirstStamp => ArmIdle
    case ArmIdle => Stamp
    case Stamp => Rearm
    case Rearm => Forward
    case Forward => if choice then Read else Ended
    case Read => if choice then Stamp else Ended
    case _ => s.pc
  }

  /** The request's goroutine stops a waiting first-token timer, writes the head,
      records an event before it arms the idle timer again, and closes the stream when
      it leaves. */
  function AfterMain(c: Config, s: State, choice: bool): State {
    var next := NextPc(s, choice);
    State(s.mono, s.wall, next,
          s.header || s.pc.WriteHead?,
          if s.pc.CallStop? && s.first.Waiting? then Stopped else s.first,
          s.firstTimedOut,
          if s.pc.ArmIdle? || s.pc.Rearm? then Armed(s.mono + c.idleTimeout, |s.events|)
          else if next.Ended? then Off else s.idle,
          s.idleTimedOut,
          s.checks,
          if s.pc.FirstStamp? || s.pc.Stamp? then s.events + [s.wall] else s.events,
          s.closed || next.Left? || next.Ended?)
  }

  function Apply(c: Config, s: State, step: Step): State
    requires Enabled(s, step)
  {
    match step
    case Tick(d, w) => s.(mono := s.mono + d, wall := s.wall + w)
    case FirstTimer => AfterFirstTimer(s)
    case IdleFires => s.(idle := Off, checks := s.checks + [Started(s.idle.mark)])
    case IdleCheck(i) => AfterCheck(c, s, i)
    case Main(choice) => AfterMain(c, s, choice)
  }

  predicate Follows(c: Config, states: seq<State>, steps: seq<Step>, i: nat)
    requires i < |steps| < |states|
  {
    Enabled(states[i], steps[i]) && states[i + 1] == Apply(c, states[i], steps[i])
  }

  /** A run, as the states it passes through. */
  ghost predicate Run(c: Config, states: seq<State>, steps: seq<Step>) {
    && |states| == |steps| + 1
    && (exists mono, wall :: states[0] == Start(c, mono, wall))
    && forall i :: 0 <= i < |steps| ==> Follows(c, states, steps, i)
  }

  // ----- the first-token watchdog -----

  predicate Committed(pc: Pc) {
    pc.WriteHead? || pc.FirstStamp? || pc.ArmIdle? || pc.Stamp? || pc.Rearm? || pc.Forward? || pc.Read? || pc.Ended?
  }

  /** The timer's flag and its close come in order, and the request's goroutine gets
      past Stop only with the timer stopped for good or its callback finished. */
  predicate FirstOk(s: State) {
    && (s.firstTimedOut <==> s.first.Flagged? || s.first.Closed? || s.first.Signalled?)
    && (s.first.Closed? || s.first.Signalled? ==> s.closed)
    && (s.pc.AwaitDone? ==> !s.first.Waiting? && !s.first.Stopped?)
    && (s.pc.Judge? || s.pc.Left? ==> s.first.Stopped? || s.first.Signalled?)
    && (s.first.Stopped? ==> s.pc.Judge? || s.pc.Left? || Committed(s.pc))
    && (Committed(s.pc) ==> s.first.Stopped?)
    && (s.header ==> Committed(s.pc) && !s.pc.WriteHead?)
  }

  lemma FirstOkKept(c: Config, s: State, step: Step)
    requires FirstOk(s) && Enabled(s, step)
    ensures FirstOk(Apply(c, s, step))
  {
  }

  lemma {:induction false} FirstOkThroughout(c: Config, states: seq<State>, steps: seq<Step>, i: nat)
    requires Run(c, states, steps) && i < |states|
    ensures FirstOk(states[i])
  {
    if i > 0 {
      assert Follows(c, states, steps, i - 1);
      FirstOkThroughout(c, states, steps, i - 1);
      FirstOkKept(c, states[i - 1], steps[i - 1]);
    }
  }

  /** In a run that writes the response head, the first-token timer has not fired at
      any point before or after, and its callback has neither flagged nor closed. */
  lemma HeadMeansNoFirstTimeout(c: Config, states: seq<State>, steps: seq<Step>, i: nat, j: nat)
    requires Run(c, states, steps) && i < |states| && j < |states| && states[i].header
    ensures (states[j].first.Waiting? || states[j].first.Stopped?) && !states[j].firstTimedOut
    ensures j >= i ==> states[j].first.Stopped?
  {
    FirstOkThroughout(c, states, steps, i);
    FirstOkThroughout(c, states, steps, j);
    if j >= i {
      StaysStopped(c, states, steps, i, j);
    } else if !states[j].first.Waiting? && !states[j].first.Stopped? {
      StaysFired(c, states, steps, j, i);
    }
  }

  lemma {:induction false} StaysFired(c: Config, states: seq<State>, steps: seq<Step>, j: nat, i: nat)
    requires Run(c, states, steps) && j <= i < |states|
    requires !states[j].first.Waiting? && !states[j].first.Stopped?
    ensures !states[i].first.Waiting? && !states[i].first.Stopped?
    decreases i
  {
    if j < i {
      assert Follows(c, states, steps, i - 1);
      StaysFired(c, states, steps, j, i - 1);
    }
  }

  lemma {:induction false} StaysStopped(c: Config, states: seq<State>, steps: seq<Step>, i: nat, j: nat)
    requires Run(c, states, steps) && i <= j < |states| && states[i].first.Stopped?
    ensures states[j].first.Stopped?
    decreases j
  {
    if i < j {
      assert Follows(c, states, steps, j - 1);
      StaysStopped(c, states, steps, i, j - 1);
    }
  }

  /** An attempt that leaves because the timer fired leaves after the stream is
      closed, and until then the callback it waits for can always take a step. */
  lemma TimeoutIsAwaited(c: Config, states: seq<State>, steps: seq<Step>, i: nat)
    requires Run(c, states, steps) && i < |states|
    ensures states[i].pc.Judge? && states[i].firstTimedOut ==> states[i].closed && states[i].first.Signalled?
    ensures states[i].pc.AwaitDone? ==> Enabled(states[i], FirstTimer) || Enabled(states[i], Main(true))
  {
    FirstOkThroughout(c, states, steps, i);
  }

  // ----- the idle watchdog -----

  predicate Serving(pc: Pc) {
    pc.Stamp? || pc.Rearm? || pc.Forward? || pc.Read?
  }

  /** What a callback has loaded and compared. */
  predicate CheckOk(c: Config, s: State, k: Check) {
    && 1 <= k.mark <= |s.events|
    && (k.Loaded? || k.Overdue? || k.Noted? || k.Cut? ==> k.mark <= k.seen <= |s.events|)
    && (k.Loaded? ==> k.stamp == s.events[k.seen - 1])
    && (k.Overdue? || k.Noted? || k.Cut? ==> k.at - s.events[k.seen - 1] >= c.idleTimeout)
  }

  predicate HasCut(s: State) {
    exists i :: 0 <= i < |s.checks| && s.checks[i].Cut?
  }

  predicate IdleOk(c: Config, s: State) {
    && (s.idle.Armed? ==> 1 <= s.idle.mark <= |s.events|)
    && (forall i :: 0 <= i < |s.checks| ==> CheckOk(c, s, s.checks[i]))
    && (Serving(s.pc) && s.closed ==> HasCut(s))
    && (!Serving(s.pc) && !s.pc.Ended? ==> s.checks == [] && !s.idle.Armed?)
    && (!Serving(s.pc) && !s.pc.Ended? && !s.pc.Left? && s.closed ==> s.first.Closed? || s.first.Signalled?)
    && (s.pc.ArmIdle? || Serving(s.pc) ==> s.events != [])
  }

  lemma NextCheckOk(c: Config, s: State, k: Check)
    requires CheckOk(c, s, k) && s.events != []
    ensures CheckOk(c, s, NextCheck(c, s, k))
  {
  }

  lemma CutStays(c: Config, s: State, i: nat)
    requires i < |s.checks|
    ensures HasCut(s) || s.checks[i].Noted? ==> HasCut(AfterCheck(c, s, i))
  {
    var s' := AfterCheck(c, s, i);
    if s.checks[i].Noted? {
      assert s'.checks[i].Cut?;
    } else if HasCut(s) {
      var k :| 0 <= k < |s.checks| && s.checks[k].Cut?;
      assert s'.checks[k].Cut?;
    }
  }

  lemma CheckKeepsIdleOk(c: Config, s: State, i: nat)
    requires FirstOk(s) && IdleOk(c, s) && Enabled(s, IdleCheck(i))
    ensures IdleOk(c, AfterCheck(c, s, i))
  {
    var s' := AfterCheck(c, s, i);
    CutStays(c, s, i);
    NextCheckOk(c, s, s.checks[i]);
    forall k | 0 <= k < |s'.checks| ensures CheckOk(c, s', s'.checks[k]) {
      assert CheckOk(c, s, s'.checks[k]);
    }
  }

  lemma MainKeepsIdleOk(c: Config, s: State, choice: bool)
    requires FirstOk(s) && IdleOk(c, s) && Enabled(s, Main(choice))
    ensures IdleOk(c, AfterMain(c, s, choice))
  {
    var s' := AfterMain(c, s, choice);
    forall i | 0 <= i < |s'.checks| ensures CheckOk(c, s', s'.checks[i]) {
      assert CheckOk(c, s, s.checks[i]);
    }
  }

  lemma TimerKeepsIdleOk(c: Config, s: State, step: Step)
    requires FirstOk(s) && IdleOk(c, s) && Enabled(s, step) && !step.IdleCheck? && !step.Main?
    ensures IdleOk(c, Apply(c, s, step))
  {
    var s' := Apply(c, s, step);
    forall i | 0 <= i < |s'.checks| ensures CheckOk(c, s', s'.checks[i]) {
      assert i < |s.checks| ==> CheckOk(c, s, s.checks[i]);
    }
    if HasCut(s) {
      var k :| 0 <= k < |s.checks| && s.checks[k].Cut?;
      assert s'.checks[k].Cut?;
    }
  }

  lemma {:induction false} IdleOkThroughout(c: Config, states: seq<State>, steps: seq<Step>, i: nat)
    requires Run(c, states, steps) && i < |states|
    ensures FirstOk(states[i]) && IdleOk(c, states[i])
  {
    FirstOkThroughout(c, states, steps, i);
    if i > 0 {
      assert Follows(c, states, steps, i - 1);
      IdleOkThroughout(c, states, steps, i - 1);
      match steps[i - 1]
      case IdleCheck(k) => CheckKeepsIdleOk(c, states[i - 1], k);
      case Main(choice) => MainKeepsIdleOk(c, states[i - 1], choice);
      case step => TimerKeepsIdleOk(c, states[i - 1], step);
    }
  }

  /** While the stream is being served, only an idle callback closes it, and only one
      that found the last event it had seen a full idle interval old. */
  lemma ClosedOnlyAfterIdleInterval(c: Config, states: seq<State>, steps: seq<Step>, i: nat)
    requires Run(c, states, steps) && i < |states| && Serving(states[i].pc) && states[i].closed
    ensures exists k :: 0 <= k < |states[i].checks| && states[i].checks[k].Cut?
              && 1 <= states[i].checks[k].seen <= |states[i].events|
              && states[i].checks[k].at - states[i].events[states[i].checks[k].seen - 1] >= c.idleTimeout
  {
    IdleOkThroughout(c, states, steps, i);
    var k :| 0 <= k < |states[i].checks| && states[i].checks[k].Cut?;
    assert CheckOk(c, states[i], states[i].checks[k]);
  }

  // ----- when the idle watchdog goes missing -----

  /** The timer that was armed after the last event. */
  predicate TimerOnGuard(s: State) {
    s.idle.Armed? && s.idle.mark == |s.events|
  }

  predicate CheckOnGuard(s: State, k: Check) {
    InFlight(k) && k.mark == |s.events|
  }

  ghost predicate Guarded(s: State) {
    TimerOnGuard(s) || exists i :: 0 <= i < |s.checks| && CheckOnGuard(s, s.checks[i])
  }

  /** A stream being served that is still open. */
  predicate Live(s: State) {
    Serving(s.pc) && !s.closed
  }

  /** A callback that belongs to the last event finds it younger than the interval,
      and so returns. */
  predicate Disarms(c: Config, s: State, step: Step) {
    && step.IdleCheck? && step.i < |s.checks|
    && s.checks[step.i].Loaded? && s.checks[step.i].mark == |s.events|
    && s.wall - s.checks[step.i].stamp < c.idleTimeout
  }

  ghost predicate NeverDisarmed(c: Config, states: seq<State>, steps: seq<Step>)
    requires |steps| < |states|
  {
    forall i :: 0 <= i < |steps| && Live(states[i]) ==> !Disarms(c, states[i], steps[i])
  }

  ghost predicate AlwaysGuarded(states: seq<State>) {
    forall i :: 0 <= i < |states| && Live(states[i]) && !states[i].pc.Rearm? ==> Guarded(states[i])
  }

  /** Every arming has its own mark, and an event is recorded before the next one. */
  ghost predicate MarksDiffer(s: State) {
    && (forall i :: 0 <= i < |s.checks| && s.idle.Armed? ==> s.checks[i].mark < s.idle.mark)
    && (forall i, j :: 0 <= i < j < |s.checks| ==> s.checks[i].mark < s.checks[j].mark)
    && (s.pc.Rearm? && s.idle.Armed? ==> s.idle.mark < |s.events|)
    && (s.pc.Rearm? ==> forall i :: 0 <= i < |s.checks| ==> s.checks[i].mark < |s.events|)
  }

  lemma MarksStayDifferent(c: Config, s: State, step: Step)
    requires FirstOk(s) && IdleOk(c, s) && MarksDiffer(s) && Enabled(s, step)
    ensures MarksDiffer(Apply(c, s, step))
  {
    var s' := Apply(c, s, step);
    forall i | 0 <= i < |s.checks| ensures s'.checks[i].mark == s.checks[i].mark {}
    forall i | 0 <= i < |s.checks| ensures s.checks[i].mark <= |s.events| {
      assert CheckOk(c, s, s.checks[i]);
    }
  }

  lemma {:induction false} MarksDifferThroughout(c: Config, states: seq<State>, steps: seq<Step>, i: nat)
    requires Run(c, states, steps) && i < |states|
    ensures FirstOk(states[i]) && IdleOk(c, states[i]) && MarksDiffer(states[i])
  {
    IdleOkThroughout(c, states, steps, i);
    if i > 0 {
      assert Follows(c, states, steps, i - 1);
      MarksDifferThroughout(c, states, steps, i - 1);
      MarksStayDifferent(c, states[i - 1], steps[i - 1]);
    }
  }

  /** One step of a guarded stream leaves it guarded, closed, about to be armed, or no
      longer served, unless it disarms. */
  lemma StepKeepsGuard(c: Config, s: State, step: Step)
    requires Enabled(s, step) && Live(s) && Guarded(s) && !s.pc.Rearm? && !Disarms(c, s, step)
    requires IdleOk(c, s)
    ensures var s' := Apply(c, s, step); Live(s') && !s'.pc.Rearm? ==> Guarded(s')
  {
    var s' := Apply(c, s, step);
    if Live(s') && !s'.pc.Rearm? {
      if TimerOnGuard(s) {
        if step.IdleFires? {
          assert CheckOnGuard(s', s'.checks[|s.checks|]);
        }
      } else {
        var k :| 0 <= k < |s.checks| && CheckOnGuard(s, s.checks[k]);
        assert CheckOk(c, s, s.checks[k]);
        assert CheckOnGuard(s', s'.checks[k]);
      }
    }
  }

  /** A callback that disarms was the stream's only guard. */
  lemma DisarmingLeavesNone(c: Config, s: State, step: Step)
    requires Enabled(s, step) && Live(s) && Disarms(c, s, step) && MarksDiffer(s)
    ensures var s' := Apply(c, s, step); Live(s') && !s'.pc.Rearm? && !Guarded(s')
  {
    var s' := Apply(c, s, step);
    assert s.checks[step.i].mark == |s.events|;
    forall k | 0 <= k < |s'.checks| ensures !CheckOnGuard(s', s'.checks[k]) {
      assert k != step.i ==> s.checks[k].mark != s.checks[step.i].mark;
    }
  }

  /** At the first state a stream is served in, the timer has just been set. */
  lemma LiveOrBefore(c: Config, s: State, step: Step)
    requires FirstOk(s) && IdleOk(c, s) && Enabled(s, step) && !Live(s)
    ensures var s' := Apply(c, s, step); Live(s') ==> Guarded(s')
  {
  }

  lemma RearmSetsIt(c: Config, s: State, step: Step)
    requires FirstOk(s) && Enabled(s, step) && s.pc.Rearm?
    ensures var s' := Apply(c, s, step); s'.pc.Rearm? || Guarded(s') || !Live(s')
  {
  }

  lemma {:induction false} GuardedUnlessDisarmed(c: Config, states: seq<State>, steps: seq<Step>, i: nat)
    requires Run(c, states, steps) && NeverDisarmed(c, states, steps) && i < |states|
    ensures Live(states[i]) && !states[i].pc.Rearm? ==> Guarded(states[i])
  {
    if i > 0 {
      assert Follows(c, states, steps, i - 1);
      var s, step := states[i - 1], steps[i - 1];
      GuardedUnlessDisarmed(c, states, steps, i - 1);
      IdleOkThroughout(c, states, steps, i - 1);
      if !Live(s) {
        LiveOrBefore(c, s, step);
      } else if s.pc.Rearm? {
        RearmSetsIt(c, s, step);
      } else {
        StepKeepsGuard(c, s, step);
      }
    }
  }

  /** While an open stream is served and the goroutine is not about to set the timer,
      the timer of its last event is set or its callback is running, exactly in the runs
      in which no callback that belongs to the last event finds it too young. */
  lemma GuardedExactly(c: Config, states: seq<State>, steps: seq<Step>)
    requires Run(c, states, steps)
    ensures AlwaysGuarded(states) <==> NeverDisarmed(c, states, steps)
  {
    if NeverDisarmed(c, states, steps) {
      forall i | 0 <= i < |states| && Live(states[i]) && !states[i].pc.Rearm? ensures Guarded(states[i]) {
        GuardedUnlessDisarmed(c, states, steps, i);
      }
    } else {
      var i :| 0 <= i < |steps| && Live(states[i]) && Disarms(c, states[i], steps[i]);
      MarksDifferThroughout(c, states, steps, i);
      DisarmingLeavesNone(c, states[i], steps[i]);
      assert Follows(c, states, steps, i);
    }
  }

  // ----- clocks that keep it armed -----

  /** The wall clock does not run behind the monotonic one. */
  predicate Steady(steps: seq<Step>) {
    forall i :: 0 <= i < |steps| && steps[i].Tick? ==> steps[i].wallElapsed >= steps[i].elapsed
  }

  predicate Due(c: Config, s: State, k: Check) {
    k.mark == |s.events| ==> s.wall >= LastEvent(s) + c.idleTimeout
  }

  /** A timer or a callback that belongs to the last event can only find it overdue. */
  predicate Timely(c: Config, s: State) {
    && (TimerOnGuard(s) ==> s.idle.deadline - s.mono + s.wall >= LastEvent(s) + c.idleTimeout)
    && (s.events != [] ==> LastEvent(s) <= s.wall)
    && (forall i :: 0 <= i < |s.checks| ==> Due(c, s, s.checks[i]))
  }

  lemma StepKeepsTimely(c: Config, s: State, step: Step)
    requires IdleOk(c, s) && Timely(c, s) && Enabled(s, step)
    requires step.Tick? ==> step.wallElapsed >= step.elapsed
    ensures Timely(c, Apply(c, s, step))
  {
    var s' := Apply(c, s, step);
    forall i | 0 <= i < |s'.checks| ensures Due(c, s', s'.checks[i]) {
      if i < |s.checks| {
        assert CheckOk(c, s, s.checks[i]) && Due(c, s, s.checks[i]);
        assert s'.checks[i].mark == s.checks[i].mark;
      }
    }
  }

  lemma {:induction false} TimelyThroughout(c: Config, states: seq<State>, steps: seq<Step>, i: nat)
    requires Run(c, states, steps) && Steady(steps) && i < |states|
    ensures IdleOk(c, states[i]) && Timely(c, states[i])
  {
    IdleOkThroughout(c, states, steps, i);
    if i > 0 {
      assert Follows(c, states, steps, i - 1);
      TimelyThroughout(c, states, steps, i - 1);
      StepKeepsTimely(c, states[i - 1], steps[i - 1]);
    }
  }

  /** A wall clock that never falls behind leaves no callback too early. */
  lemma SteadyNeverDisarms(c: Config, states: seq<State>, steps: seq<Step>)
    requires Run(c, states, steps) && Steady(steps)
    ensures NeverDisarmed(c, states, steps) && AlwaysGuarded(states)
  {
    forall i | 0 <= i < |steps| && Live(states[i]) ensures !Disarms(c, states[i], steps[i]) {
      TimelyThroughout(c, states, steps, i);
      if steps[i].IdleCheck? && steps[i].i < |states[i].checks| {
        assert CheckOk(c, states[i], states[i].checks[steps[i].i]) && Due(c, states[i], states[i].checks[steps[i].i]);
      }
    }
    GuardedExactly(c, states, steps);
  }

  // ----- when a fresh event does not save the stream -----

  /** Step `m` is where callback `k` loads the time of the last event. */
  predicate Loads(states: seq<State>, steps: seq<Step>, m: nat, k: nat)
    requires |steps| < |states|
  {
    m < |steps| && steps[m] == IdleCheck(k) && k < |states[m].checks| && states[m].checks[k].Started?
  }

  /** Step `n` is where callback `k` closes the stream. */
  predicate Closes(states: seq<State>, steps: seq<Step>, n: nat, k: nat)
    requires |steps| < |states|
  {
    n < |steps| && steps[n] == IdleCheck(k) && k < |states[n].checks| && states[n].checks[k].Noted?
  }

  predicate SetBack(states: seq<State>, j: nat)
    requires j + 1 < |states|
  {
    states[j + 1].wall < states[j].wall
  }

  /** The wall clock is not set back between the two states. */
  predicate NotSetBack(states: seq<State>, m: nat, n: nat)
    requires m <= n < |states|
  {
    forall j :: m <= j < n ==> !SetBack(states, j)
  }

  predicate UnderWay(k: Check) {
    k.Loaded? || k.Overdue? || k.Noted?
  }

  /** What callback `k` and the events since its load look like afterwards. */
  predicate SinceLoad(before: State, s: State, k: nat) {
    && before.wall <= s.wall && |before.events| <= |s.events| && k < |s.checks|
    && (|before.events| < |s.events| ==> before.wall <= LastEvent(s))
    && !s.checks[k].Started?
    && (UnderWay(s.checks[k]) ==> s.checks[k].seen == |before.events|)
    && (s.checks[k].Overdue? || s.checks[k].Noted? ==> s.checks[k].at <= s.wall)
  }

  lemma SinceLoadStep(c: Config, before: State, s: State, step: Step, k: nat)
    requires Enabled(s, step) && s.wall <= Apply(c, s, step).wall && SinceLoad(before, s, k)
    ensures SinceLoad(before, Apply(c, s, step), k)
  {
    var s' := Apply(c, s, step);
    assert s'.checks[k] == if step == IdleCheck(k) then NextCheck(c, s, s.checks[k]) else s.checks[k];
  }

  lemma {:induction false} SinceLoadKept(c: Config, states: seq<State>, steps: seq<Step>, m: nat, n: nat, k: nat)
    requires Run(c, states, steps) && Loads(states, steps, m, k) && m < n < |states| && NotSetBack(states, m, n)
    ensures SinceLoad(states[m], states[n], k)
  {
    var s, step := states[n - 1], steps[n - 1];
    assert Follows(c, states, steps, n - 1) && !SetBack(states, n - 1);
    if m < n - 1 {
      SinceLoadKept(c, states, steps, m, n - 1, k);
      SinceLoadStep(c, states[m], s, step, k);
    }
  }

  /** A callback that closes has loaded the last event's time before. */
  lemma {:induction false} ClosesAfterLoad(c: Config, states: seq<State>, steps: seq<Step>, n: nat, k: nat) returns (m: nat)
    requires Run(c, states, steps) && n < |states| && k < |states[n].checks| && UnderWay(states[n].checks[k])
    ensures m < n && Loads(states, steps, m, k)
  {
    assert n > 0 && Follows(c, states, steps, n - 1);
    if k < |states[n - 1].checks| && UnderWay(states[n - 1].checks[k]) {
      m := ClosesAfterLoad(c, states, steps, n - 1, k);
    } else {
      m := n - 1;
    }
  }

  /** The stream is closed although its last event is younger than the interval only
      if an event was recorded after the closing callback had looked; and always then,
      if the callback got from its look to the close within the interval. The wall clock
      must not be set back in between. */
  lemma FreshEventIsCutExactly(c: Config, states: seq<State>, steps: seq<Step>, n: nat, k: nat) returns (m: nat)
    requires Run(c, states, steps) && Closes(states, steps, n, k)
    ensures m < n && Loads(states, steps, m, k)
    ensures var young := states[n].wall - LastEvent(states[n]) < c.idleTimeout;
            var late := |states[m].events| < |states[n].events|;
      NotSetBack(states, m, n) ==>
        && (young ==> late)
        && (states[n].wall - states[m].wall < c.idleTimeout ==> (young <==> late))
  {
    m := ClosesAfterLoad(c, states, steps, n, k);
    if NotSetBack(states, m, n) {
      SinceLoadKept(c, states, steps, m, n, k);
      IdleOkThroughout(c, states, steps, n);
      assert CheckOk(c, states[n], states[n].checks[k]);
    }
  }

  // ----- two runs that show what the watchdog does not promise -----

  function Last(states: seq<State>): State
    requires states != []
  {
    states[|states| - 1]
  }

  lemma Extend(c: Config, states: seq<State>, steps: seq<Step>, step: Step)
    returns (states': seq<State>, steps': seq<Step>)
    requires Run(c, states, steps) && Enabled(Last(states), step)
    ensures Run(c, states', steps') && steps' == steps + [step]
    ensures Last(states') == Apply(c, Last(states), step)
  {
    states', steps' := states + [Apply(c, Last(states), step)], steps + [step];
    forall i | 0 <= i < |steps'| ensures Follows(c, states', steps', i) {
      assert i < |steps| ==> Follows(c, states, steps, i);
    }
  }

  /** The request's goroutine up to its wait for the second event. */
  lemma {:induction false} ServingRun(c: Config, n: nat) returns (states: seq<State>, steps: seq<Step>)
    requires n <= 9
    ensures Run(c, states, steps) && |steps| == n && Steady(steps)
    ensures n == 9 ==> Last(states) == State(0, 0, Read, true, Stopped, false, Armed(c.idleTimeout, 2), false, [], [0, 0], false)
    ensures n < 9 ==> Last(states) == PartWay(c, n)
  {
    if n == 0 {
      states, steps := [Start(c, 0, 0)], [];
    } else {
      states, steps := ServingRun(c, n - 1);
      states, steps := Extend(c, states, steps, Main(true));
    }
  }

  function PartWay(c: Config, n: nat): State {
    var s := Start(c, 0, 0);
    var stopped := s.(first := Stopped, header := n >= 4, events := if n < 5 then [] else if n < 7 then [0] else [0, 0],
                      idle := if n < 6 then Off else Armed(c.idleTimeout, if n < 8 then 1 else 2));
    match n
    case 0 => s
    case 1 => s.(pc := CallStop(true))
    case 2 => stopped.(pc := Judge(true))
    case 3 => stopped.(pc := WriteHead)
    case 4 => stopped.(pc := FirstStamp)
    case 5 => stopped.(pc := ArmIdle)
    case 6 => stopped.(pc := Stamp)
    case 7 => stopped.(pc := Rearm)
    case _ => stopped.(pc := Forward)
  }

  /** A wall clock that is set back hides the interval from the callback, which
      returns without closing and leaves nothing to guard the stream. */
  lemma ClockSetBackDisarms(c: Config) returns (states: seq<State>, steps: seq<Step>)
    ensures Run(c, states, steps) && !Steady(steps)
    ensures Last(states).pc.Read? && !Last(states).closed && !Last(states).idle.Armed?
    ensures forall i :: 0 <= i < |Last(states).checks| ==> !InFlight(Last(states).checks[i])
    ensures !NeverDisarmed(c, states, steps)
  {
    states, steps := ServingRun(c, 9);
    states, steps := Extend(c, states, steps, Tick(c.idleTimeout, -1));
    states, steps := Extend(c, states, steps, IdleFires);
    states, steps := Extend(c, states, steps, IdleCheck(0));
    states, steps := Extend(c, states, steps, IdleCheck(0));
    assert steps[9] == Tick(c.idleTimeout, -1);
    assert Live(Last(states)) && !Guarded(Last(states));
    GuardedExactly(c, states, steps);
  }

  /** The idle interval has passed and the callback has loaded the last event's time. */
  lemma CheckUnderWay(c: Config) returns (states: seq<State>, steps: seq<Step>)
    ensures var t := c.idleTimeout;
      Run(c, states, steps) && Steady(steps)
      && Last(states) == State(t, t, Read, true, Stopped, false, Off, false, [Loaded(2, 2, 0)], [0, 0], false)
  {
    states, steps := ServingRun(c, 9);
    states, steps := Extend(c, states, steps, Tick(c.idleTimeout, c.idleTimeout));
    states, steps := Extend(c, states, steps, IdleFires);
    states, steps := Extend(c, states, steps, IdleCheck(0));
  }

  /** And now another event arrives. */
  lemma EventDuringCheck(c: Config) returns (states: seq<State>, steps: seq<Step>)
    ensures var t := c.idleTimeout;
      Run(c, states, steps) && Steady(steps)
      && Last(states) == State(t, t, Rearm, true, Stopped, false, Off, false, [Loaded(2, 2, 0)], [0, 0, t], false)
  {
    states, steps := CheckUnderWay(c);
    states, steps := Extend(c, states, steps, Main(true));
    states, steps := Extend(c, states, steps, Main(true));
  }

  /** Looking twice narrows the race but does not close it: an event recorded between
      the callback's load and its comparison does not save the stream. */
  lemma LateEventIsCut(c: Config) returns (states: seq<State>, steps: seq<Step>)
    ensures Run(c, states, steps) && Steady(steps)
    ensures Serving(Last(states).pc) && Last(states).closed && LastEvent(Last(states)) == Last(states).wall
  {
    states, steps := EventDuringCheck(c);
    states, steps := Extend(c, states, steps, IdleCheck(0));
    states, steps := Extend(c, states, steps, IdleCheck(0));
    states, steps := Extend(c, states, steps, IdleCheck(0));
  }
}
