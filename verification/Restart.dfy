/** Restarting: the floors are reset, the direction is not. */
module Restart {
  import opened Types
  import opened Lists
  import opened Sweep
  import opened Machine
  import opened System
  import opened Safety
  import opened Loading
  import opened Invariant
  import opened Ledger
  import opened Draining

  /** A start that takes effect puts the car at the start of the sweep if it was headed up, and at the
      stale position if it was headed down; two moves later it is on the sweep in either case. */
  lemma RestartPosition(s: State)
    requires Typed(s) && s.car.status == Offline
    ensures var r := PosOf(StartElevator(s).car);
      && r == (if s.car.up then PosAt(0) else STALE)
      && After(r, 2) == (if s.car.up then PosAt(2) else PosAt(0))
  {
    StaleHeals();
    assert After(PosAt(0), 2) == Next(After(PosAt(0), 1));
    assert After(PosAt(0), 1) == Next(After(PosAt(0), 0));
  }

  // ---------- The stale position is reachable ----------

  /** An empty car on duty, and only people at the bottom for the bottom. */
  ghost predicate OnlyBlocked(s: State)
    ensures OnlyBlocked(s) ==> Typed(s)
  {
    && Running(s) && !SomebodyAboard(s) && Blocked(s)
    && (forall i | 0 < i < FLOORS :: s.floors[i].waiting == [])
    && (forall p | p in s.floors[0].waiting :: p.dest == 0)
  }

  lemma NobodyToBoard(s: State)
    requires OnlyBlocked(s)
    ensures Boarding(Moved(s)) == 0
  {
    hide Good;
    var t := Moved(s);
    var cur := t.car.current;
    var queue := t.floors[cur].waiting;
    if cur == 0 {
      assert t.car.up;
      assert queue[0] in queue;
    }
  }

  lemma OnlyBlockedRound(s: State)
    requires OnlyBlocked(s)
    ensures OnlyBlocked(Round(s)) && PosOf(Round(s).car) == Next(PosOf(s.car))
  {
    hide Good, LoadPhase, MovePhase;
    assert SomebodyWaits(s);
    NobodyToBoard(s);
    RoundOutcome(s);
    IdleRound(s);
    assert Round(s).floors[0].waiting == s.floors[0].waiting;
  }

  lemma {:induction false} OnlyBlockedRounds(s: State, n: nat)
    requires OnlyBlocked(s)
    ensures OnlyBlocked(Rounds(s, n)) && PosOf(Rounds(s, n).car) == After(PosOf(s.car), n)
  {
    hide OnlyBlocked, Round, Next, PosOf, Good;
    if n > 0 {
      OnlyBlockedRounds(s, n - 1);
      OnlyBlockedRound(Rounds(s, n - 1));
    }
  }

  const LONER := Passenger(0, Adult, 0, 0)

  /** The elevator is started, and somebody at the bottom asks for the bottom. */
  function Calls(): seq<Action> {
    [StartCall] + [Check(1, 1, 1)] + [Enqueue(LONER)]
  }

  lemma Admitted()
    ensures Run(Start(), [StartCall] + [Check(1, 1, 1)]) ==
      Sys(StartElevator(Initial()), LoadNext, 0, {LONER}, 1)
  {
    hide LoadPhase, MovePhase, Safe, Typed;
    RunOne(Start(), StartCall);
    RunSnoc(Start(), [StartCall], Check(1, 1, 1));
  }

  lemma Enqueued(m: Sys)
    requires m == Sys(StartElevator(Initial()), LoadNext, 0, {LONER}, 1) && Safe(m)
    ensures var s := Step(m, Enqueue(LONER)).state;
      && s.car == Initial().car.(status := Idle) && s.floors[0].waiting == [LONER]
      && forall i | 0 < i < FLOORS :: s.floors[i].waiting == []
    ensures Step(m, Enqueue(LONER)).turn == LoadNext
  {
    hide LoadPhase, MovePhase;
  }

  lemma Called()
    ensures var m := Run(Start(), Calls());
      && Inv(m) && m.turn == LoadNext && PosOf(m.state.car) == PosAt(0)
      && m.state.car.status == Idle && !m.state.car.shutdown
      && !SomebodyAboard(m.state) && m.state.floors[0].waiting == [LONER]
      && forall i | 0 < i < FLOORS :: m.state.floors[i].waiting == []
  {
    hide Inv, Good, Run, Step;
    EveryRunIsSafe(Calls());
    Admitted();
    Enqueued(Run(Start(), [StartCall] + [Check(1, 1, 1)]));
    RunSnoc(Start(), [StartCall] + [Check(1, 1, 1)], Enqueue(LONER));
  }

  /** The doors open and nobody gets in. */
  lemma Opened(m: Sys)
    requires Inv(m) && m.turn == LoadNext && PosOf(m.state.car) == PosAt(0)
    requires m.state.car.status == Idle && !m.state.car.shutdown
    requires !SomebodyAboard(m.state) && m.state.floors[0].waiting == [LONER]
    requires forall i | 0 < i < FLOORS :: m.state.floors[i].waiting == []
    ensures var r := Step(m, Worker);
      Inv(r) && r.turn == MoveNext && OnlyBlocked(r.state) && PosOf(r.state.car) == PosAt(0)
  {
    hide Inv, Good, LoadPhase, MovePhase;
    StepKeepsInv(m, Worker);
    LoadPhaseOutcome(m.state);
    assert Boarding(m.state) == 0;
    assert forall j :: Pick(AtDest, j, []) == [];
    assert LONER in Step(m, Worker).state.floors[0].waiting;
  }

  /** A car on duty with somebody waiting at the bottom for the bottom: a start and a request do it. */
  lemma BlockedIsReachable()
    ensures exists acts :: var m := Run(Start(), acts);
      m.turn == MoveNext && m.state.car.status != Offline && !m.state.car.shutdown && Blocked(m.state)
  {
    hide Inv, Good, Step, Run, Calls;
    var m := Run(Start(), Calls());
    Called();
    Opened(m);
    RunSnoc(Start(), Calls(), Worker);
    var acts := Calls() + [Worker];
    assert OnlyBlocked(Run(Start(), acts).state);
  }

  /** A stop, the worker's next phase, and a start. */
  function StopStart(): seq<Action> {
    [StopCall] + [Worker] + [StartCall]
  }

  /** A stop while the empty car is headed down, and then a start. */
  lemma StopAndStart(r: Sys)
    requires Inv(r) && r.turn == MoveNext && OnlyBlocked(r.state) && !r.state.car.up
    ensures PosOf(Run(r, StopStart()).state.car) == STALE
  {
    hide Inv, Good, LoadPhase, Run;
    RunOne(r, StopCall);
    RunSnoc(r, [StopCall], Worker);
    RunSnoc(r, [StopCall] + [Worker], StartCall);
    assert SomebodyWaits(r.state);
  }

  /** Half a sweep later the car is at the top, headed down. */
  lemma HalfSweep(t: Sys)
    requires Inv(t) && t.turn == MoveNext && OnlyBlocked(t.state) && PosOf(t.state.car) == PosAt(0)
    ensures var r := Run(t, Workers(18));
      Inv(r) && r.turn == MoveNext && OnlyBlocked(r.state) && !r.state.car.up
  {
    hide Inv, OnlyBlocked, Step, Run, Workers, Rounds;
    WorkersAreRounds(t, 9);
    OnlyBlockedRounds(t.state, 9);
    ClosedForm(PosAt(0), 9);
    RunKeepsInv(t, Workers(2 * 9));
  }

  lemma RunThree(m: Sys, a: seq<Action>, b: seq<Action>, c: seq<Action>)
    requires Safe(m)
    ensures Run(m, a + (b + c)) == Run(Run(Run(m, a), b), c)
  {
    hide *;
    RunConcat(m, a, b + c);
    RunConcat(Run(m, a), b, c);
  }

  lemma StaleAfterCalls(m: Sys)
    requires Inv(m) && m.turn == LoadNext && OnlyBlocked(Step(m, Worker).state)
    requires Step(m, Worker).turn == MoveNext && PosOf(Step(m, Worker).state.car) == PosAt(0)
    ensures PosOf(Run(m, [Worker] + (Workers(18) + StopStart())).state.car) == STALE
  {
    hide Inv, OnlyBlocked, Step, Run, Workers, StopStart;
    StepKeepsInv(m, Worker);
    RunOne(m, Worker);
    HalfSweep(Step(m, Worker));
    StopAndStart(Run(Run(m, [Worker]), Workers(18)));
    RunThree(m, [Worker], Workers(18), StopStart());
  }

  /** Some run of the module stops the car headed down and restarts it so. */
  lemma StaleIsReachable()
    ensures exists acts :: PosOf(Run(Start(), acts).state.car) == STALE
  {
    hide Inv, OnlyBlocked, Step, Run, Workers, StopStart, Calls, Start, Safe, PosOf;
    var m := Run(Start(), Calls());
    Called();
    Opened(m);
    hide Typed;
    StaleAfterCalls(m);
    RunConcat(Start(), Calls(), [Worker] + (Workers(18) + StopStart()));
  }
}
