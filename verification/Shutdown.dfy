/** What a stop does: nobody boards any more, everybody aboard is taken home, and then the car goes
    offline or idles. */
module Shutdown {
  import opened Types
  import opened Lists
  import opened Sweep
  import opened Machine
  import opened System
  import opened Safety
  import opened Loading
  import opened Invariant
  import opened Ledger
  import opened Delivery
  import opened Draining

  /** No start takes effect during the run: each one finds the car not offline. */
  ghost predicate NoRestart(m: Sys, acts: seq<Action>)
    requires Safe(m)
  {
    acts == [] ||
    var n := |acts| - 1;
    NoRestart(m, acts[..n]) && (acts[n] == StartCall ==> Run(m, acts[..n]).state.car.status != Offline)
  }

  /** `r` is a closing state later than `m`: only requests that were in flight have joined a queue. */
  ghost predicate ClosedSince(m: Sys, r: Sys)
    requires Safe(m) && Safe(r)
  {
    && r.state.car.shutdown && r.state.log.boarded == m.state.log.boarded
    && r.pending <= m.pending && r.tickets == m.tickets && r.moves >= m.moves
    && (forall i | 0 <= i < FLOORS :: LateJoins(m.pending, m.state.floors[i].waiting, r.state.floors[i].waiting))
  }

  ghost predicate LateJoins(late: set<Passenger>, before: seq<Passenger>, after: seq<Passenger>) {
    before <= after && forall p | p in after[|before|..] :: p in late
  }

  lemma StepStaysClosed(m: Sys, r: Sys, a: Action)
    requires Safe(m) && Inv(r) && ClosedSince(m, r)
    requires a == StartCall ==> r.state.car.status != Offline
    ensures ClosedSince(m, Step(r, a))
  {
    hide Inv, Good;
    if a == Worker && r.turn == LoadNext {
      LoadPhaseOutcome(r.state);
      assert Step(r, a).state.log.boarded == r.state.log.boarded;
    }
  }

  /** From a stop until a start that takes effect, nobody boards, no request is admitted, and the
      queues change only by late appends of requests already in flight. */
  lemma {:induction false} NobodyBoardsAfterStop(m: Sys, acts: seq<Action>)
    requires Inv(m) && m.state.car.shutdown && NoRestart(m, acts)
    ensures Inv(Run(m, acts)) && ClosedSince(m, Run(m, acts))
  {
    if acts != [] {
      var n := |acts| - 1;
      NobodyBoardsAfterStop(m, acts[..n]);
      StepKeepsInv(Run(m, acts[..n]), acts[n]);
      StepStaysClosed(m, Run(m, acts[..n]), acts[n]);
    }
  }

  /** Within 18 move phases of a stop the car is empty. */
  lemma EveryoneGetsHome(m: Sys, acts: seq<Action>)
    requires Inv(m) && m.state.car.shutdown && NoRestart(m, acts)
    ensures var r := Run(m, acts); var k := r.moves - m.moves;
      k > 18 || (k == 18 && r.turn == MoveNext) ==> !SomebodyAboard(r.state)
  {
    hide Inv, Good;
    var r := Run(m, acts);
    NobodyBoardsAfterStop(m, acts);
    if SomebodyAboard(r.state) {
      var j :| 0 <= j < FLOORS && r.state.car.riders[j] != [];
      var p := r.state.car.riders[j][0];
      assert p in r.state.car.riders[j];
      StillAboard(m, r, acts, p);
      ExactDelivery(m, acts, p);
    }
  }

  /** Whoever rides after the stop was riding at the stop. */
  lemma StillAboard(m: Sys, r: Sys, acts: seq<Action>, p: Passenger)
    requires Inv(m) && Inv(r) && r == Run(m, acts)
    requires r.state.log.boarded == m.state.log.boarded
    requires InBuilding(p.dest) && p in r.state.car.riders[p.dest]
    ensures WellFormed(p) && Aboard(m, p)
  {
    hide Inv, Good;
    Conservation(m.state, p);
    Conservation(r.state, p);
    DeliveredStays(m, acts, p);
    ExactlyOnePlace(r, p);
    assert Rides(r.state, p);
  }

  lemma {:induction false} DeliveredStays(m: Sys, acts: seq<Action>, p: Passenger)
    requires Inv(m)
    ensures p in m.state.log.delivered ==> p in Run(m, acts).state.log.delivered
  {
    hide Inv, Good;
    if acts != [] {
      var t := Run(m, acts[..|acts| - 1]);
      DeliveredStays(m, acts[..|acts| - 1], p);
      RunKeepsInv(m, acts[..|acts| - 1]);
      if acts[|acts| - 1] == Worker && t.turn == LoadNext {
        LoadPhaseOutcome(t.state);
      }
    }
  }

  // ---------- Where the car ends up ----------

  /** A move phase after a stop: the one that finds the car empty decides, offline if somebody waits and
      idle otherwise; before it the car moves, and offline it stays. */
  lemma ParksWhenEmpty(s: State)
    requires Good(s) && s.car.shutdown
    ensures s.car.status == Offline ==> MovePhase(s) == s
    ensures s.car.status != Offline && SomebodyAboard(s) ==> MovePhase(s).car.status in {Up, Down}
    ensures s.car.status != Offline && !SomebodyAboard(s) ==>
      MovePhase(s) == s.(car := s.car.(status := if SomebodyWaits(s) then Offline else Idle))
  {}

  /** A load phase after a stop lets people off and nobody on. */
  lemma ClosingLoad(t: State, r: State)
    requires Typed(t) && Typed(r) && LoadResult(t, r) && t.car.shutdown
    ensures SameQueues(r, t) && r.car.shutdown && r.log.accepted == t.log.accepted
    ensures r.car.status == Offline <==> t.car.status == Offline
    ensures !SomebodyAboard(t) ==> !SomebodyAboard(r)
  {
    assert forall j :: Pick(AtDest, j, []) == [];
  }

  lemma ClosingRound(s: State)
    requires Good(s) && s.car.shutdown && (s.car.status == Offline ==> SomebodyWaits(s))
    ensures var r := Round(s);
      && Good(r) && r.car.shutdown && SameQueues(r, s) && r.log.accepted == s.log.accepted
      && (r.car.status == Offline ==> SomebodyWaits(s))
      && (!SomebodyAboard(s) ==>
            !SomebodyAboard(r) && r.car.status == if SomebodyWaits(s) then Offline else Idle)
  {
    hide Good, LoadPhase, LoadResult;
    var t := MovePhase(s);
    ParksWhenEmpty(s);
    MoveGood(s);
    LoadPhaseGood(t);
    LoadPhaseOutcome(t);
    ClosingLoad(t, Round(s));
    if !SomebodyAboard(s) && !SomebodyWaits(s) {
      IdleLoad(t);
    }
  }

  lemma IdleLoad(t: State)
    requires Typed(t) && !SomebodyAboard(t) && !SomebodyWaits(t)
    ensures LoadPhase(t) == t
  {}

  lemma SameQueuesWaits(r: State, s: State)
    requires |r.floors| == FLOORS && |s.floors| == FLOORS && SameQueues(r, s)
    ensures SomebodyWaits(r) <==> SomebodyWaits(s)
  {}

  ghost predicate ClosingFrom(s: State, r: State)
    requires Typed(s)
  {
    Good(r) && r.car.shutdown && SameQueues(r, s) && (r.car.status == Offline ==> SomebodyWaits(s))
  }

  lemma {:induction false} ClosingRounds(s: State, n: nat)
    requires Good(s) && s.car.shutdown && s.car.status != Offline
    ensures ClosingFrom(s, Rounds(s, n))
  {
    hide Round, Good;
    if n > 0 {
      ClosingRounds(s, n - 1);
      var t := Rounds(s, n - 1);
      SameQueuesWaits(t, s);
      ClosingRound(t);
    }
  }

  lemma {:induction false} ParkedRounds(s: State, n: nat, k: nat)
    requires Good(s) && s.car.shutdown && s.car.status != Offline && n > k
    requires !SomebodyAboard(Rounds(s, k))
    ensures !SomebodyAboard(Rounds(s, n - 1))
    ensures Rounds(s, n).car.status == if SomebodyWaits(s) then Offline else Idle
  {
    hide Round, Good;
    if n - 1 > k {
      ParkedRounds(s, n - 1, k);
    }
    if n > k + 1 {
      ClosingRounds(s, n - 2);
      SameQueuesWaits(Rounds(s, n - 2), s);
      ClosingRound(Rounds(s, n - 2));
    }
    ClosingRounds(s, n - 1);
    SameQueuesWaits(Rounds(s, n - 1), s);
    ClosingRound(Rounds(s, n - 1));
  }

  lemma {:induction false} WorkersNeverStart(m: Sys, k: nat)
    requires Safe(m)
    ensures NoRestart(m, Workers(k))
  {
    if k > 0 {
      WorkersNeverStart(m, k - 1);
      assert Workers(k)[..k - 1] == Workers(k - 1);
    }
  }

  /** The car is empty and shows it: offline if somebody waits, idle if nobody does. */
  ghost predicate Parked(s: State)
    requires Typed(s)
  {
    && s.car.shutdown && !SomebodyAboard(s)
    && s.car.status == if SomebodyWaits(s) then Offline else Idle
  }

  lemma ParksByRound19(m: Sys)
    requires Inv(m) && m.turn == MoveNext && m.state.car.shutdown && m.state.car.status != Offline
    ensures var r := Run(m, Workers(38));
      Inv(r) && Parked(r.state) && SameQueues(r.state, m.state)
  {
    hide Inv, Good, Round, Rounds, Run, NoRestart, Workers;
    WorkersAreRounds(m, 18);
    WorkersAreRounds(m, 19);
    WorkersNeverStart(m, 36);
    EveryoneGetsHome(m, Workers(2 * 18));
    ParkedRounds(m.state, 19, 18);
    ParkedRounds(m.state, 20, 18);
    ClosingRounds(m.state, 19);
    RunKeepsInv(m, Workers(2 * 19));
    SameQueuesWaits(Run(m, Workers(38)).state, m.state);
  }

  lemma WorkerKeepsParked(m: Sys)
    requires Inv(m) && Parked(m.state)
    ensures Parked(Step(m, Worker).state) && SameQueues(Step(m, Worker).state, m.state)
  {
    hide Inv, Good;
    if m.turn == LoadNext && m.state.car.status == Idle {
      IdleLoad(m.state);
    }
  }

  lemma {:induction false} WorkersKeepParked(m: Sys, k: nat)
    requires Inv(m) && Parked(m.state)
    ensures Parked(Run(m, Workers(k)).state) && SameQueues(Run(m, Workers(k)).state, m.state)
  {
    hide Inv, Good, Step, Parked;
    if k > 0 {
      WorkersKeepParked(m, k - 1);
      RunKeepsInv(m, Workers(k - 1));
      assert Workers(k)[..k - 1] == Workers(k - 1);
      WorkerKeepsParked(Run(m, Workers(k - 1)));
    }
  }

  lemma WorkersSplit(m: Sys, j: nat, k: nat)
    requires Safe(m)
    ensures Run(m, Workers(j + k)) == Run(Run(m, Workers(j)), Workers(k))
  {
    assert Workers(j + k) == Workers(j) + Workers(k);
    hide *;
    RunConcat(m, Workers(j), Workers(k));
  }

  lemma ParksOnDuty(m: Sys, k: nat)
    requires Inv(m) && m.state.car.shutdown && m.state.car.status != Offline
    requires k >= 39
    ensures Parked(Run(m, Workers(k)).state) && SameQueues(Run(m, Workers(k)).state, m.state)
  {
    hide Inv, Good, Run, Workers, LoadPhase;
    if m.turn == MoveNext {
      ParksByRound19(m);
      var t := Run(m, Workers(38));
      WorkersKeepParked(t, k - 38);
      WorkersSplit(m, 38, k - 38);
      SameQueuesWaits(t.state, m.state);
    } else {
      var t := Step(m, Worker);
      StepKeepsInv(m, Worker);
      LoadPhaseOutcome(m.state);
      ClosingLoad(m.state, t.state);
      SameQueuesWaits(t.state, m.state);
      ParksByRound19(t);
      var u := Run(t, Workers(38));
      WorkersKeepParked(u, k - 39);
      WorkersSplit(t, 38, k - 39);
      WorkerFirst(m, k - 1);
      SameQueuesWaits(u.state, t.state);
    }
  }

  lemma {:induction false} OfflineStays(m: Sys, k: nat)
    requires Safe(m) && m.state.car.status == Offline
    ensures Run(m, Workers(k)).state == m.state
  {
    hide Typed;
    if k > 0 {
      OfflineStays(m, k - 1);
      assert Workers(k)[..k - 1] == Workers(k - 1);
    }
  }

  /** After a stop, with no more system calls, the car has parked within 39 phases of the worker, for
      good: offline if and only if it was so or somebody was waiting, otherwise idle; the shutdown flag
      stays set, nobody is aboard, and the queues are as they were. */
  lemma StopParks(m: Sys, k: nat)
    requires Inv(m) && m.state.car.shutdown
    requires k >= 39
    ensures var r := Run(m, Workers(k));
      && r.state.car.status == (if m.state.car.status == Offline || SomebodyWaits(m.state) then Offline else Idle)
      && r.state.car.shutdown && !SomebodyAboard(r.state) && SameQueues(r.state, m.state)
  {
    hide Inv, Run, Workers;
    if m.state.car.status == Offline {
      OfflineStays(m, k);
      OfflineIsEmpty(m.state);
    } else {
      ParksOnDuty(m, k);
      SameQueuesWaits(Run(m, Workers(k)).state, m.state);
    }
  }

  // ---------- A stop that cannot be undone ----------

  /** Shut down but not offline, with nobody waiting and no request in flight. */
  ghost predicate Stuck(m: Sys)
    requires Safe(m)
  {
    && m.state.car.shutdown && m.state.car.status != Offline
    && !SomebodyWaits(m.state) && m.pending == {}
  }

  lemma StepStaysStuck(m: Sys, a: Action)
    requires Inv(m) && Stuck(m)
    ensures Stuck(Step(m, a)) && Step(m, a).tickets == m.tickets
  {
    if a == Worker && m.turn == LoadNext {
      LoadPhaseOutcome(m.state);
    }
  }

  lemma {:induction false} StuckForever(m: Sys, acts: seq<Action>)
    requires Inv(m) && Stuck(m)
    ensures Inv(Run(m, acts)) && Stuck(Run(m, acts)) && Run(m, acts).tickets == m.tickets
  {
    hide Inv, Stuck;
    if acts != [] {
      var n := |acts| - 1;
      StuckForever(m, acts[..n]);
      StepKeepsInv(Run(m, acts[..n]), acts[n]);
      StepStaysStuck(Run(m, acts[..n]), acts[n]);
    }
  }

  /** Some continuation admits another request. */
  ghost predicate CanRecover(m: Sys)
    requires Safe(m)
  {
    exists acts :: Run(m, acts).tickets > m.tickets
  }

  lemma RecoverAfter(m: Sys, acts: seq<Action>)
    requires Safe(m) && CanRecover(Run(m, acts)) && Run(m, acts).tickets >= m.tickets
    ensures CanRecover(m)
  {
    var more :| Run(Run(m, acts), more).tickets > Run(m, acts).tickets;
    RunConcat(m, acts, more);
  }

  lemma RecoverOffline(m: Sys)
    requires Safe(m) && m.state.car.status == Offline
    ensures CanRecover(m)
  {
    var t := Step(m, StartCall);
    var r := Step(t, Check(1, 1, 2));
    assert r.tickets == m.tickets + 1;
    assert Run(m, []) == m;
    assert Run(m, [StartCall]) == t by {
      assert [StartCall][..0] == [];
    }
    assert Run(m, [StartCall, Check(1, 1, 2)]) == r by {
      assert [StartCall, Check(1, 1, 2)][..1] == [StartCall];
    }
  }

  lemma RecoverWaiting(m: Sys)
    requires Inv(m) && m.state.car.shutdown && m.state.car.status != Offline && SomebodyWaits(m.state)
    ensures CanRecover(m)
  {
    hide Inv, Run, Workers, CanRecover;
    StopParks(m, 39);
    RecoverOffline(Run(m, Workers(39)));
    WorkersAllocate(m, 39);
    RecoverAfter(m, Workers(39));
  }

  lemma {:induction false} WorkersAllocate(m: Sys, k: nat)
    requires Safe(m)
    ensures Run(m, Workers(k)).tickets == m.tickets
  {
    hide LoadPhase, MovePhase, Typed;
    if k > 0 {
      WorkersAllocate(m, k - 1);
      assert Workers(k)[..k - 1] == Workers(k - 1);
    }
  }

  /** The module can ever admit another request if and only if no stop is in force, or the car is
      offline, or somebody waits, or a request is in flight. Otherwise the car idles with the shutdown
      flag set for ever: a start does nothing because the car is not offline, and every request is
      refused. */
  lemma RecoversExactlyUnlessStuck(m: Sys)
    requires Inv(m)
    ensures CanRecover(m) <==>
      !m.state.car.shutdown || m.state.car.status == Offline || SomebodyWaits(m.state) || m.pending != {}
  {
    hide Inv;
    if !m.state.car.shutdown {
      RunOne(m, Check(1, 1, 2));
      assert Run(m, [Check(1, 1, 2)]).tickets > m.tickets;
    } else if m.state.car.status == Offline {
      RecoverOffline(m);
    } else if SomebodyWaits(m.state) {
      RecoverWaiting(m);
    } else if m.pending != {} {
      RecoverPending(m);
    } else {
      forall acts ensures Run(m, acts).tickets == m.tickets {
        StuckForever(m, acts);
      }
    }
  }

  lemma RecoverPending(m: Sys)
    requires Inv(m) && m.state.car.shutdown && m.state.car.status != Offline && m.pending != {}
    ensures CanRecover(m)
  {
    hide Inv, Good, Run, CanRecover, LoadPhase, MovePhase;
    var p :| p in m.pending;
    RunOne(m, Enqueue(p));
    StepKeepsInv(m, Enqueue(p));
    var t := Step(m, Enqueue(p));
    assert t.state.floors[p.start].waiting != [];
    RecoverWaiting(t);
    RecoverAfter(m, [Enqueue(p)]);
  }

  /** It happens: a start and a stop suffice. */
  lemma StuckIsReachable()
    ensures exists acts :: Stuck(Run(Start(), acts))
  {
    var m := Start();
    RunOne(m, StartCall);
    RunSnoc(m, [StartCall], StopCall);
    assert Stuck(Run(m, [StartCall] + [StopCall]));
  }
}
