/** When a rider gets off: after an exact number of move phases, whatever the system calls do. */
module Delivery {
  import opened Types
  import opened Lists
  import opened Sweep
  import opened Machine
  import opened System
  import opened Safety
  import opened Loading
  import opened Invariant
  import opened Ledger

  ghost predicate Aboard(m: Sys, p: Passenger)
    requires Safe(m) && InBuilding(p.dest)
  {
    p in m.state.car.riders[p.dest]
  }

  /** Move phases until the car has reached the rider's floor. */
  ghost function Remaining(m: Sys, p: Passenger): nat
    requires Safe(m) && InBuilding(p.dest)
  {
    if m.turn == LoadNext && m.state.car.current == p.dest then 0
    else MovesTo(PosOf(m.state.car), p.dest)
  }

  /** `p` gets off in the load phase that follows move phase number `due`, neither sooner nor later. */
  ghost predicate OnSchedule(m: Sys, p: Passenger, due: nat)
    requires Safe(m) && InBuilding(p.dest)
  {
    if Aboard(m, p) then m.moves + Remaining(m, p) == due
    else p in m.state.log.delivered && (m.moves > due || (m.moves == due && m.turn == MoveNext))
  }

  lemma LoadKeepsSchedule(m: Sys, p: Passenger, due: nat)
    requires Inv(m) && m.turn == LoadNext && WellFormed(p) && OnSchedule(m, p, due)
    ensures OnSchedule(Step(m, Worker), p, due)
  {
    var s, r := m.state, Step(m, Worker);
    LoadPhaseOutcome(s);
    StepKeepsInv(m, Worker);
    ExactlyOnePlace(m, p);
    ExactlyOnePlace(r, p);
    if Aboard(m, p) {
      if s.car.current == p.dest {
        assert p in r.state.log.delivered;
      } else {
        assert p in r.state.car.riders[p.dest];
      }
    } else {
      assert p in r.state.log.delivered;
    }
  }

  lemma MoveKeepsSchedule(m: Sys, p: Passenger, due: nat)
    requires Inv(m) && m.turn == MoveNext && WellFormed(p) && OnSchedule(m, p, due)
    ensures OnSchedule(Step(m, Worker), p, due)
  {
    if Aboard(m, p) {
      MovesWithRiders(m.state, p.dest);
      Countdown(PosOf(m.state.car), p.dest);
      assert PosOf(Step(m, Worker).state.car) == Next(PosOf(m.state.car));
    }
  }

  lemma CallKeepsSchedule(m: Sys, a: Action, p: Passenger, due: nat)
    requires Inv(m) && a != Worker && WellFormed(p) && OnSchedule(m, p, due)
    ensures OnSchedule(Step(m, a), p, due)
  {
    hide Inv, Good;
    if Aboard(m, p) {
      assert SomebodyAboard(m.state);
      OfflineIsEmpty(m.state);
    }
  }

  lemma StepKeepsSchedule(m: Sys, a: Action, p: Passenger, due: nat)
    requires Inv(m) && WellFormed(p) && OnSchedule(m, p, due)
    ensures OnSchedule(Step(m, a), p, due) && Step(m, a).moves >= m.moves
  {
    if a != Worker {
      CallKeepsSchedule(m, a, p, due);
    } else if m.turn == LoadNext {
      LoadKeepsSchedule(m, p, due);
    } else {
      MoveKeepsSchedule(m, p, due);
    }
  }

  lemma {:induction false} RunKeepsSchedule(m: Sys, acts: seq<Action>, p: Passenger, due: nat)
    requires Inv(m) && WellFormed(p) && OnSchedule(m, p, due)
    ensures OnSchedule(Run(m, acts), p, due)
    ensures Inv(Run(m, acts)) && Run(m, acts).moves >= m.moves
  {
    if acts != [] {
      var n := |acts| - 1;
      RunKeepsSchedule(m, acts[..n], p, due);
      StepKeepsInv(Run(m, acts[..n]), acts[n]);
      StepKeepsSchedule(Run(m, acts[..n]), acts[n], p, due);
    }
  }

  /** A rider stays aboard for exactly `Remaining` more move phases and gets off in the load phase that
      follows, in every run. */
  lemma ExactDelivery(m: Sys, acts: seq<Action>, p: Passenger)
    requires Inv(m) && WellFormed(p) && Aboard(m, p)
    ensures var r := Run(m, acts);
      var k, trip := r.moves - m.moves, Remaining(m, p);
      && (Aboard(r, p) <==> k < trip || (k == trip && r.turn == LoadNext))
      && (p in r.state.log.delivered <==> !Aboard(r, p))
  {
    RunKeepsSchedule(m, acts, p, m.moves + Remaining(m, p));
    ExactlyOnePlace(Run(m, acts), p);
  }

  /** The length of a trip in moves. Someone bound for the floor they start from rides the car until
      it comes back: they board on the way down (or, at the bottom, right after a restart). */
  function TripTime(p: Passenger): nat {
    if p.dest > p.start then p.dest - p.start
    else if p.dest < p.start then p.start - p.dest
    else if p.start <= 0 then 2
    else 2 * p.start
  }

  lemma TripLength(pos: Pos, p: Passenger)
    requires Valid(pos) && WellFormed(p) && p.start == pos.current && GoesUp(p) == pos.up
    ensures MovesTo(pos, p.dest) == TripTime(p) <= 18
  {
    if p.start == p.dest {
      ReturnTrip(pos);
    } else {
      AheadIsDirect(pos, p.dest);
    }
  }

  /** Whoever boards in a load phase does so at their start floor, going the car's way. */
  lemma BoardingPlace(m: Sys, p: Passenger)
    requires Inv(m) && m.turn == LoadNext
    requires p !in m.state.log.boarded && p in Step(m, Worker).state.log.boarded
    ensures WellFormed(p) && p.start == m.state.car.current && (p.dest > p.start) == m.state.car.up
    ensures Aboard(Step(m, Worker), p)
  {
    var s := m.state;
    LoadPhaseOutcome(s);
    var queue := s.floors[s.car.current].waiting;
    var n := Boarding(s);
    var load := LoadOf(s.car.riders[s.car.current := []]);
    assert p in queue[..n];
    var k :| 0 <= k < n && queue[k] == p;
    LongestPrefix(load, s.car.up, queue, n);
    assert Boardable(load, s.car.up, queue, k);
    assert p in queue;
    PickCount(AtDest, p.dest, queue[..n], p);
    assert p in Pick(AtDest, p.dest, queue[..n]);
  }

  /** From boarding to getting off, in every interleaving: |dest - start| move phases for everyone
      who changes floors, and never more than 18 for those who do not. */
  lemma BoardedThenDelivered(m: Sys, p: Passenger, acts: seq<Action>)
    requires Inv(m) && m.turn == LoadNext
    requires p !in m.state.log.boarded && p in Step(m, Worker).state.log.boarded
    ensures var boarded := Step(m, Worker); var r := Run(boarded, acts);
      var k := r.moves - boarded.moves;
      p in r.state.log.delivered <==> k > TripTime(p) || (k == TripTime(p) && r.turn == MoveNext)
    ensures TripTime(p) <= 18
  {
    hide Inv, Good;
    var t := Step(m, Worker);
    StepKeepsInv(m, Worker);
    BoardingPlace(m, p);
    LoadPhaseOutcome(m.state);
    TripLength(PosOf(t.state.car), p);
    ExactDelivery(t, acts, p);
  }
}
