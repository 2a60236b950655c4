/** The kernel module: the worker thread's two phases, the three system calls, and the exit. */
module Kernel {
  import opened Types
  import opened Lists
  import opened Sweep
  import opened Structures
  import Machine
  import System
  import Invariant
  import Safety
  import Ledger

  type Action = System.Action

  class Module {
    const e: Elevator
    const b: Building
    var pending: set<Passenger>
    var tickets: nat
    ghost var turn: System.Turn
    ghost var moves: nat

    ghost function View(): System.Sys
      reads this, b, b.f, b.e, b.e.p
    {
      System.Sys(b.View(), turn, moves, pending, tickets)
    }

    ghost predicate Valid()
      reads this, b, b.f, b.e, b.e.p
    {
      b.e == e && b.Shape() && Invariant.Inv(View())
    }

    constructor ()
      ensures Valid() && View() == System.Start()
      ensures fresh(b) && fresh(b.f) && fresh(e) && fresh(e.p)
    {
      var car := new Elevator();
      e := car;
      b := new Building(car);
      pending, tickets, turn, moves := {}, 0, System.LoadNext, 0;
      new;
      assert View() == System.Start();
      Invariant.StartInv();
    }

    // ---------- The worker thread ----------

    /** The unloading loop over the riders for the current floor. The node after the current one is
        remembered before the current one is deleted. Between any two nodes all is well. */
    method UnloadRiders()
      requires b.e == e && b.Valid() && Safety.Good(b.View()) && e.status != Offline
      modifies b.f, e`load, e.p, b`log
      ensures b.Valid() && Safety.Good(b.View())
      ensures b.View() == Machine.UnloadFrom(old(b.View()), old(e.p[e.current]))
    {
      hide Safety.Good;
      var rest := e.p[e.current];
      ghost var goal := Machine.UnloadFrom(b.View(), rest);
      while rest != []
        invariant b.Valid() && rest == e.p[e.current]
        invariant Safety.Good(b.View()) && e.status != Offline
        invariant Machine.UnloadFrom(b.View(), rest) == goal
        decreases |rest|
      {
        var p := rest[0];
        assert p in rest;
        rest := rest[1..];
        if p.dest == e.current {
          Safety.DelPassGood(b.View(), p);
          b.DelPass(p);
        }
      }
    }

    /** The loading loop over the queue of the current floor. Between any two passengers the counters
        agree with the lists and the car is within both limits. */
    method BoardWaiting()
      requires b.e == e && b.Valid() && Safety.Good(b.View()) && e.status != Offline
      modifies b.f, e`load, e.p, b`log
      ensures b.Valid() && Safety.Good(b.View())
      ensures b.View() == Machine.BoardFrom(old(b.View()), old(b.f[e.current].waiting))
    {
      hide Safety.Good;
      var rest := b.f[e.current].waiting;
      ghost var goal := Machine.BoardFrom(b.View(), rest);
      while rest != []
        invariant b.Valid() && rest == b.f[e.current].waiting
        invariant Safety.Good(b.View()) && e.status != Offline
        invariant Machine.BoardFrom(b.View(), rest) == goal
        decreases |rest|
      {
        var p := rest[0];
        assert p in rest;
        rest := rest[1..];
        if CanFit(p, e.load) && GoesUp(p) == e.up {
          if p.start == e.current {
            Safety.MovePassGood(b.View(), p);
            b.MovePass(p);
          }
        } else {
          break;
        }
      }
    }

    /** With the doors open: everybody for this floor gets off, then those who can get on. */
    method LetOffAndOn()
      requires b.e == e && b.Valid() && Safety.Good(b.View()) && e.status == Loading
      modifies b.f, e`load, e.p, b`log
      ensures b.Valid()
      ensures b.View() == var unloaded := Machine.UnloadFrom(old(b.View()), old(e.p[e.current]));
        if unloaded.floors[e.current].waiting != [] && !e.shutdown
        then Machine.BoardFrom(unloaded, unloaded.floors[e.current].waiting) else unloaded
    {
      hide Safety.Good, Machine.UnloadFrom, Machine.BoardFrom;
      UnloadNothing(b.View());
      if e.p[e.current] != [] {
        UnloadRiders();
      }
      var somebody := b.CheckFloor(e.current);
      if somebody && !e.shutdown {
        BoardWaiting();
      }
    }

    method LoadPhase()
      requires Valid() && turn == System.LoadNext
      modifies this`turn, b.f, e, e.p, b`log
      ensures Valid() && View() == System.Step(old(View()), System.Worker)
    {
      hide Invariant.Inv, Safety.Good, Machine.UnloadFrom, Machine.BoardFrom;
      ghost var was := View();
      if e.status != Offline {
        if b.f[e.current].waiting != [] || e.p[e.current] != [] {
          e.status := Loading;
          Safety.OpenGood(was.state, b.View());
          LetOffAndOn();
        }
      }
      turn := System.MoveNext;
      assert b.View() == Machine.LoadPhase(was.state);
      Invariant.StepKeepsInv(was, System.Worker);
    }

    /** One floor on, turning at either end. */
    method Advance()
      requires b.e == e && b.Valid()
      modifies e`status, e`current, e`next, e`up
      ensures e.View() == Machine.Advance(old(e.View()))
    {
      if e.next == 0 {
        e.current := e.next;
        e.next := e.next + 1;
        e.up := true;
        e.status := Up;
      } else if e.next == 9 {
        e.current := e.next;
        e.next := e.next - 1;
        e.up := false;
        e.status := Down;
      } else if e.up {
        e.status := Up;
        e.current := e.next;
        e.next := e.next + 1;
      } else {
        e.status := Down;
        e.current := e.next;
        e.next := e.next - 1;
      }
    }

    method MovePhase()
      requires Valid() && turn == System.MoveNext
      modifies this`turn, this`moves, e
      ensures Valid() && View() == System.Step(old(View()), System.Worker)
    {
      hide Invariant.Inv, Safety.Good;
      ghost var was := View();
      if e.status != Offline {
        var waiting := b.CheckBuilding();
        var servicing := b.CheckElevator();
        if !servicing && !waiting {
          e.status := Idle;
        } else if !servicing && e.shutdown {
          e.status := Offline;
        } else {
          Advance();
        }
      }
      turn, moves := System.LoadNext, moves + 1;
      assert b.View() == Machine.MovePhase(was.state);
      Invariant.StepKeepsInv(was, System.Worker);
    }

    // ---------- System calls ----------

    /** The part of a request before the lock: range checks, the shutdown flag, the allocation. */
    method RequestCheck(kind: int, from: int, to: int) returns (code: int)
      requires Valid()
      modifies this`pending, this`tickets
      ensures Valid() && View() == System.Step(old(View()), System.Check(kind, from, to))
      ensures code == 1 <==> View() == old(View())
      ensures code == 0 <==> 1 <= kind <= 4 && 1 <= from <= 10 && 1 <= to <= 10 && !e.shutdown
      ensures code == 0 ==>
        var p := Passenger(old(tickets), [Adult, Child, Room, Bell][kind - 1], from - 1, to - 1);
        && p !in old(pending) && pending == old(pending) + {p} && tickets == old(tickets) + 1
        && Weight(p) == [2, 1, 4, 8][kind - 1] && Seats(p) == [1, 1, 2, 2][kind - 1]
    {
      hide Invariant.Inv, Safety.Good;
      ghost var was := View();
      if kind < 1 || kind > 4 { return 1; }
      if from < 1 || from > 10 { return 1; }
      if to < 1 || to > 10 { return 1; }
      if e.shutdown { return 1; }
      var p := Passenger(tickets, System.KindOf(kind - 1), from - 1, to - 1);
      pending := pending + {p};
      tickets := tickets + 1;
      Ledger.RequestCounted(was, kind, from, to);
      Invariant.StepKeepsInv(was, System.Check(kind, from, to));
      return 0;
    }

    /** The part of a request under the lock. The shutdown flag is not looked at again. */
    method RequestEnqueue(p: Passenger)
      requires Valid() && p in pending
      modifies this`pending, b.f, b`log
      ensures Valid() && View() == System.Step(old(View()), System.Enqueue(p))
    {
      hide Invariant.Inv, Safety.Good;
      ghost var was := View();
      b.AddPass(p);
      pending := pending - {p};
      Invariant.StepKeepsInv(was, System.Enqueue(p));
    }

    method StartElevator() returns (code: int)
      requires Valid()
      modifies e
      ensures Valid() && View() == System.Step(old(View()), System.StartCall)
      ensures code == if old(e.status) == Offline then 0 else 1
    {
      hide Invariant.Inv, Safety.Good;
      ghost var was := View();
      code := 0;
      if e.status != Offline {
        code := 1;
      } else {
        e.status := Idle;
        e.current := 0;
        e.next := 1;
        e.shutdown := false;
      }
      Invariant.StepKeepsInv(was, System.StartCall);
    }

    method StopElevator() returns (code: int)
      requires Valid()
      modifies e`shutdown
      ensures Valid() && View() == System.Step(old(View()), System.StopCall)
      ensures code == if old(e.shutdown) then 1 else 0
    {
      hide Invariant.Inv, Safety.Good;
      ghost var was := View();
      code := 0;
      if e.shutdown {
        code := 1;
      } else {
        e.shutdown := true;
      }
      Invariant.StepKeepsInv(was, System.StopCall);
    }

    // ---------- The thread and its environment ----------

    /** The system calls that get in while the worker sleeps, in the order in which they do. */
    method Serve(calls: seq<Action>)
      requires Valid() && System.Worker !in calls
      modifies this, b.f, e, e.p, b`log
      ensures Valid() && View() == System.Run(old(View()), calls)
      ensures turn == old(turn)
    {
      hide Invariant.Inv, Safety.Good;
      ghost var was := View();
      var i := 0;
      while i < |calls|
        invariant 0 <= i <= |calls| && Valid() && turn == was.turn
        invariant View() == System.Run(was, calls[..i])
      {
        assert calls[..i + 1][..i] == calls[..i];
        assert calls[i] in calls;
        match calls[i] {
          case Check(kind, from, to) => var _ := RequestCheck(kind, from, to);
          case Enqueue(p) => if p in pending { RequestEnqueue(p); }
          case StartCall => var _ := StartElevator();
          case StopCall => var _ := StopElevator();
        }
        i := i + 1;
      }
      assert calls[..|calls|] == calls;
    }

    /** One round of the worker thread, with the system calls of its two sleeps. */
    method Round(first: seq<Action>, second: seq<Action>)
      requires Valid() && turn == System.LoadNext && System.Worker !in first && System.Worker !in second
      modifies this, b.f, e, e.p, b`log
      ensures Valid() && turn == System.LoadNext
      ensures View() == System.Run(old(View()), OneRound(first, second))
    {
      hide Invariant.Inv, Safety.Good, Machine.LoadPhase, Machine.MovePhase, Machine.Typed;
      ghost var was := View();
      LoadPhase();
      Serve(first);
      MovePhase();
      Serve(second);
      RoundRun(was, first, second);
    }

    /** The worker thread for as many rounds as the environment gives: the system calls that get in
        before its first phase, then each round with those of its two sleeps. The final state is that
        of the run of all these steps in order. */
    method RunElevator(before: seq<Action>, sleeps: seq<(seq<Action>, seq<Action>)>)
      requires Valid() && turn == System.LoadNext && System.Worker !in before
      requires forall s | s in sleeps :: System.Worker !in s.0 && System.Worker !in s.1
      modifies this, b.f, e, e.p, b`log
      ensures Valid() && View() == System.Run(old(View()), before + Schedule(sleeps))
    {
      assert before + Schedule(sleeps[..0]) == before;
      hide Invariant.Inv, Safety.Good, Machine.Typed, System.Step, System.Run, Schedule, OneRound;
      ghost var was := View();
      Serve(before);
      var i := 0;
      while i < |sleeps|
        invariant 0 <= i <= |sleeps| && Valid() && turn == System.LoadNext
        invariant View() == System.Run(was, before + Schedule(sleeps[..i]))
      {
        assert sleeps[i] in sleeps;
        Round(sleeps[i].0, sleeps[i].1);
        OneRoundMore(was, before, sleeps, i);
        i := i + 1;
      }
      assert sleeps[..|sleeps|] == sleeps;
    }

    // ---------- Exit ----------

    /** Frees the riders for floor `i`, one node at a time. */
    method FreeRiders(i: int)
      requires b.e == e && b.Shape() && 0 <= i < FLOORS
      modifies e.p, b`log
      ensures e.p[..] == old(e.p[..])[i := []]
      ensures b.log == old(b.log).(discarded := old(b.log).discarded + old(e.p[i]))
    {
      var rest := e.p[i];
      ghost var freed := [];
      while rest != []
        invariant rest == e.p[i] && freed + rest == old(e.p[i])
        invariant e.p[..] == old(e.p[..])[i := rest]
        invariant b.log == old(b.log).(discarded := old(b.log).discarded + freed)
        decreases |rest|
      {
        var p := rest[0];
        rest := rest[1..];
        e.p[i] := Remove(e.p[i], p);
        b.log := b.log.(discarded := b.log.discarded + [p]);
        assert old(b.log).discarded + freed + [p] == old(b.log).discarded + (freed + [p]);
        freed := freed + [p];
      }
      assert freed + rest == freed;
    }

    /** Frees the queue of floor `i`, one node at a time; the floor's counters are left alone. */
    method FreeWaiting(i: int)
      requires b.e == e && b.Shape() && 0 <= i < FLOORS
      modifies b.f, b`log
      ensures b.f[..] == old(b.f[..])[i := old(b.f[i]).(waiting := [])]
      ensures b.log == old(b.log).(discarded := old(b.log).discarded + old(b.f[i].waiting))
    {
      var rest := b.f[i].waiting;
      ghost var freed := [];
      while rest != []
        invariant rest == b.f[i].waiting && freed + rest == old(b.f[i].waiting)
        invariant b.f[..] == old(b.f[..])[i := old(b.f[i]).(waiting := rest)]
        invariant b.log == old(b.log).(discarded := old(b.log).discarded + freed)
        decreases |rest|
      {
        var p := rest[0];
        rest := rest[1..];
        b.f[i] := b.f[i].(waiting := Remove(b.f[i].waiting, p));
        b.log := b.log.(discarded := b.log.discarded + [p]);
        assert old(b.log).discarded + freed + [p] == old(b.log).discarded + (freed + [p]);
        freed := freed + [p];
      }
      assert freed + rest == freed;
    }

    /** Frees everybody listed at floor `i`: the riders bound for it, then those who wait there. */
    method FreeFloor(i: int)
      requires b.e == e && b.Shape() && 0 <= i < FLOORS
      modifies b.f, e.p, b`log
      ensures e.p[..] == old(e.p[..])[i := []]
      ensures b.f[..] == old(b.f[..])[i := old(b.f[i]).(waiting := [])]
      ensures b.log == old(b.log).(discarded := old(b.log).discarded + old(e.p[i]) + old(b.f[i].waiting))
    {
      if e.p[i] != [] {
        FreeRiders(i);
      }
      assert b.log == old(b.log).(discarded := old(b.log).discarded + old(e.p[i]));
      if b.f[i].waiting != [] {
        FreeWaiting(i);
      }
    }

    /** Empties the twenty lists, floor by floor. Every passenger ever queued has then been freed,
        exactly once; only those of requests still in flight are left. */
    method ElevatorExit()
      requires Valid()
      modifies b.f, e.p, b`log
      ensures b.View() == Machine.Exit(old(b.View()))
      ensures multiset(b.log.delivered + b.log.discarded) == multiset(b.log.accepted)
      ensures |b.log.delivered + b.log.discarded| + |pending| == tickets
      ensures b.log.discarded == Ledger.FreedInOrder(old(b.View()))
    {
      hide Invariant.Inv, Safety.Good, Machine.Typed, Machine.Exit, Freed;
      ghost var was := View();
      ghost var s := was.state;
      NothingFreed(s);
      var i := 0;
      while i < FLOORS
        invariant 0 <= i <= FLOORS && b.Shape()
        invariant b.View() == Freed(s, i)
      {
        FreeFloor(i);
        FreedNext(s, i);
        i := i + 1;
      }
      AllFreed(s);
      Ledger.ExitFreesEverything(was);
    }
  }

  /** The state in which the exit has freed the first `n` floors. */
  ghost function Freed(s: State, n: nat): State
    requires |s.car.riders| == FLOORS && |s.floors| == FLOORS && n <= FLOORS
  {
    s.(car := s.car.(riders := seq(FLOORS, k requires 0 <= k < FLOORS => if k < n then [] else s.car.riders[k])),
       floors := seq(FLOORS, k requires 0 <= k < FLOORS =>
                       if k < n then s.floors[k].(waiting := []) else s.floors[k]),
       log := s.log.(discarded := s.log.discarded + Machine.Drained(s, n)))
  }

  lemma NothingFreed(s: State)
    requires |s.car.riders| == FLOORS && |s.floors| == FLOORS
    ensures Freed(s, 0) == s
  {
    assert Freed(s, 0).car.riders == s.car.riders;
    assert Freed(s, 0).floors == s.floors;
    assert s.log.discarded + [] == s.log.discarded;
  }

  lemma FreedNext(s: State, i: nat)
    requires |s.car.riders| == FLOORS && |s.floors| == FLOORS && i < FLOORS
    ensures var t, r := Freed(s, i), Freed(s, i + 1);
      && r.car == t.car.(riders := t.car.riders[i := []])
      && r.floors == t.floors[i := t.floors[i].(waiting := [])]
      && r.log == t.log.(discarded := t.log.discarded + t.car.riders[i] + t.floors[i].waiting)
  {
    var done := Machine.Drained(s, i);
    assert s.log.discarded + (done + s.car.riders[i] + s.floors[i].waiting)
        == s.log.discarded + done + s.car.riders[i] + s.floors[i].waiting;
  }

  lemma AllFreed(s: State)
    requires Machine.Typed(s)
    ensures Freed(s, FLOORS) == Machine.Exit(s) && Machine.Exit(s).log.accepted == s.log.accepted
  {
    assert Freed(s, FLOORS).car.riders == Machine.Exit(s).car.riders;
    assert Freed(s, FLOORS).floors == Machine.Exit(s).floors;
  }

  lemma UnloadNothing(s: State)
    requires Machine.Typed(s)
    ensures Machine.UnloadFrom(s, []) == s
  {}

  function OneRound(first: seq<Action>, second: seq<Action>): seq<Action> {
    [System.Worker] + first + [System.Worker] + second
  }

  function Schedule(sleeps: seq<(seq<Action>, seq<Action>)>): seq<Action> {
    if sleeps == [] then []
    else Schedule(sleeps[..|sleeps| - 1]) + OneRound(sleeps[|sleeps| - 1].0, sleeps[|sleeps| - 1].1)
  }

  lemma RoundRun(m: System.Sys, first: seq<Action>, second: seq<Action>)
    requires System.Safe(m)
    ensures System.Run(m, OneRound(first, second)) ==
      System.Run(System.Step(System.Run(System.Step(m, System.Worker), first), System.Worker), second)
  {
    hide Machine.LoadPhase, Machine.MovePhase, Machine.Typed;
    var w := [System.Worker];
    System.RunConcat(m, w + first + w, second);
    System.RunConcat(m, w + first, w);
    System.RunConcat(m, w, first);
    System.RunOne(m, System.Worker);
    System.RunOne(System.Run(m, w + first), System.Worker);
  }

  /** Every sequence of steps is such a schedule, possibly cut off in the middle of its last round: the
      worker's phases and the calls between them. So `RunElevator` leaves no interleaving out. */
  lemma {:induction false} EveryRunIsASchedule(acts: seq<Action>)
    returns (before: seq<Action>, sleeps: seq<(seq<Action>, seq<Action>)>, cut: seq<Action>)
    ensures acts == before + Schedule(sleeps) + cut
    ensures System.Worker !in before
    ensures forall s | s in sleeps :: System.Worker !in s.0 && System.Worker !in s.1
    ensures cut == [] || (cut[0] == System.Worker && System.Worker !in cut[1..])
  {
    hide OneRound;
    if acts == [] {
      before, sleeps, cut := [], [], [];
      assert Schedule([]) == [];
    } else {
      var n := |acts| - 1;
      var a := acts[n];
      assert acts == acts[..n] + [a];
      before, sleeps, cut := EveryRunIsASchedule(acts[..n]);
      if a != System.Worker && cut != [] {
        assert (cut + [a])[1..] == cut[1..] + [a];
        assert acts == before + Schedule(sleeps) + (cut + [a]);
        cut := cut + [a];
      } else if a == System.Worker && cut == [] {
        assert acts == before + Schedule(sleeps) + [a];
        cut := [a];
      } else if a == System.Worker {
        CloseRound(sleeps, cut);
        assert acts == before + (Schedule(sleeps) + (cut + [a]));
        sleeps, cut := sleeps + [(cut[1..], [])], [];
      } else if sleeps == [] {
        before := before + [a];
        assert acts == before + Schedule(sleeps) + cut;
      } else {
        var k := |sleeps| - 1;
        ExtendRound(sleeps, a);
        assert sleeps[k] in sleeps;
        sleeps := sleeps[..k] + [(sleeps[k].0, sleeps[k].1 + [a])];
        assert acts == before + Schedule(sleeps) + cut;
      }
    }
  }

  lemma ScheduleSnoc(sleeps: seq<(seq<Action>, seq<Action>)>, first: seq<Action>, second: seq<Action>)
    ensures Schedule(sleeps + [(first, second)]) == Schedule(sleeps) + OneRound(first, second)
  {
    assert (sleeps + [(first, second)])[..|sleeps|] == sleeps;
  }

  lemma ScheduleNext(before: seq<Action>, sleeps: seq<(seq<Action>, seq<Action>)>, i: nat)
    requires i < |sleeps|
    ensures before + Schedule(sleeps[..i + 1]) ==
      before + Schedule(sleeps[..i]) + OneRound(sleeps[i].0, sleeps[i].1)
  {
    hide OneRound;
    assert sleeps[..i + 1][..i] == sleeps[..i];
  }

  lemma OneRoundMore(m: System.Sys, before: seq<Action>, sleeps: seq<(seq<Action>, seq<Action>)>, i: nat)
    requires System.Safe(m) && i < |sleeps|
    ensures System.Run(m, before + Schedule(sleeps[..i + 1])) ==
      System.Run(System.Run(m, before + Schedule(sleeps[..i])), OneRound(sleeps[i].0, sleeps[i].1))
  {
    hide *;
    ScheduleNext(before, sleeps, i);
    System.RunConcat(m, before + Schedule(sleeps[..i]), OneRound(sleeps[i].0, sleeps[i].1));
  }

  lemma CloseRound(sleeps: seq<(seq<Action>, seq<Action>)>, cut: seq<Action>)
    requires cut != [] && cut[0] == System.Worker
    ensures Schedule(sleeps + [(cut[1..], [])]) == Schedule(sleeps) + (cut + [System.Worker])
  {
    ScheduleSnoc(sleeps, cut[1..], []);
    assert OneRound(cut[1..], []) == cut + [System.Worker];
  }

  lemma ExtendRound(sleeps: seq<(seq<Action>, seq<Action>)>, a: Action)
    requires sleeps != []
    ensures var k := |sleeps| - 1;
      Schedule(sleeps[..k] + [(sleeps[k].0, sleeps[k].1 + [a])]) == Schedule(sleeps) + [a]
  {
    hide OneRound;
    var k := |sleeps| - 1;
    var (first, second) := sleeps[k];
    ScheduleSnoc(sleeps[..k], first, second + [a]);
    RoundSnoc(first, second, a);
    AppendAssociates(Schedule(sleeps[..k]), OneRound(first, second), [a]);
  }

  lemma AppendAssociates(a: seq<Action>, b: seq<Action>, c: seq<Action>)
    ensures a + (b + c) == a + b + c
  {}

  lemma RoundSnoc(first: seq<Action>, second: seq<Action>, a: Action)
    ensures OneRound(first, second + [a]) == OneRound(first, second) + [a]
  {}
}
