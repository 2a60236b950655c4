/** The invariant of the whole module, and that every run keeps it. */
module Invariant {
  import opened Types
  import opened Lists
  import opened Sweep
  import opened Machine
  import opened System
  import opened Safety
  import opened Loading

  /** No rider who wants to change floors travels the wrong way; just before a load phase the car
      may have reached the destination, and just after one it has not. */
  ghost predicate Heading(m: Sys)
    requires Safe(m)
  {
    forall j, p | 0 <= j < FLOORS && p in m.state.car.riders[j] && p.start != p.dest ::
      Ahead(PosOf(m.state.car), j) || (m.turn == LoadNext && j == m.state.car.current)
  }

  ghost predicate Allocated(m: Sys, p: Passenger) {
    p in m.pending || p in m.state.log.accepted
  }

  /** Every allocation has its own id, and is still pending or was queued, exactly once. */
  ghost predicate Tickets(m: Sys) {
    && (forall p | Allocated(m, p) :: p.id < m.tickets)
    && (forall p, q | Allocated(m, p) && Allocated(m, q) && p.id == q.id :: p == q)
    && (forall p | p in m.pending :: p !in m.state.log.accepted)
    && (forall p :: multiset(m.state.log.accepted)[p] <= 1)
    && |m.pending| + |m.state.log.accepted| == m.tickets
    && m.state.log.discarded == []
  }

  ghost predicate Inv(m: Sys)
    ensures Inv(m) ==> Safe(m) && Good(m.state)
  {
    Safe(m) && Good(m.state) && Heading(m) && Tickets(m)
  }

  lemma StartInv()
    ensures Inv(Start())
  {
    var s := Initial();
    forall q ensures Total(q, s.car.riders) == 0 {
      TotalEmpty(q, s.car.riders);
    }
    assert Accounts(s) by {
      forall i | 0 <= i < FLOORS ensures FloorAccounts(s.floors[i]) {}
    }
  }

  lemma {:induction false} PickMembers(side: Side, i: int, s: seq<Passenger>)
    ensures forall p | p in Pick(side, i, s) :: p in s && Key(side, p) == i
  {
    if s != [] {
      PickMembers(side, i, s[..|s| - 1]);
    }
  }

  lemma LoadHeading(m: Sys)
    requires Inv(m) && m.turn == LoadNext
    ensures Heading(Step(m, Worker))
  {
    LoadPhaseOutcome(m.state);
    var s, r := m.state, LoadPhase(m.state);
    var cur := s.car.current;
    var queue := s.floors[cur].waiting;
    var n := Boarding(s);
    LongestPrefix(LoadOf(s.car.riders[cur := []]), s.car.up, queue, n);
    forall j, p | 0 <= j < FLOORS && p in r.car.riders[j] && p.start != p.dest
      ensures Ahead(PosOf(r.car), j)
    {
      PickMembers(AtDest, j, queue[..n]);
      if p in Pick(AtDest, j, queue[..n]) {
        var k :| 0 <= k < n && queue[k] == p;
        assert Boardable(LoadOf(s.car.riders[cur := []]), s.car.up, queue, k);
        assert p in queue;
      } else {
        assert p in s.car.riders[j];
      }
    }
  }

  lemma MoveTruthful(s: State)
    requires Typed(s) && Truthful(s)
    ensures Truthful(MovePhase(s))
  {}

  lemma MoveGood(s: State)
    requires Good(s)
    ensures Good(MovePhase(s))
  {
    MoveTruthful(s);
    hide Good;
    assert Truthful(MovePhase(s));
    SameListsGood(s, MovePhase(s));
  }

  /** With anybody aboard, a move phase moves the car: it is not offline and does not park. */
  lemma MovesWithRiders(s: State, j: int)
    requires Good(s) && 0 <= j < FLOORS && s.car.riders[j] != []
    ensures s.car.status != Offline
    ensures MovePhase(s) == s.(car := Advance(s.car))
  {
    assert SomebodyAboard(s);
  }

  lemma MoveHeading(m: Sys)
    requires Inv(m) && m.turn == MoveNext
    ensures Heading(Step(m, Worker))
  {
    var s, r := m.state, MovePhase(m.state);
    forall j, p | 0 <= j < FLOORS && p in r.car.riders[j] && p.start != p.dest
      ensures Ahead(PosOf(r.car), j) || j == r.car.current
    {
      assert r.car.riders == s.car.riders;
      MovesWithRiders(s, j);
      assert Ahead(PosOf(s.car), j);
      AheadAfterMove(PosOf(s.car), j);
      assert PosOf(r.car) == Next(PosOf(s.car));
    }
  }

  lemma EnqueueTickets(m: Sys, p: Passenger)
    requires Safe(m) && Tickets(m) && p in m.pending
    ensures Tickets(Step(m, Enqueue(p)))
  {
    var r := Step(m, Enqueue(p));
    var before, after := m.state.log.accepted, m.state.log.accepted + [p];
    assert multiset(after) == multiset(before) + multiset{p};
    assert multiset(before)[p] == 0;
    forall x | Allocated(r, x) ensures Allocated(m, x) {
      assert x in after ==> x in before || x == p;
    }
  }

  lemma CheckTickets(m: Sys, a: Action)
    requires Safe(m) && Tickets(m) && a.Check?
    ensures Tickets(Step(m, a))
  {
    var r := Step(m, a);
    var p := Passenger(m.tickets, KindOf(a.kind - 1), a.from - 1, a.to - 1);
    forall x | Allocated(r, x) ensures Allocated(m, x) || x == p {}
    assert !Allocated(m, p);
  }

  lemma SameTickets(m: Sys, r: Sys)
    requires Tickets(m) && r.pending == m.pending && r.tickets == m.tickets
    requires r.state.log.accepted == m.state.log.accepted && r.state.log.discarded == m.state.log.discarded
    ensures Tickets(r)
  {
    assert forall p :: Allocated(r, p) == Allocated(m, p);
  }

  lemma StepGood(m: Sys, a: Action)
    requires Inv(m)
    ensures Good(Step(m, a).state)
  {
    match a
    case Worker =>
      if m.turn == LoadNext {
        LoadPhaseGood(m.state);
      } else {
        MoveGood(m.state);
      }
    case Enqueue(p) =>
      if p in m.pending {
        AddPassGood(m.state, p);
      }
    case _ =>
  }

  lemma StepHeading(m: Sys, a: Action)
    requires Inv(m)
    ensures Heading(Step(m, a))
  {
    if a == Worker {
      if m.turn == LoadNext {
        LoadHeading(m);
      } else {
        MoveHeading(m);
      }
    } else {
      assert Step(m, a).state.car.riders == m.state.car.riders;
    }
  }

  lemma StepTickets(m: Sys, a: Action)
    requires Inv(m)
    ensures Tickets(Step(m, a))
  {
    if a.Check? {
      CheckTickets(m, a);
    } else if a.Enqueue? && a.p in m.pending {
      EnqueueTickets(m, a.p);
    } else {
      if a == Worker && m.turn == LoadNext {
        LoadPhaseOutcome(m.state);
      }
      SameTickets(m, Step(m, a));
    }
  }

  lemma StepKeepsInv(m: Sys, a: Action)
    requires Inv(m)
    ensures Inv(Step(m, a))
  {
    StepGood(m, a);
    StepHeading(m, a);
    StepTickets(m, a);
  }

  lemma {:induction false} RunKeepsInv(m: Sys, acts: seq<Action>)
    requires Inv(m)
    ensures Inv(Run(m, acts))
  {
    if acts != [] {
      RunKeepsInv(m, acts[..|acts| - 1]);
      StepKeepsInv(Run(m, acts[..|acts| - 1]), acts[|acts| - 1]);
    }
  }

  /** The invariant holds after every interleaving of worker phases and system calls. */
  lemma EveryRunIsSafe(acts: seq<Action>)
    ensures Inv(Run(Start(), acts))
  {
    StartInv();
    RunKeepsInv(Start(), acts);
  }
}
