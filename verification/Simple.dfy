/** A plain elevator: one list of riders in boarding order, no counters, no buckets. The module, with
    its ten lists of riders and its counters kept up to date by hand, behaves exactly like it. */
module Simple {
  import opened Types
  import opened Lists
  import opened Sweep
  import opened Machine
  import opened System
  import opened Safety
  import opened Loading
  import opened Invariant

  datatype Plain = Plain(queues: seq<seq<Passenger>>, riders: seq<Passenger>, delivered: seq<Passenger>,
                         pos: Pos, status: Status, shutdown: bool,
                         turn: Turn, moves: nat, pending: set<Passenger>, tickets: nat)

  ghost predicate Shaped(f: Plain) {
    && |f.queues| == FLOORS && Valid(f.pos) && AllWellFormed(f.riders)
    && (forall i | 0 <= i < FLOORS :: AllWellFormed(f.queues[i]))
    && (forall p | p in f.pending :: WellFormed(p))
  }

  /** The riders who do not get off at `d`. */
  ghost function Staying(d: int, s: seq<Passenger>): (r: seq<Passenger>)
    ensures forall p | p in r :: p in s
  {
    if s == [] then []
    else Staying(d, s[..|s| - 1]) + (if s[|s| - 1].dest == d then [] else [s[|s| - 1]])
  }

  /** How many board, the load added up afresh for each. */
  ghost function Joining(riders: seq<Passenger>, up: bool, queue: seq<Passenger>): (n: nat)
    ensures n <= |queue|
    decreases queue
  {
    if queue == [] || (queue[0].dest > queue[0].start) != up
       || Sum(Weights, riders + [queue[0]]) > 30 || Sum(Places, riders + [queue[0]]) > 10
    then 0
    else 1 + Joining(riders + [queue[0]], up, queue[1..])
  }

  ghost function PlainLoad(f: Plain): (r: Plain)
    requires Shaped(f)
    ensures Shaped(r)
  {
    var cur := f.pos.current;
    var queue := f.queues[cur];
    var leaving := Pick(AtDest, cur, f.riders);
    if f.status == Offline || (queue == [] && leaving == []) then f
    else
      var staying := Staying(cur, f.riders);
      var n := if f.shutdown then 0 else Joining(staying, f.pos.up, queue);
      f.(status := Loading, delivered := f.delivered + leaving,
         riders := staying + queue[..n], queues := f.queues[cur := queue[n..]])
  }

  ghost predicate Queueing(f: Plain)
    requires Shaped(f)
  {
    exists i :: 0 <= i < FLOORS && f.queues[i] != []
  }

  ghost function PlainMove(f: Plain): (r: Plain)
    requires Shaped(f)
    ensures Shaped(r)
  {
    if f.status == Offline then f
    else if f.riders == [] && !Queueing(f) then f.(status := Idle)
    else if f.riders == [] && f.shutdown then f.(status := Offline)
    else f.(pos := Next(f.pos), status := if Next(f.pos).up then Up else Down)
  }

  ghost function PlainStep(f: Plain, a: Action): (r: Plain)
    requires Shaped(f)
    ensures Shaped(r)
  {
    match a
    case Worker =>
      if f.turn == LoadNext then PlainLoad(f).(turn := MoveNext)
      else PlainMove(f).(turn := LoadNext, moves := f.moves + 1)
    case Check(kind, from, to) =>
      if kind in {1, 2, 3, 4} && 1 <= from <= 10 && 1 <= to <= 10 && !f.shutdown then
        var p := Passenger(f.tickets, [Adult, Child, Room, Bell][kind - 1], from - 1, to - 1);
        f.(pending := f.pending + {p}, tickets := f.tickets + 1)
      else f
    case Enqueue(p) =>
      if p in f.pending then
        f.(queues := f.queues[p.start := f.queues[p.start] + [p]], pending := f.pending - {p})
      else f
    case StartCall =>
      if f.status == Offline then f.(status := Idle, pos := Pos(0, 1, f.pos.up), shutdown := false) else f
    case StopCall => f.(shutdown := true)
  }

  ghost function PlainRun(f: Plain, acts: seq<Action>): (r: Plain)
    requires Shaped(f)
    ensures Shaped(r)
  {
    if acts == [] then f else PlainStep(PlainRun(f, acts[..|acts| - 1]), acts[|acts| - 1])
  }

  ghost function PlainStart(): (r: Plain)
    ensures Shaped(r)
  {
    Plain(seq(FLOORS, _ => []), [], [], Pos(0, 1, true), Offline, false, LoadNext, 0, {}, 0)
  }

  /** The module's state shows the plain elevator's: the same queues and deliveries in the same
      order, and each destination's list is the part of the riders bound for it. */
  ghost predicate Shows(m: Sys, f: Plain)
    requires Safe(m) && Shaped(f)
  {
    && m.turn == f.turn && m.moves == f.moves && m.pending == f.pending && m.tickets == f.tickets
    && PosOf(m.state.car) == f.pos && m.state.car.status == f.status && m.state.car.shutdown == f.shutdown
    && m.state.log.delivered == f.delivered
    && (forall i | 0 <= i < FLOORS :: m.state.floors[i].waiting == f.queues[i])
    && Sorted(m.state.car.riders, f.riders)
  }

  /** `lists` holds the riders `s` by destination. */
  ghost predicate Sorted(lists: seq<seq<Passenger>>, s: seq<Passenger>) {
    |lists| == FLOORS && forall j | 0 <= j < FLOORS :: lists[j] == Pick(AtDest, j, s)
  }

  // ---------- Sums and selections agree ----------

  lemma SortedInit(lists: seq<seq<Passenger>>, s: seq<Passenger>, p: Passenger)
    requires Sorted(lists, s + [p]) && InBuilding(p.dest)
    ensures lists[p.dest] == Pick(AtDest, p.dest, s) + [p]
    ensures Sorted(lists[p.dest := Pick(AtDest, p.dest, s)], s)
  {
    forall j ensures Pick(AtDest, j, s + [p]) == Pick(AtDest, j, s) + (if p.dest == j then [p] else []) {
      PickSnoc(AtDest, j, s, p);
    }
  }

  lemma {:induction false} SumIsTotal(q: Quantity, lists: seq<seq<Passenger>>, s: seq<Passenger>)
    requires Sorted(lists, s) && AllWellFormed(s)
    ensures Total(q, lists) == Sum(q, s)
    decreases s
  {
    if s == [] {
      TotalEmpty(q, lists);
    } else {
      hide Total, Pick;
      var init, p := s[..|s| - 1], s[|s| - 1];
      assert p in s && s == init + [p];
      SortedInit(lists, init, p);
      var shorter := Pick(AtDest, p.dest, init);
      SumIsTotal(q, lists[p.dest := shorter], init);
      TotalUpdate(q, lists, p.dest, shorter);
      SumSnoc(q, shorter, p);
    }
  }

  lemma {:induction false} PickStaying(d: int, j: int, s: seq<Passenger>)
    ensures Pick(AtDest, j, Staying(d, s)) == if j == d then [] else Pick(AtDest, j, s)
  {
    if s != [] {
      var n := |s| - 1;
      PickStaying(d, j, s[..n]);
      PickSnoc(AtDest, j, Staying(d, s[..n]), s[n]);
      assert Staying(d, s[..n]) + [] == Staying(d, s[..n]);
    }
  }

  lemma SortedStaying(lists: seq<seq<Passenger>>, s: seq<Passenger>, d: int)
    requires Sorted(lists, s) && 0 <= d < FLOORS
    ensures Sorted(lists[d := []], Staying(d, s))
  {
    forall j | 0 <= j < FLOORS ensures lists[d := []][j] == Pick(AtDest, j, Staying(d, s)) {
      PickStaying(d, j, s);
    }
  }

  lemma SortedEmpty(lists: seq<seq<Passenger>>, s: seq<Passenger>)
    requires Sorted(lists, s) && AllWellFormed(s)
    ensures s == [] <==> forall j | 0 <= j < FLOORS :: lists[j] == []
  {
    if s != [] {
      var p := s[|s| - 1];
      assert p in s;
      assert lists[p.dest] != [];
    }
  }

  /** The counter-based and the summing loop stop at the same place. */
  lemma {:induction false} SameCount(load: Tally, riders: seq<Passenger>, up: bool, queue: seq<Passenger>)
    requires load.weight == Sum(Weights, riders) && load.seats == Sum(Places, riders)
    ensures BoardCount(load, up, queue) == Joining(riders, up, queue)
    decreases queue
  {
    if queue != [] {
      SumSnoc(Weights, riders, queue[0]);
      SumSnoc(Places, riders, queue[0]);
      if CanFit(queue[0], load) {
        SameCount(load.Plus(queue[0]), riders + [queue[0]], up, queue[1..]);
      }
    }
  }

  // ---------- Step by step ----------

  /** Emptying one list is removing everyone bound for that floor, so that the destination test in
      the unloading loop never fails; and the same people board. */
  lemma SameBoarding(m: Sys, f: Plain)
    requires Inv(m) && Shaped(f) && Shows(m, f)
    requires f.status != Offline
    ensures Boarding(m.state) ==
      if f.shutdown then 0 else Joining(Staying(f.pos.current, f.riders), f.pos.up, f.queues[f.pos.current])
  {
    hide Inv;
    var cur := f.pos.current;
    var emptied := m.state.car.riders[cur := []];
    SortedStaying(m.state.car.riders, f.riders, cur);
    SumIsTotal(Weights, emptied, Staying(cur, f.riders));
    SumIsTotal(Places, emptied, Staying(cur, f.riders));
    SameCount(LoadOf(emptied), Staying(cur, f.riders), f.pos.up, f.queues[cur]);
  }

  lemma SortedBoard(before: seq<seq<Passenger>>, after: seq<seq<Passenger>>, s: seq<Passenger>, took: seq<Passenger>)
    requires Sorted(before, s) && |after| == FLOORS && Gained(before, after, took)
    ensures Sorted(after, s + took)
  {
    forall j | 0 <= j < FLOORS ensures after[j] == Pick(AtDest, j, s + took) {
      PickConcat(AtDest, j, s, took);
    }
  }

  lemma SortedAfterLoad(m: Sys, f: Plain)
    requires Inv(m) && Shaped(f) && Shows(m, f)
    requires LoadResult(m.state, LoadPhase(m.state))
    ensures Sorted(LoadPhase(m.state).car.riders,
                   Staying(f.pos.current, f.riders) + f.queues[f.pos.current][..Boarding(m.state)])
  {
    hide Inv, Good, LoadPhase, Boarding;
    var before, after := m.state.car.riders[f.pos.current := []], LoadPhase(m.state).car.riders;
    var took := f.queues[f.pos.current][..Boarding(m.state)];
    SortedStaying(m.state.car.riders, f.riders, f.pos.current);
    assert Gained(before, after, took);
    SortedBoard(before, after, Staying(f.pos.current, f.riders), took);
  }

  /** Nothing for the plain elevator to do at this floor. */
  ghost predicate NothingHere(f: Plain)
    requires Shaped(f)
  {
    f.status == Offline || (f.queues[f.pos.current] == [] && Pick(AtDest, f.pos.current, f.riders) == [])
  }

  lemma {:induction false} BusyLoadShows(m: Sys, f: Plain)
    requires Inv(m) && Shaped(f) && Shows(m, f) && m.turn == LoadNext && !NothingHere(f)
    ensures Shows(Step(m, Worker), PlainStep(f, Worker))
  {
    var cur := f.pos.current;
    assert m.state.car.riders[cur] == Pick(AtDest, cur, f.riders);
    hide Inv, Good, LoadPhase, Boarding, Sorted, Pick, Gained;
    LoadPhaseOutcome(m.state);
    SameBoarding(m, f);
    SortedAfterLoad(m, f);
  }

  lemma IdleLoadShows(m: Sys, f: Plain)
    requires Inv(m) && Shaped(f) && Shows(m, f) && m.turn == LoadNext && NothingHere(f)
    ensures Shows(Step(m, Worker), PlainStep(f, Worker))
  {
    hide Inv, Good, LoadPhase;
    assert m.state.car.riders[f.pos.current] == Pick(AtDest, f.pos.current, f.riders);
    LoadIsIdle(m.state);
  }

  lemma LoadIsIdle(s: State)
    requires Typed(s)
    requires s.car.status == Offline || (s.floors[s.car.current].waiting == [] && s.car.riders[s.car.current] == [])
    ensures LoadPhase(s) == s
  {}

  /** Checking ten lists of riders, and ten queues, is checking the plain elevator's. */
  lemma SameEmptiness(m: Sys, f: Plain)
    requires Safe(m) && Shaped(f) && Shows(m, f)
    ensures SomebodyAboard(m.state) <==> f.riders != []
    ensures SomebodyWaits(m.state) <==> Queueing(f)
  {
    SortedEmpty(m.state.car.riders, f.riders);
  }

  lemma MoveShows(m: Sys, f: Plain)
    requires Inv(m) && Shaped(f) && Shows(m, f) && m.turn == MoveNext
    ensures Shows(Step(m, Worker), PlainStep(f, Worker))
  {
    hide Inv, Good, SomebodyAboard, SomebodyWaits, Queueing, Sorted, Next;
    SameEmptiness(m, f);
  }

  lemma CallShows(m: Sys, f: Plain, a: Action)
    requires Inv(m) && Shaped(f) && Shows(m, f) && a != Worker
    ensures Shows(Step(m, a), PlainStep(f, a))
  {
    hide Inv, Good;
  }

  lemma StepShows(m: Sys, f: Plain, a: Action)
    requires Inv(m) && Shaped(f) && Shows(m, f)
    ensures Shows(Step(m, a), PlainStep(f, a))
  {
    if a != Worker {
      CallShows(m, f, a);
    } else if m.turn == MoveNext {
      MoveShows(m, f);
    } else if NothingHere(f) {
      IdleLoadShows(m, f);
    } else {
      BusyLoadShows(m, f);
    }
  }

  lemma {:induction false} RunShows(m: Sys, f: Plain, acts: seq<Action>)
    requires Inv(m) && Shaped(f) && Shows(m, f)
    ensures Shows(Run(m, acts), PlainRun(f, acts))
  {
    hide Inv, Good, Shows, Shaped;
    if acts != [] {
      var n := |acts| - 1;
      RunShows(m, f, acts[..n]);
      RunKeepsInv(m, acts[..n]);
      StepShows(Run(m, acts[..n]), PlainRun(f, acts[..n]), acts[n]);
    }
  }

  /** The module refines the plain elevator: on every run, from the start, they show the same. */
  lemma {:induction false} ModuleIsPlainElevator(acts: seq<Action>)
    ensures Shows(Run(Start(), acts), PlainRun(PlainStart(), acts))
  {
    StartInv();
    RunShows(Start(), PlainStart(), acts);
  }
}
