/** What the invariant says about people and counters: nobody is lost, duplicated or miscounted. */
module Ledger {
  import opened Types
  import opened Lists
  import opened Sweep
  import opened Machine
  import opened System
  import opened Safety
  import opened Invariant

  // ---------- Conservation ----------

  /** Count by count, for any passenger whatever: what was queued is waiting at its start floor, or
      aboard for its destination, or delivered. */
  lemma Conservation(s: State, x: Passenger)
    requires Good(s) && InBuilding(x.start) && InBuilding(x.dest)
    ensures multiset(s.log.accepted)[x] == multiset(s.floors[x.start].waiting)[x]
                                         + multiset(s.car.riders[x.dest])[x]
                                         + multiset(s.log.delivered)[x]
    ensures multiset(s.log.boarded)[x] == multiset(s.car.riders[x.dest])[x] + multiset(s.log.delivered)[x]
  {
    PickCount(AtStart, x.start, s.log.accepted, x);
    PickCount(AtStart, x.start, s.log.boarded, x);
    PickCount(AtDest, x.dest, s.log.boarded, x);
    PickCount(AtDest, x.dest, s.log.delivered, x);
  }

  ghost predicate Waits(s: State, x: Passenger)
    requires |s.floors| == FLOORS
  {
    exists i :: 0 <= i < FLOORS && x in s.floors[i].waiting
  }

  ghost predicate Rides(s: State, x: Passenger)
    requires |s.car.riders| == FLOORS
  {
    exists j :: 0 <= j < FLOORS && x in s.car.riders[j]
  }

  /** Everyone ever queued is in exactly one place, and nobody else is in any. */
  lemma ExactlyOnePlace(m: Sys, x: Passenger)
    requires Inv(m)
    ensures var s := m.state;
      && (x in s.log.accepted <==> Waits(s, x) || Rides(s, x) || x in s.log.delivered)
      && !(Waits(s, x) && Rides(s, x))
      && !(Waits(s, x) && x in s.log.delivered)
      && !(Rides(s, x) && x in s.log.delivered)
  {
    var s := m.state;
    if InBuilding(x.start) && InBuilding(x.dest) {
      Conservation(s, x);
      assert Waits(s, x) <==> x in s.floors[x.start].waiting;
      assert Rides(s, x) <==> x in s.car.riders[x.dest];
      assert multiset(s.log.accepted)[x] <= 1;
    } else {
      assert !Waits(s, x) && !Rides(s, x);
    }
  }

  /** Floor by floor: queued = waiting + aboard from that floor + serviced. */
  lemma ServicedCount(s: State, i: int)
    requires Good(s) && 0 <= i < FLOORS
    ensures |Pick(AtStart, i, s.log.accepted)| ==
      |s.floors[i].waiting| + Total(From(i), s.car.riders) + s.floors[i].serviced
  {
    HeadsFrom(i, s.log.boarded);
    assert Sum(From(i), s.log.boarded) == Sum(From(i), s.log.delivered) + Total(From(i), s.car.riders);
  }

  /** After any run, floor by floor and destination by destination: those who boarded at `i` are the
      first of those queued there, in order, and the rest wait in order; those delivered at `j` are the
      first of those who boarded for it, in order, and the rest are aboard in order. */
  lemma FifoOverRuns(acts: seq<Action>, i: int, j: int)
    requires 0 <= i < FLOORS && 0 <= j < FLOORS
    ensures var s := Run(Start(), acts).state;
      && Pick(AtStart, i, s.log.accepted) == Pick(AtStart, i, s.log.boarded) + s.floors[i].waiting
      && Pick(AtDest, j, s.log.boarded) == Pick(AtDest, j, s.log.delivered) + s.car.riders[j]
  {
    hide Run;
    EveryRunIsSafe(acts);
  }

  /** After any run the car is at one of the 18 positions of the sweep, or at the stale one, and then
      it is still where a restart put it. */
  lemma PositionOverRuns(acts: seq<Action>)
    ensures var car := Run(Start(), acts).state.car;
      && 0 <= car.current <= 9 && 0 <= car.next <= 9
      && ((exists k :: 0 <= k < 18 && PosOf(car) == PosAt(k)) || (PosOf(car) == STALE && car.status in {Idle, Loading, Offline}))
  {
    hide Run;
    EveryRunIsSafe(acts);
    var pos := PosOf(Run(Start(), acts).state.car);
    if pos != STALE {
      assert pos == PosAt(Phase(pos));
    }
  }

  // ---------- Counters ----------

  /** The four head counts of a list determine its weight and places. */
  ghost predicate Consistent(t: Tally) {
    && t.adult >= 0 && t.child >= 0 && t.room >= 0 && t.bell >= 0
    && t.weight == 2 * t.adult + t.child + 4 * t.room + 8 * t.bell
    && t.seats == t.adult + t.child + 2 * t.room + 2 * t.bell
  }

  lemma {:induction false} SumsConsistent(s: seq<Passenger>)
    requires AllWellFormed(s)
    ensures Consistent(Tally(Sum(Weights, s), Sum(Places, s), Sum(Adults, s), Sum(Children, s), Sum(Rooms, s), Sum(Bells, s)))
    ensures |s| == Sum(Heads, s) == Sum(Adults, s) + Sum(Children, s) + Sum(Rooms, s) + Sum(Bells, s)
  {
    if s != [] {
      assert s[|s| - 1] in s;
      SumsConsistent(s[..|s| - 1]);
    }
  }

  lemma {:induction false} TotalsConsistent(lists: seq<seq<Passenger>>)
    requires forall j | 0 <= j < |lists| :: AllWellFormed(lists[j])
    ensures Consistent(Tally(Total(Weights, lists), Total(Places, lists), Total(Adults, lists),
                             Total(Children, lists), Total(Rooms, lists), Total(Bells, lists)))
    ensures Total(Heads, lists) ==
      Total(Adults, lists) + Total(Children, lists) + Total(Rooms, lists) + Total(Bells, lists)
  {
    if lists != [] {
      SumsConsistent(lists[|lists| - 1]);
      TotalsConsistent(lists[..|lists| - 1]);
    }
  }

  /** The car's counters and every floor's decode, never go negative, and the car holds at most ten. */
  lemma CountersDecode(s: State)
    requires Good(s)
    ensures Consistent(s.car.load) && 0 <= s.car.load.weight <= 30 && 0 <= s.car.load.seats <= 10
    ensures forall i | 0 <= i < FLOORS :: Consistent(s.floors[i].load)
    ensures Total(Heads, s.car.riders) <= 10
  {
    assert Counted(Weights) && Counted(Places) && Counted(Adults);
    assert Counted(Children) && Counted(Rooms) && Counted(Bells);
    TotalsConsistent(s.car.riders);
    forall i | 0 <= i < FLOORS ensures Consistent(s.floors[i].load) {
      SumsConsistent(s.floors[i].waiting);
      assert FloorAccounts(s.floors[i]);
    }
  }

  /** What the three numbers of a request must be, and the passenger they stand for. */
  ghost predicate InRange(kind: int, from: int, to: int) {
    1 <= kind <= 4 && 1 <= from <= 10 && 1 <= to <= 10
  }

  ghost function Requested(id: nat, kind: int, from: int, to: int): Passenger
    requires InRange(kind, from, to)
  {
    Passenger(id, [Adult, Child, Room, Bell][kind - 1], from - 1, to - 1)
  }

  /** What one request of that kind adds to a floor's counters. */
  ghost function Raised(t: Tally, kind: int): Tally
    requires 1 <= kind <= 4
  {
    Tally(t.weight + [2, 1, 4, 8][kind - 1], t.seats + [1, 1, 2, 2][kind - 1],
          t.adult + [1, 0, 0, 0][kind - 1], t.child + [0, 1, 0, 0][kind - 1],
          t.room + [0, 0, 1, 0][kind - 1], t.bell + [0, 0, 0, 1][kind - 1])
  }

  lemma RequestAdmitted(m: Sys, kind: int, from: int, to: int)
    requires Safe(m)
    ensures var t := Step(m, Check(kind, from, to));
      if InRange(kind, from, to) && !m.state.car.shutdown
      then t == m.(pending := m.pending + {Requested(m.tickets, kind, from, to)}, tickets := m.tickets + 1)
      else t == m
  {
    hide LoadPhase, MovePhase, Typed;
  }

  lemma RequestedUnits(id: nat, kind: int, from: int, to: int)
    requires InRange(kind, from, to)
    ensures var p := Requested(id, kind, from, to);
      WellFormed(p) && Weight(p) == [2, 1, 4, 8][kind - 1] && Seats(p) == [1, 1, 2, 2][kind - 1]
    ensures forall t: Tally :: t.Plus(Requested(id, kind, from, to)) == Raised(t, kind)
  {}

  /** A request that is admitted and then queued, in numbers: which requests are admitted; that the new
      passenger goes to the tail of its floor's queue; and what each of that floor's counters gains. */
  lemma RequestCounted(m: Sys, kind: int, from: int, to: int)
    requires Inv(m)
    ensures var t := Step(m, Check(kind, from, to));
      if InRange(kind, from, to) && !m.state.car.shutdown then
        var p := Requested(m.tickets, kind, from, to);
        var r := Step(t, Enqueue(p)).state; var f := m.state.floors[from - 1];
        && t == m.(pending := m.pending + {p}, tickets := m.tickets + 1) && !Allocated(m, p)
        && r.car == m.state.car
        && (forall i | 0 <= i < FLOORS && i != from - 1 :: r.floors[i] == m.state.floors[i])
        && r.floors[from - 1].waiting == f.waiting + [p] && r.floors[from - 1].serviced == f.serviced
        && r.floors[from - 1].load == Raised(f.load, kind)
      else t == m
  {
    RequestAdmitted(m, kind, from, to);
    if InRange(kind, from, to) {
      RequestedUnits(m.tickets, kind, from, to);
    }
    hide LoadPhase, MovePhase, Good, Typed, Requested, Raised;
  }

  // ---------- Going offline and restarting ----------

  lemma EmptyCar(s: State)
    requires Good(s) && !SomebodyAboard(s)
    ensures s.car.load == ZERO
  {
    forall q | Counted(q) ensures Counter(s.car.load, q) == 0 {
      TotalEmpty(q, s.car.riders);
    }
    assert Counted(Weights) && Counted(Places) && Counted(Adults);
    assert Counted(Children) && Counted(Rooms) && Counted(Bells);
  }

  /** Offline, the car is empty. So a start that takes effect moves nobody, and while anyone is
      aboard a start does nothing. */
  lemma OfflineIsEmpty(s: State)
    requires Good(s)
    ensures s.car.status == Offline ==> !SomebodyAboard(s) && s.car.load == ZERO
    ensures SomebodyAboard(s) ==> StartElevator(s) == s
    ensures StartElevator(s) != s ==> !SomebodyAboard(s) && !SomebodyAboard(StartElevator(s))
  {
    if s.car.status == Offline {
      EmptyCar(s);
    }
  }

  // ---------- Ownership ----------

  lemma CountConcat(a: seq<Passenger>, b: seq<Passenger>, c: seq<Passenger>, x: Passenger)
    ensures multiset(a + b + c)[x] == multiset(a)[x] + multiset(b)[x] + multiset(c)[x]
    ensures multiset(b)[x] > 0 <==> x in b
    ensures multiset(c)[x] > 0 <==> x in c
  {
    assert multiset(a + b + c) == multiset(a) + multiset(b) + multiset(c);
  }

  lemma HomeCount(side: Side, i: int, s: seq<Passenger>, x: Passenger)
    requires HomeList(side, i, s)
    ensures multiset(s)[x] == if Key(side, x) == i then multiset(s)[x] else 0
  {}

  lemma DrainedStep(s: State, n: nat, x: Passenger)
    requires Typed(s) && n < FLOORS
    ensures multiset(Drained(s, n + 1))[x] == multiset(Drained(s, n))[x]
      + (if x.dest == n then multiset(s.car.riders[n])[x] else 0)
      + (if x.start == n then multiset(s.floors[n].waiting)[x] else 0)
  {
    var riders, waiting := s.car.riders[n], s.floors[n].waiting;
    CountConcat(Drained(s, n), riders, waiting, x);
    HomeCount(AtDest, n, riders, x);
    HomeCount(AtStart, n, waiting, x);
  }

  lemma {:induction false} DrainedCount(s: State, n: nat, x: Passenger)
    requires Typed(s) && n <= FLOORS && InBuilding(x.start) && InBuilding(x.dest)
    ensures multiset(Drained(s, n))[x] ==
      (if x.dest < n then multiset(s.car.riders[x.dest])[x] else 0)
      + (if x.start < n then multiset(s.floors[x.start].waiting)[x] else 0)
  {
    if n > 0 {
      DrainedCount(s, n - 1, x);
      DrainedStep(s, n - 1, x);
    }
  }

  lemma {:induction false} DrainedWellFormed(s: State, n: nat)
    requires Typed(s) && n <= FLOORS
    ensures AllWellFormed(Drained(s, n))
  {
    if n > 0 {
      DrainedWellFormed(s, n - 1);
    }
  }

  lemma FreedIsAccepted(s: State)
    requires Good(s)
    ensures multiset(s.log.delivered + Drained(s, FLOORS)) == multiset(s.log.accepted)
  {
    var drained := Drained(s, FLOORS);
    var freed := s.log.delivered + drained;
    DrainedWellFormed(s, FLOORS);
    forall x ensures multiset(freed)[x] == multiset(s.log.accepted)[x] {
      if InBuilding(x.start) && InBuilding(x.dest) {
        Conservation(s, x);
        DrainedCount(s, FLOORS, x);
      } else {
        assert x !in s.log.delivered && x !in drained && x !in s.log.accepted;
      }
    }
  }

  /** Floor by floor from the bottom: the riders for it, then its queue. */
  ghost function FreedInOrder(s: State): seq<Passenger>
    requires |s.car.riders| == 10 && |s.floors| == 10
  {
    var e, f := s.car.riders, s.floors;
    e[0] + f[0].waiting + e[1] + f[1].waiting + e[2] + f[2].waiting + e[3] + f[3].waiting + e[4] + f[4].waiting
    + e[5] + f[5].waiting + e[6] + f[6].waiting + e[7] + f[7].waiting + e[8] + f[8].waiting + e[9] + f[9].waiting
  }

  lemma ExitLeaves(s: State)
    requires Typed(s)
    ensures var r := Exit(s);
      && r.car == s.car.(riders := [[], [], [], [], [], [], [], [], [], []])
      && |r.floors| == 10 && (forall i | 0 <= i < 10 :: r.floors[i] == s.floors[i].(waiting := []))
      && r.log == s.log.(discarded := s.log.discarded + Drained(s, FLOORS))
  {
    hide Drained;
    assert Exit(s).car.riders == [[], [], [], [], [], [], [], [], [], []];
  }

  lemma DrainedInOrder(s: State)
    requires Typed(s)
    ensures Drained(s, FLOORS) == FreedInOrder(s)
  {
    var e, f := s.car.riders, s.floors;
    assert Drained(s, 1) == e[0] + f[0].waiting;
    assert Drained(s, 4) == Drained(s, 1) + e[1] + f[1].waiting + e[2] + f[2].waiting + e[3] + f[3].waiting by {
      assert Drained(s, 3) == Drained(s, 2) + e[2] + f[2].waiting;
    }
    assert Drained(s, 7) == Drained(s, 4) + e[4] + f[4].waiting + e[5] + f[5].waiting + e[6] + f[6].waiting by {
      assert Drained(s, 6) == Drained(s, 5) + e[5] + f[5].waiting;
    }
    assert Drained(s, 9) == Drained(s, 8) + e[8] + f[8].waiting;
  }

  /** The exit loops empty all twenty lists, floor by floor, and change nothing else; everything ever
      queued has then been freed, no passenger twice. What has been allocated and not freed is what is
      still in flight. */
  lemma ExitFreesEverything(m: Sys)
    requires Inv(m)
    ensures var r := Exit(m.state); var freed := r.log.delivered + r.log.discarded;
      && multiset(freed) == multiset(m.state.log.accepted)
      && |freed| + |m.pending| == m.tickets
      && (forall a, b | 0 <= a < b < |freed| :: freed[a].id != freed[b].id)
    ensures var r := Exit(m.state);
      && r.log.discarded == FreedInOrder(m.state) && r.log.accepted == m.state.log.accepted
      && r.car == m.state.car.(riders := [[], [], [], [], [], [], [], [], [], []])
      && |r.floors| == 10 && forall i | 0 <= i < 10 :: r.floors[i] == m.state.floors[i].(waiting := [])
  {
    var s := m.state;
    assert s.log.discarded == [];
    hide Good, Drained, Exit, Typed, Tickets, FreedInOrder;
    FreedIsAccepted(s);
    DrainedInOrder(s);
    ExitLeaves(s);
    assert [] + Drained(s, FLOORS) == Drained(s, FLOORS);
    DistinctIds(m, s.log.delivered + Drained(s, FLOORS));
  }

  lemma CountTwice(s: seq<Passenger>, a: nat, b: nat)
    requires a < b < |s|
    ensures s[a] == s[b] ==> multiset(s)[s[b]] >= 2
  {
    assert s == s[..b] + s[b..];
    assert s[a] in multiset(s[..b]) && s[b] in multiset(s[b..]);
  }

  lemma DistinctIds(m: Sys, freed: seq<Passenger>)
    requires Tickets(m) && multiset(freed) == multiset(m.state.log.accepted)
    ensures forall a, b | 0 <= a < b < |freed| :: freed[a].id != freed[b].id
    ensures |freed| + |m.pending| == m.tickets
  {
    assert |freed| == |multiset(freed)| == |multiset(m.state.log.accepted)|;
    forall a, b | 0 <= a < b < |freed| ensures freed[a].id != freed[b].id {
      assert freed[a] in multiset(freed) && freed[b] in multiset(freed);
      assert Allocated(m, freed[a]) && Allocated(m, freed[b]);
      CountTwice(freed, a, b);
    }
  }
}
