/** Left alone, the elevator serves everybody, with one exception that is exactly characterised. */
module Draining {
  import opened Types
  import opened Lists
  import opened Sweep
  import opened Machine
  import opened System
  import opened Safety
  import opened Loading
  import opened Invariant
  import opened Ledger

  /** One move phase and the load phase after it. */
  ghost function Round(s: State): (r: State)
    requires Typed(s)
    ensures Typed(r)
  {
    LoadPhase(MovePhase(s))
  }

  ghost function Rounds(s: State, n: nat): (r: State)
    requires Typed(s)
    ensures Typed(r)
  {
    if n == 0 then s else Round(Rounds(s, n - 1))
  }

  ghost predicate Deserted(s: State)
    requires Typed(s)
  {
    !SomebodyAboard(s) && !SomebodyWaits(s)
  }

  /** Somebody waits at the bottom floor for the bottom floor. They count as going down, and the car
      never leaves the bottom floor headed down, except right after a restart. */
  ghost predicate Blocked(s: State)
    requires Typed(s)
  {
    exists p :: p in s.floors[0].waiting && p.dest == 0
  }

  ghost predicate Running(s: State) {
    Good(s) && s.car.status != Offline && !s.car.shutdown
  }

  // ---------- What one round does ----------

  /** The car after a move phase that moves it. */
  ghost function Moved(s: State): (r: State)
    requires Typed(s)
    ensures Typed(r)
  {
    s.(car := Advance(s.car))
  }

  lemma RoundOutcome(s: State)
    requires Running(s) && !Deserted(s)
    ensures Running(Round(s)) && Good(Moved(s))
    ensures PosOf(Moved(s).car) == Next(PosOf(s.car)) == PosOf(Round(s).car)
    ensures LoadResult(Moved(s), Round(s))
  {
    assert MovePhase(s) == Moved(s);
    MoveGood(s);
    LoadPhaseGood(Moved(s));
    LoadPhaseOutcome(Moved(s));
  }

  lemma DesertedStays(s: State)
    requires Running(s) && Deserted(s)
    ensures Running(Round(s)) && Deserted(Round(s))
  {
    var t := MovePhase(s);
    assert t == s.(car := s.car.(status := Idle));
    assert LoadPhase(t) == t;
    MoveGood(s);
  }

  // ---------- Those who are never served ----------

  /** A load phase at the bottom, with the car headed up, leaves those bound for the bottom waiting. */
  lemma LoadLeavesBlocked(t: State, r: State, p: Passenger)
    requires Typed(t) && Typed(r) && LoadResult(t, r)
    requires t.car.current == 0 ==> t.car.up
    requires p in t.floors[0].waiting && p.dest == 0
    ensures p in r.floors[0].waiting
  {
    var queue := t.floors[0].waiting;
    if t.car.current == 0 {
      var n := Boarding(t);
      var k :| 0 <= k < |queue| && queue[k] == p;
      if t.car.status != Offline && !t.car.shutdown {
        var load := LoadOf(t.car.riders[0 := []]);
        LongestPrefix(load, true, queue, n);
        assert k < n ==> Boardable(load, true, queue, k);
      }
      assert p == queue[n..][k - n];
    }
  }

  lemma BlockedStays(s: State, p: Passenger)
    requires Running(s) && p in s.floors[0].waiting && p.dest == 0
    ensures Running(Round(s)) && p in Round(s).floors[0].waiting
  {
    hide LoadPhase, MovePhase;
    assert SomebodyWaits(s);
    RoundOutcome(s);
    LoadLeavesBlocked(Moved(s), Round(s), p);
  }

  /** Whoever waits at the bottom for the bottom waits there for ever. */
  lemma {:induction false} BlockedForever(s: State, n: nat, p: Passenger)
    requires Running(s) && p in s.floors[0].waiting && p.dest == 0
    ensures Running(Rounds(s, n)) && p in Rounds(s, n).floors[0].waiting
  {
    hide Round, Good;
    if n > 0 {
      BlockedForever(s, n - 1, p);
      BlockedStays(Rounds(s, n - 1), p);
    }
  }

  // ---------- Everybody else is ----------

  /** How many at the bottom stand in front of everybody bound for the bottom. */
  ghost function Unhindered(queue: seq<Passenger>): (n: nat)
    ensures n <= |queue|
    ensures forall k | 0 <= k < n :: queue[k].dest != 0
    ensures n < |queue| ==> queue[n].dest == 0
  {
    if queue == [] || queue[0].dest == 0 then 0 else 1 + Unhindered(queue[1..])
  }

  /** The first at the bottom who is bound for the bottom, and everyone behind. */
  ghost function HeldUp(queue: seq<Passenger>): seq<Passenger> {
    queue[Unhindered(queue)..]
  }

  /** The part of the queue of floor `i` that nobody holds up. */
  ghost function Servable(i: int, queue: seq<Passenger>): seq<Passenger> {
    if i == 0 then queue[..Unhindered(queue)] else queue
  }

  lemma UnhinderedTail(queue: seq<Passenger>, n: nat)
    requires n <= Unhindered(queue)
    ensures Unhindered(queue[n..]) == Unhindered(queue) - n
    ensures HeldUp(queue[n..]) == HeldUp(queue)
  {
    var tail := queue[n..];
    var h := Unhindered(tail);
    assert h < |tail| ==> queue[n + h].dest == 0;
    assert Unhindered(queue) - n < |tail| ==> tail[Unhindered(queue) - n].dest == 0;
  }

  lemma BlockedIsHeldUp(s: State)
    requires Typed(s)
    ensures Blocked(s) <==> HeldUp(s.floors[0].waiting) != []
  {
    var queue := s.floors[0].waiting;
    if Unhindered(queue) < |queue| {
      assert queue[Unhindered(queue)] in queue;
    }
  }

  /** How many on the first `n` floors nobody holds up. */
  ghost function Waiting(floors: seq<Floor>, n: nat): nat
    requires n <= |floors|
  {
    if n == 0 then 0 else Waiting(floors, n - 1) + |Servable(n - 1, floors[n - 1].waiting)|
  }

  lemma {:induction false} WaitingShrinks(a: seq<Floor>, b: seq<Floor>, n: nat, cur: int, gone: nat)
    requires n <= |a| && |a| == |b| && 0 <= cur < |a|
    requires gone <= |Servable(cur, a[cur].waiting)|
    requires forall i | 0 <= i < |a| ::
      |Servable(i, b[i].waiting)| == |Servable(i, a[i].waiting)| - if i == cur then gone else 0
    ensures Waiting(b, n) == Waiting(a, n) - if cur < n then gone else 0
  {
    if n > 0 {
      WaitingShrinks(a, b, n - 1, cur, gone);
    }
  }

  lemma {:induction false} SameWaiting(a: seq<Floor>, b: seq<Floor>, n: nat)
    requires n <= |a| == |b|
    requires forall i | 0 <= i < |a| :: a[i].waiting == b[i].waiting
    ensures Waiting(a, n) == Waiting(b, n)
  {
    if n > 0 {
      SameWaiting(a, b, n - 1);
    }
  }

  lemma {:induction false} WaitingZero(floors: seq<Floor>, n: nat)
    requires n <= |floors|
    ensures Waiting(floors, n) == 0 <==> forall i | 0 <= i < n :: Servable(i, floors[i].waiting) == []
  {
    if n > 0 {
      WaitingZero(floors, n - 1);
    }
  }

  /** All is done that will be: nobody aboard, and only those held up still wait. */
  ghost predicate Settled(s: State)
    requires Typed(s)
  {
    !SomebodyAboard(s) && forall i | 0 <= i < FLOORS :: Servable(i, s.floors[i].waiting) == []
  }

  /** A load phase, except at the stale position, takes only people whom nobody holds up. */
  lemma LoadServes(t: State, r: State)
    requires Typed(t) && Typed(r) && LoadResult(t, r) && (t.car.current == 0 ==> t.car.up)
    ensures HeldUp(r.floors[0].waiting) == HeldUp(t.floors[0].waiting)
    ensures Boarding(t) <= |Servable(t.car.current, t.floors[t.car.current].waiting)|
    ensures Waiting(r.floors, FLOORS) == Waiting(t.floors, FLOORS) - Boarding(t)
  {
    var cur := t.car.current;
    var queue := t.floors[cur].waiting;
    var n := Boarding(t);
    if cur == 0 {
      BoardersUnhindered(t);
      UnhinderedTail(queue, n);
    }
    hide Boarding, Unhindered, Gained, Pick;
    WaitingShrinks(t.floors, r.floors, FLOORS, cur, n);
  }

  lemma BoardersUnhindered(t: State)
    requires Typed(t) && t.car.current == 0 && t.car.up
    ensures Boarding(t) <= Unhindered(t.floors[0].waiting)
  {
    var queue := t.floors[0].waiting;
    var h := Unhindered(queue);
    if h < |queue| && t.car.status != Offline && !t.car.shutdown {
      var load := LoadOf(t.car.riders[0 := []]);
      LongestPrefix(load, true, queue, Boarding(t));
      assert queue[h] in queue;
      assert !Boardable(load, true, queue, h);
    }
  }

  /** The longest ride still to make among the first `n` destinations. */
  ghost function Latest(riders: seq<seq<Passenger>>, pos: Pos, n: nat): (t: int)
    requires Valid(pos) && n <= FLOORS == |riders|
    ensures 0 <= t <= 18
  {
    if n == 0 then 0
    else
      var before := Latest(riders, pos, n - 1);
      if riders[n - 1] != [] && MovesTo(pos, n - 1) > before then MovesTo(pos, n - 1) else before
  }

  lemma {:induction false} LatestCovers(riders: seq<seq<Passenger>>, pos: Pos, n: nat)
    requires Valid(pos) && n <= FLOORS == |riders|
    ensures forall j | 0 <= j < n && riders[j] != [] :: MovesTo(pos, j) <= Latest(riders, pos, n)
    ensures Latest(riders, pos, n) > 0 <==> exists j :: 0 <= j < n && riders[j] != []
  {
    if n > 0 {
      LatestCovers(riders, pos, n - 1);
    }
  }

  lemma {:induction false} LatestWithin(riders: seq<seq<Passenger>>, pos: Pos, n: nat, bound: nat)
    requires Valid(pos) && n <= FLOORS == |riders|
    requires forall j | 0 <= j < n && riders[j] != [] :: MovesTo(pos, j) <= bound
    ensures Latest(riders, pos, n) <= bound
  {
    if n > 0 {
      LatestWithin(riders, pos, n - 1, bound);
    }
  }

  /** The first floor, from `i` up, where somebody waits whom nobody holds up. */
  ghost function FirstQueue(floors: seq<Floor>, i: nat): (r: nat)
    requires i <= |floors|
    ensures i <= r <= |floors|
    ensures r < |floors| ==> Servable(r, floors[r].waiting) != []
    ensures r == |floors| ==> forall k | i <= k < |floors| :: Servable(k, floors[k].waiting) == []
    decreases |floors| - i
  {
    if i == |floors| || Servable(i, floors[i].waiting) != [] then i else FirstQueue(floors, i + 1)
  }

  lemma {:induction false} SameFirstQueue(a: seq<Floor>, b: seq<Floor>, i: nat)
    requires i <= |a| == |b|
    requires forall k | 0 <= k < |a| :: a[k].waiting == b[k].waiting
    ensures FirstQueue(a, i) == FirstQueue(b, i)
    decreases |a| - i
  {
    if i < |a| {
      SameFirstQueue(a, b, i + 1);
    }
  }

  /** Somebody waits whom nobody holds up. */
  ghost predicate Wanted(s: State)
    requires Typed(s)
  {
    exists i :: 0 <= i < FLOORS && Servable(i, s.floors[i].waiting) != []
  }

  /** The sweep position at which an empty car takes the head of the first queue. */
  ghost function Pickup(s: State): (k: int)
    requires Typed(s) && Wanted(s)
    ensures 0 <= k < 18
  {
    var i := FirstQueue(s.floors, 0);
    var p := s.floors[i].waiting[0];
    assert p in s.floors[i].waiting;
    if GoesUp(p) then i else 18 - i
  }

  /** Rounds that suffice: 36 for everyone waiting whom nobody holds up, and a sweep for the last to
      get off. */
  ghost function Measure(s: State): (t: int)
    requires Typed(s)
    ensures t >= 0
  {
    var waiting := Waiting(s.floors, FLOORS);
    var ride := Latest(s.car.riders, PosOf(s.car), FLOORS);
    if waiting == 0 then ride
    else
      WaitingZero(s.floors, FLOORS);
      36 * (waiting - 1) + 18 + (if ride > 0 then 18 + ride else MovesToPhase(PosOf(s.car), Pickup(s)))
  }

  lemma MeasureBounds(s: State)
    requires Typed(s)
    ensures Measure(s) <= 36 * Waiting(s.floors, FLOORS) + 18
    ensures Waiting(s.floors, FLOORS) > 0 ==> Measure(s) > 36 * (Waiting(s.floors, FLOORS) - 1) + 18
    ensures Measure(s) == 0 <==> Settled(s)
  {
    WaitingZero(s.floors, FLOORS);
    LatestCovers(s.car.riders, PosOf(s.car), FLOORS);
  }

  lemma EmptyFits(riders: seq<seq<Passenger>>, p: Passenger)
    requires forall j | 0 <= j < |riders| :: riders[j] == []
    requires WellFormed(p)
    ensures CanFit(p, LoadOf(riders))
  {
    forall q ensures Total(q, riders) == 0 {
      TotalEmpty(q, riders);
    }
  }

  /** An empty car that reaches the pick-up position takes somebody. */
  lemma PicksUp(s: State)
    requires Running(s) && !SomebodyAboard(s) && Wanted(s)
    requires Next(PosOf(s.car)) == PosAt(Pickup(s))
    ensures Boarding(Moved(s)) > 0
  {
    hide Good, Total, Next;
    var t := Moved(s);
    var i := FirstQueue(s.floors, 0);
    var p := s.floors[i].waiting[0];
    assert p in s.floors[i].waiting;
    assert t.car.current == i && GoesUp(p) == t.car.up;
    EmptyFits(t.car.riders[i := []], p);
  }

  /** With nobody boarding, everyone aboard is one move nearer. */
  lemma RidesShorten(s: State)
    requires Running(s) && SomebodyAboard(s) && Boarding(Moved(s)) == 0
    ensures Latest(Round(s).car.riders, PosOf(Round(s).car), FLOORS) < Latest(s.car.riders, PosOf(s.car), FLOORS)
  {
    RoundOutcome(s);
    var r := Round(s);
    LatestCovers(s.car.riders, PosOf(s.car), FLOORS);
    var longest := Latest(s.car.riders, PosOf(s.car), FLOORS);
    forall j | 0 <= j < FLOORS && r.car.riders[j] != []
      ensures MovesTo(PosOf(r.car), j) <= longest - 1
    {
      assert Pick(AtDest, j, []) == [];
      assert r.car.riders[j] == s.car.riders[j];
      Countdown(PosOf(s.car), j);
    }
    LatestWithin(r.car.riders, PosOf(r.car), FLOORS, longest - 1);
  }

  /** A round leaves those held up where they are, and takes whom it takes from the others. */
  lemma RoundServes(s: State)
    requires Running(s) && !Deserted(s)
    ensures HeldUp(Round(s).floors[0].waiting) == HeldUp(s.floors[0].waiting)
    ensures Waiting(Round(s).floors, FLOORS) == Waiting(s.floors, FLOORS) - Boarding(Moved(s))
    ensures Boarding(Moved(s)) <= |Servable(Moved(s).car.current, s.floors[Moved(s).car.current].waiting)|
  {
    hide Good, LoadPhase, MovePhase, LoadResult, Boarding;
    RoundOutcome(s);
    LoadServes(Moved(s), Round(s));
  }

  lemma SamePickup(s: State, r: State)
    requires Typed(s) && Typed(r) && SameQueues(r, s) && Wanted(s)
    ensures Wanted(r) && Pickup(r) == Pickup(s)
    ensures Waiting(r.floors, FLOORS) == Waiting(s.floors, FLOORS) > 0
  {
    WaitingZero(s.floors, FLOORS);
    SameWaiting(s.floors, r.floors, FLOORS);
    WaitingZero(r.floors, FLOORS);
    SameFirstQueue(s.floors, r.floors, 0);
  }

  /** Two states with the same queues and an empty car, one move apart. */
  lemma NearerPickup(s: State, r: State)
    requires Typed(s) && Typed(r) && SameQueues(r, s) && PosOf(r.car) == Next(PosOf(s.car))
    requires !SomebodyAboard(s) && !SomebodyAboard(r) && Wanted(s)
    requires Next(PosOf(s.car)) != PosAt(Pickup(s))
    ensures Measure(r) < Measure(s)
  {
    SamePickup(s, r);
    LatestCovers(s.car.riders, PosOf(s.car), FLOORS);
    LatestCovers(r.car.riders, PosOf(r.car), FLOORS);
    var k := Pickup(s);
    var here := PosOf(s.car);
    hide Typed, Wanted, Pickup, PosOf, Next, MovesToPhase;
    PhaseCountdown(here, k);
  }

  lemma IdleRound(s: State)
    requires Running(s) && !SomebodyAboard(s) && SomebodyWaits(s) && Boarding(Moved(s)) == 0
    ensures SameQueues(Round(s), s) && !SomebodyAboard(Round(s))
  {
    hide LoadPhase, MovePhase;
    RoundOutcome(s);
    assert forall j :: Pick(AtDest, j, []) == [];
  }

  lemma Unsettled(s: State)
    requires Typed(s) && !Settled(s)
    ensures !Deserted(s) && (SomebodyAboard(s) || Wanted(s))
    ensures Wanted(s) ==> SomebodyWaits(s)
  {}

  /** Until all is settled, every round brings that nearer, whoever else is held up. */
  lemma {:induction false} MeasureDecreases(s: State)
    requires Running(s) && !Settled(s)
    ensures Measure(Round(s)) < Measure(s)
  {
    hide Good, LoadPhase, MovePhase, Boarding, LoadResult, Measure, Latest, Pickup;
    var r := Round(s);
    Unsettled(s);
    MeasureBounds(s);
    MeasureBounds(r);
    RoundServes(s);
    if Boarding(Moved(s)) == 0 {
      if SomebodyAboard(s) {
        RidersOnly(s);
      } else {
        IdleRound(s);
        RoundOutcome(s);
        if Next(PosOf(s.car)) == PosAt(Pickup(s)) {
          PicksUp(s);
        }
        NearerPickup(s, r);
      }
    }
  }

  lemma RidersOnly(s: State)
    requires Running(s) && SomebodyAboard(s) && Boarding(Moved(s)) == 0
    requires Waiting(Round(s).floors, FLOORS) == Waiting(s.floors, FLOORS)
    ensures Measure(Round(s)) < Measure(s)
  {
    hide Good, LoadPhase, MovePhase, Boarding, Round;
    RidesShorten(s);
    LatestCovers(s.car.riders, PosOf(s.car), FLOORS);
  }

  /** Once settled, the queues stay as they are. */
  lemma SettledStays(s: State)
    requires Running(s) && Settled(s)
    ensures Running(Round(s)) && Settled(Round(s)) && SameQueues(Round(s), s)
  {
    hide Good, LoadPhase, MovePhase;
    if Deserted(s) {
      DesertedStays(s);
    } else {
      RoundServes(s);
      IdleRound(s);
      RoundOutcome(s);
    }
  }

  /** Those held up at `s` are those held up at `r`. */
  ghost predicate SameHeldUp(s: State, r: State)
    requires Typed(s) && Typed(r)
  {
    HeldUp(r.floors[0].waiting) == HeldUp(s.floors[0].waiting)
  }

  lemma {:induction false} Drains(s: State, n: nat)
    requires Running(s)
    ensures Running(Rounds(s, n)) && SameHeldUp(s, Rounds(s, n))
    ensures Settled(Rounds(s, n)) || Measure(Rounds(s, n)) + n <= Measure(s)
  {
    hide Round, Good, Measure, Settled, HeldUp;
    if n > 0 {
      Drains(s, n - 1);
      var t := Rounds(s, n - 1);
      if Settled(t) {
        SettledStays(t);
      } else {
        Unsettled(t);
        RoundOutcome(t);
        RoundServes(t);
        MeasureDecreases(t);
      }
    }
  }

  lemma SettledQueues(s: State)
    requires Typed(s) && Settled(s)
    ensures s.floors[0].waiting == HeldUp(s.floors[0].waiting)
    ensures forall i | 0 < i < FLOORS :: s.floors[i].waiting == []
    ensures Deserted(s) <==> s.floors[0].waiting == []
  {
    var queue := s.floors[0].waiting;
    assert Servable(0, queue) == [];
    assert forall i | 0 < i < FLOORS :: Servable(i, s.floors[i].waiting) == [];
  }

  // ---------- The same about runs of the module ----------

  /** `n` worker phases and no system call. */
  function Workers(n: nat): seq<Action> {
    seq(n, _ => Worker)
  }

  lemma {:induction false} WorkersAreRounds(m: Sys, n: nat)
    requires Safe(m) && m.turn == MoveNext
    ensures var r := Run(m, Workers(2 * n));
      && r.state == Rounds(m.state, n) && r.turn == MoveNext && r.moves == m.moves + n
      && r.pending == m.pending && r.tickets == m.tickets
  {
    hide LoadPhase, MovePhase, Typed;
    if n > 0 {
      WorkersAreRounds(m, n - 1);
      assert Workers(2 * n)[..2 * n - 1] == Workers(2 * n - 1);
      assert Workers(2 * n - 1)[..2 * n - 2] == Workers(2 * n - 2);
    }
  }

  /** Nobody is aboard, the queue at the bottom is `left`, the other queues are empty, and everyone ever
      queued is delivered except those left. */
  ghost predicate ServedBut(s: State, left: seq<Passenger>)
    requires Typed(s)
  {
    && !SomebodyAboard(s) && s.floors[0].waiting == left
    && (forall i | 0 < i < FLOORS :: s.floors[i].waiting == [])
    && multiset(s.log.accepted) == multiset(s.log.delivered) + multiset(left)
  }

  /** Let the elevator be on duty and no more system calls come, and let `w` people wait whom nobody
      bound from the bottom for the bottom holds up. After 36w + 18 rounds (or any more) every one of
      them and every rider is delivered, and those held up wait exactly as they did. */
  lemma ServesAllButHeldUp(m: Sys, n: nat)
    requires Inv(m) && m.turn == MoveNext
    requires m.state.car.status != Offline && !m.state.car.shutdown
    requires n >= 36 * Waiting(m.state.floors, FLOORS) + 18
    ensures var r := Run(m, Workers(2 * n)).state;
      ServedBut(r, HeldUp(m.state.floors[0].waiting)) && r.log.accepted == m.state.log.accepted
  {
    hide Good, Inv, Measure, HeldUp;
    WorkersAreRounds(m, n);
    var s, r := m.state, Rounds(m.state, n);
    Drains(s, n);
    MeasureBounds(s);
    MeasureBounds(r);
    SettledQueues(r);
    RestDelivered(r);
    RoundsAccept(s, n);
  }

  /** So the building empties, and everyone ever queued is delivered, if and only if nobody waits at
      the bottom floor for the bottom floor. */
  lemma DrainsExactlyUnlessBlocked(m: Sys, n: nat)
    requires Inv(m) && m.turn == MoveNext
    requires m.state.car.status != Offline && !m.state.car.shutdown
    requires n >= 36 * Waiting(m.state.floors, FLOORS) + 18
    ensures var r := Run(m, Workers(2 * n)).state;
      && (Deserted(r) <==> !Blocked(m.state))
      && (!Blocked(m.state) <==> multiset(r.log.delivered) == multiset(m.state.log.accepted))
  {
    hide Good, Inv, HeldUp, Run;
    ServesAllButHeldUp(m, n);
    BlockedIsHeldUp(m.state);
    ServedDeserted(Run(m, Workers(2 * n)).state, HeldUp(m.state.floors[0].waiting));
  }

  lemma ServedDeserted(s: State, left: seq<Passenger>)
    requires Typed(s) && ServedBut(s, left)
    ensures Deserted(s) <==> left == []
    ensures multiset(s.log.delivered) == multiset(s.log.accepted) <==> left == []
  {
    assert |multiset(s.log.accepted)| == |multiset(s.log.delivered)| + |left|;
  }

  // ---------- When a load phase is due ----------

  /** The queues that count when a load phase is due. Only at the stale position, where the car is
      headed down at the bottom, does that phase take people bound from the bottom for the bottom. */
  ghost function Due(s: State): (r: seq<Floor>)
    requires Typed(s)
    ensures |r| == FLOORS
  {
    var queue := s.floors[0].waiting;
    if PosOf(s.car) == STALE then s.floors[0 := s.floors[0].(waiting := queue[Boarding(s)..])] else s.floors
  }

  lemma LoadDue(s: State, t: State)
    requires Typed(s) && Typed(t) && LoadResult(s, t)
    ensures HeldUp(t.floors[0].waiting) == HeldUp(Due(s)[0].waiting)
    ensures Waiting(t.floors, FLOORS) <= Waiting(Due(s), FLOORS)
  {
    if PosOf(s.car) == STALE {
      SameWaiting(t.floors, Due(s), FLOORS);
    } else {
      LoadServes(s, t);
    }
  }

  /** The same when a load phase is due, with all conditions on the state before that phase. */
  lemma ServesAllButHeldUpFromLoad(m: Sys, n: nat)
    requires Inv(m) && m.turn == LoadNext
    requires m.state.car.status != Offline && !m.state.car.shutdown
    requires n >= 36 * Waiting(Due(m.state), FLOORS) + 18
    ensures var r := Run(m, Workers(1 + 2 * n)).state;
      ServedBut(r, HeldUp(Due(m.state)[0].waiting)) && r.log.accepted == m.state.log.accepted
  {
    hide Inv, Good, LoadPhase, MovePhase, Run, HeldUp, Due, ServedBut;
    StepKeepsInv(m, Worker);
    LoadPhaseOutcome(m.state);
    LoadDue(m.state, LoadPhase(m.state));
    ServesAllButHeldUp(Step(m, Worker), n);
    WorkerFirst(m, 2 * n);
  }

  /** Somebody is left at the bottom for the bottom: at the stale position, behind those who board. */
  ghost predicate BlockedWhenDue(s: State)
    requires Typed(s)
  {
    var queue := s.floors[0].waiting;
    exists k :: 0 <= k < |queue| && queue[k].dest == 0 && (PosOf(s.car) == STALE ==> k >= Boarding(s))
  }

  lemma DrainsFromLoadPhase(m: Sys, n: nat)
    requires Inv(m) && m.turn == LoadNext
    requires m.state.car.status != Offline && !m.state.car.shutdown
    requires n >= 36 * Waiting(Due(m.state), FLOORS) + 18
    ensures var r := Run(m, Workers(1 + 2 * n)).state;
      && (Deserted(r) <==> !BlockedWhenDue(m.state))
      && (!BlockedWhenDue(m.state) <==> multiset(r.log.delivered) == multiset(m.state.log.accepted))
    ensures !Blocked(m.state) ==> !BlockedWhenDue(m.state)
    ensures PosOf(m.state.car) != STALE ==> (Blocked(m.state) <==> BlockedWhenDue(m.state))
  {
    hide Good, Inv, HeldUp, Run, Waiting, Boarding;
    ServesAllButHeldUpFromLoad(m, n);
    DueBlocked(m.state);
    ServedDeserted(Run(m, Workers(1 + 2 * n)).state, HeldUp(Due(m.state)[0].waiting));
  }

  lemma DueBlocked(s: State)
    requires Typed(s)
    ensures BlockedWhenDue(s) <==> HeldUp(Due(s)[0].waiting) != []
  {
    var queue, due := s.floors[0].waiting, Due(s)[0].waiting;
    var gone := |queue| - |due|;
    var h := Unhindered(due);
    assert forall k | gone <= k < |queue| :: queue[k] == due[k - gone];
    if h < |due| {
      assert queue[gone + h].dest == 0;
    }
  }

  lemma WorkerFirst(m: Sys, k: nat)
    requires Safe(m)
    ensures Run(m, Workers(1 + k)) == Run(Step(m, Worker), Workers(k))
  {
    hide LoadPhase, MovePhase, Typed;
    assert Workers(1 + k) == [Worker] + Workers(k);
    RunConcat(m, [Worker], Workers(k));
    assert Run(m, []) == m;
    assert Run(m, [Worker]) == Step(m, Worker);
  }

  lemma RestDelivered(s: State)
    requires Good(s) && !SomebodyAboard(s)
    requires forall i | 0 < i < FLOORS :: s.floors[i].waiting == []
    ensures multiset(s.log.accepted) == multiset(s.log.delivered) + multiset(s.floors[0].waiting)
  {
    var rest := s.floors[0].waiting;
    forall x ensures multiset(s.log.accepted)[x] == multiset(s.log.delivered)[x] + multiset(rest)[x] {
      if InBuilding(x.start) && InBuilding(x.dest) {
        Conservation(s, x);
        HomeCount(AtStart, 0, rest, x);
      } else {
        assert x !in s.log.delivered && x !in s.log.accepted && x !in rest;
      }
    }
  }

  lemma RoundAccepts(s: State)
    requires Running(s)
    ensures Running(Round(s)) && Round(s).log.accepted == s.log.accepted
  {
    if Deserted(s) {
      DesertedStays(s);
      MoveGood(s);
      LoadPhaseOutcome(MovePhase(s));
    } else {
      RoundOutcome(s);
    }
  }

  /** The worker thread queues nobody. */
  lemma {:induction false} RoundsAccept(s: State, n: nat)
    requires Running(s)
    ensures Running(Rounds(s, n)) && Rounds(s, n).log.accepted == s.log.accepted
  {
    hide Round;
    if n > 0 {
      RoundsAccept(s, n - 1);
      RoundAccepts(Rounds(s, n - 1));
    }
  }
}
