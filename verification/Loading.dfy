/** What one load phase achieves, said without its loops. */
module Loading {
  import opened Types
  import opened Lists
  import opened Machine
  import opened Safety

  /** The counters recomputed from the lists. */
  ghost function LoadOf(riders: seq<seq<Passenger>>): Tally {
    Tally(Total(Weights, riders), Total(Places, riders), Total(Adults, riders),
          Total(Children, riders), Total(Rooms, riders), Total(Bells, riders))
  }

  lemma LoadIsRecomputed(s: State)
    requires Typed(s) && Accounts(s)
    ensures s.car.load == LoadOf(s.car.riders)
  {
    assert Counted(Weights) && Counted(Places) && Counted(Adults);
    assert Counted(Children) && Counted(Rooms) && Counted(Bells);
  }

  /** The member at `k` of the queue goes the car's way and fits within 30 half units and 10 places, all
      those before it aboard. */
  ghost predicate Boardable(load: Tally, up: bool, queue: seq<Passenger>, k: nat)
    requires k < |queue|
  {
    && (queue[k].dest > queue[k].start) == up
    && load.weight + Sum(Weights, queue[..k + 1]) <= 30
    && load.seats + Sum(Places, queue[..k + 1]) <= 10
  }

  /** How many board from the front of the queue. */
  ghost function BoardCount(load: Tally, up: bool, queue: seq<Passenger>): (n: nat)
    ensures n <= |queue|
    decreases queue
  {
    if queue == [] || !CanFit(queue[0], load) || GoesUp(queue[0]) != up then 0
    else 1 + BoardCount(load.Plus(queue[0]), up, queue[1..])
  }

  lemma SumFront(queue: seq<Passenger>, k: nat)
    requires 1 <= k <= |queue|
    ensures Sum(Weights, queue[..k]) == Weight(queue[0]) + Sum(Weights, queue[1..][..k - 1])
    ensures Sum(Places, queue[..k]) == Seats(queue[0]) + Sum(Places, queue[1..][..k - 1])
  {
    SumHead(Weights, queue[..k]);
    SumHead(Places, queue[..k]);
    assert queue[..k][1..] == queue[1..][..k - 1];
  }

  /** It is the longest prefix all of whose members are boardable. */
  lemma {:induction false} LongestPrefix(load: Tally, up: bool, queue: seq<Passenger>, n: nat)
    requires n <= |queue|
    ensures n == BoardCount(load, up, queue) <==>
      && (forall k: nat | k < n :: Boardable(load, up, queue, k))
      && (n < |queue| ==> !Boardable(load, up, queue, n))
    decreases queue
  {
    if queue != [] {
      SumFront(queue, 1);
      if CanFit(queue[0], load) && GoesUp(queue[0]) == up {
        assert Boardable(load, up, queue, 0);
        if n > 0 {
          var load', rest := load.Plus(queue[0]), queue[1..];
          forall k: nat | k < |rest|
            ensures Boardable(load, up, queue, k + 1) <==> Boardable(load', up, rest, k)
          {
            SumFront(queue, k + 2);
          }
          LongestPrefix(load', up, rest, n - 1);
          forall k: nat | k < n && Boardable(load, up, queue, k) && k > 0
            ensures Boardable(load', up, rest, k - 1)
          {
            assert Boardable(load, up, queue, (k - 1) + 1);
          }
          forall k: nat | k < n && (k > 0 ==> Boardable(load', up, rest, k - 1))
            ensures Boardable(load, up, queue, k)
          {
            if k > 0 {
              assert Boardable(load, up, queue, (k - 1) + 1);
            }
          }
        }
      } else {
        assert !Boardable(load, up, queue, 0);
      }
    }
  }

  ghost predicate SameQueues(r: State, s: State)
    requires |r.floors| == FLOORS && |s.floors| == FLOORS
  {
    forall i | 0 <= i < FLOORS :: r.floors[i].waiting == s.floors[i].waiting
  }

  /** The unloading loop empties the list it walks and delivers it in order. */
  lemma {:induction false} UnloadOutcome(s: State, rest: seq<Passenger>)
    requires Typed(s) && rest == s.car.riders[s.car.current]
    ensures AllWellFormed(rest)
    ensures var r := UnloadFrom(s, rest);
      && r.car == s.car.(riders := s.car.riders[s.car.current := []], load := r.car.load)
      && SameQueues(r, s)
      && r.log == s.log.(delivered := s.log.delivered + rest)
    decreases rest
  {
    if rest == [] {
      assert s.car.riders == s.car.riders[s.car.current := []];
      assert s.log.delivered + rest == s.log.delivered;
    } else {
      var p := rest[0];
      assert p in rest;
      DelPassLists(s, p);
      UnloadOutcome(DelPass(s, p), rest[1..]);
      assert s.log.delivered + [p] + rest[1..] == s.log.delivered + rest;
    }
  }

  /** `b` is `a` with everyone in `took` appended to the list of their destination. */
  ghost predicate Gained(a: seq<seq<Passenger>>, b: seq<seq<Passenger>>, took: seq<Passenger>)
    requires |a| == FLOORS && |b| == FLOORS
  {
    forall j | 0 <= j < FLOORS :: b[j] == a[j] + Pick(AtDest, j, took)
  }

  lemma GainedOne(a: seq<seq<Passenger>>, p: Passenger)
    requires |a| == FLOORS && InBuilding(p.dest)
    ensures Gained(a, a[p.dest := a[p.dest] + [p]], [p])
  {
    forall j ensures Pick(AtDest, j, [p]) == if p.dest == j then [p] else [] {
      PickSnoc(AtDest, j, [], p);
      assert [] + [p] == [p];
    }
  }

  lemma GainedThen(a: seq<seq<Passenger>>, b: seq<seq<Passenger>>, c: seq<seq<Passenger>>,
                   first: seq<Passenger>, more: seq<Passenger>)
    requires |a| == FLOORS && |b| == FLOORS && |c| == FLOORS
    requires Gained(a, b, first) && Gained(b, c, more)
    ensures Gained(a, c, first + more)
  {
    forall j | 0 <= j < FLOORS ensures c[j] == a[j] + Pick(AtDest, j, first + more) {
      PickConcat(AtDest, j, first, more);
    }
  }

  /** `n` people left the front of the queue at the car's floor for the car. */
  ghost predicate BoardResult(s: State, r: State, n: nat)
    requires Typed(s) && Typed(r) && n <= |s.floors[s.car.current].waiting|
  {
    var cur := s.car.current;
    var queue := s.floors[cur].waiting;
    && r.car == s.car.(riders := r.car.riders, load := r.car.load)
    && Gained(s.car.riders, r.car.riders, queue[..n])
    && (forall i | 0 <= i < FLOORS ::
          r.floors[i].waiting == if i == cur then queue[n..] else s.floors[i].waiting)
    && r.log == s.log.(boarded := s.log.boarded + queue[..n])
  }

  lemma NobodyBoards(s: State)
    requires Typed(s)
    ensures BoardResult(s, s, 0)
  {
    assert s.log.boarded + s.floors[s.car.current].waiting[..0] == s.log.boarded;
  }

  lemma MovePassResult(s: State, p: Passenger)
    requires Typed(s) && FirstIn(s, p) && p.start == s.car.current
    ensures BoardResult(s, MovePass(s, p), 1)
  {
    MovePassLists(s, p);
    GainedOne(s.car.riders, p);
    assert s.floors[s.car.current].waiting[..1] == [p];
  }

  lemma BoardThen(s: State, t: State, r: State, n: nat)
    requires Typed(s) && Typed(t) && Typed(r) && n < |s.floors[s.car.current].waiting|
    requires BoardResult(s, t, 1) && BoardResult(t, r, n)
    ensures BoardResult(s, r, n + 1)
  {
    var queue := s.floors[s.car.current].waiting;
    var first, more := queue[..1], queue[1..][..n];
    GainedThen(s.car.riders, t.car.riders, r.car.riders, first, more);
    assert queue[..n + 1] == first + more;
    assert s.log.boarded + first + more == s.log.boarded + (first + more);
    assert queue[1..][n..] == queue[n + 1..];
  }

  /** The loading loop moves the front of the queue, each to the list of its destination. */
  lemma {:induction false} BoardOutcome(s: State, rest: seq<Passenger>)
    requires Typed(s) && rest == s.floors[s.car.current].waiting
    ensures AllWellFormed(rest)
    ensures BoardResult(s, BoardFrom(s, rest), BoardCount(s.car.load, s.car.up, rest))
    decreases rest
  {
    var n := BoardCount(s.car.load, s.car.up, rest);
    if n == 0 {
      assert rest == [] || rest[0] in rest;
      NobodyBoards(s);
    } else {
      var p := rest[0];
      assert p in rest;
      var t := MovePass(s, p);
      MovePassLists(s, p);
      MovePassResult(s, p);
      BoardOutcome(t, rest[1..]);
      BoardThen(s, t, BoardFrom(t, rest[1..]), n - 1);
    }
  }

  /** How many board in a load phase: the car is unloaded first, and a shutdown lets nobody in. */
  ghost function Boarding(s: State): (n: nat)
    requires Typed(s)
    ensures n <= |s.floors[s.car.current].waiting|
  {
    if s.car.status == Offline || s.car.shutdown then 0
    else BoardCount(LoadOf(s.car.riders[s.car.current := []]), s.car.up, s.floors[s.car.current].waiting)
  }

  /** The whole load phase: everybody for this floor gets off in order, then exactly the longest
      boardable prefix of the queue gets on, and nothing else changes. */
  ghost predicate LoadResult(s: State, r: State)
    requires Typed(s) && Typed(r)
  {
    var cur := s.car.current;
    var queue := s.floors[cur].waiting;
    var n := Boarding(s);
    && PosOf(r.car) == PosOf(s.car) && r.car.shutdown == s.car.shutdown
    && r.car.status == (if s.car.status == Offline || (queue == [] && s.car.riders[cur] == [])
                        then s.car.status else Loading)
    && (forall j | 0 <= j < FLOORS :: r.car.riders[j] ==
          (if j == cur then [] else s.car.riders[j]) + Pick(AtDest, j, queue[..n]))
    && (forall i | 0 <= i < FLOORS ::
          r.floors[i].waiting == if i == cur then queue[n..] else s.floors[i].waiting)
    && r.log == s.log.(delivered := s.log.delivered + s.car.riders[cur],
                       boarded := s.log.boarded + queue[..n])
  }

  lemma NothingToLoad(s: State)
    requires Good(s)
    requires s.car.status == Offline || (s.floors[s.car.current].waiting == [] && s.car.riders[s.car.current] == [])
    ensures LoadResult(s, s)
  {
    var cur := s.car.current;
    assert s.car.riders[cur] == [];
    assert s.log.delivered + s.car.riders[cur] == s.log.delivered;
    assert s.log.boarded + s.floors[cur].waiting[..0] == s.log.boarded;
  }

  lemma LoadPhaseGood(s: State)
    requires Good(s)
    ensures Good(LoadPhase(s))
  {
    var cur := s.car.current;
    if s.car.status != Offline && (s.floors[cur].waiting != [] || s.car.riders[cur] != []) {
      var open := s.(car := s.car.(status := Loading));
      UnloadGood(open, s.car.riders[cur]);
      var t := UnloadFrom(open, s.car.riders[cur]);
      UnloadOutcome(open, s.car.riders[cur]);
      if t.floors[cur].waiting != [] && !s.car.shutdown {
        BoardGood(t, t.floors[cur].waiting);
      }
    }
  }

  lemma LoadPhaseOutcome(s: State)
    requires Good(s)
    ensures LoadResult(s, LoadPhase(s))
  {
    var cur := s.car.current;
    if s.car.status == Offline || (s.floors[cur].waiting == [] && s.car.riders[cur] == []) {
      NothingToLoad(s);
    } else {
      var open := s.(car := s.car.(status := Loading));
      UnloadGood(open, s.car.riders[cur]);
      UnloadOutcome(open, s.car.riders[cur]);
      var t := UnloadFrom(open, s.car.riders[cur]);
      LoadIsRecomputed(t);
      var queue := t.floors[cur].waiting;
      if queue != [] && !s.car.shutdown {
        BoardOutcome(t, queue);
        assert BoardResult(t, LoadPhase(s), Boarding(s));
      } else {
        NobodyBoards(t);
        assert BoardResult(t, LoadPhase(s), Boarding(s));
      }
      UnloadThenBoard(s, t, LoadPhase(s));
    }
  }

  lemma UnloadThenBoard(s: State, t: State, r: State)
    requires Typed(s) && Typed(t) && Typed(r) && s.car.status != Offline
    requires s.floors[s.car.current].waiting != [] || s.car.riders[s.car.current] != []
    requires t.car == s.car.(status := Loading, riders := s.car.riders[s.car.current := []], load := t.car.load)
    requires SameQueues(t, s) && t.log == s.log.(delivered := s.log.delivered + s.car.riders[s.car.current])
    requires BoardResult(t, r, Boarding(s))
    ensures LoadResult(s, r)
  {}

  /** Nobody at the head of the queue could still get on. */
  ghost predicate Exhausted(r: State)
    requires Typed(r)
  {
    var queue := r.floors[r.car.current].waiting;
    || queue == []
    || (queue[0].dest > queue[0].start) != r.car.up
    || Weight(queue[0]) + r.car.load.weight > 30
    || Seats(queue[0]) + r.car.load.seats > 10
  }

  lemma {:induction false} BoardStops(s: State, rest: seq<Passenger>)
    requires Typed(s) && rest == s.floors[s.car.current].waiting
    ensures AllWellFormed(rest) && Exhausted(BoardFrom(s, rest))
    decreases rest
  {
    if rest != [] {
      var p := rest[0];
      assert p in rest;
      if CanFit(p, s.car.load) && GoesUp(p) == s.car.up {
        MovePassLists(s, p);
        BoardStops(MovePass(s, p), rest[1..]);
      }
    }
  }

  /** A load phase leaves nobody behind who could have boarded: the queue is empty, or its new head goes
      the other way or does not fit beside those now aboard, or a shutdown is requested. */
  lemma LoadLeavesNobodyBehind(s: State)
    requires Good(s) && s.car.status != Offline && !s.car.shutdown
    ensures Exhausted(LoadPhase(s))
  {
    var cur := s.car.current;
    if s.floors[cur].waiting != [] || s.car.riders[cur] != [] {
      var open := s.(car := s.car.(status := Loading));
      UnloadOutcome(open, s.car.riders[cur]);
      var t := UnloadFrom(open, s.car.riders[cur]);
      if t.floors[cur].waiting != [] {
        BoardStops(t, t.floors[cur].waiting);
      }
    }
  }
}
