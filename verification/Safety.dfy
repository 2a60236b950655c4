/** What holds in every state of every run, including between two passengers of a loading loop. */
module Safety {
  import opened Types
  import opened Lists
  import opened Sweep
  import opened Machine

  /** The redundant counters agree with the lists. */
  ghost predicate Accounts(s: State)
    requires Typed(s)
  {
    (forall q | Counted(q) :: Counter(s.car.load, q) == Total(q, s.car.riders))
    && (forall i | 0 <= i < FLOORS :: FloorAccounts(s.floors[i]))
  }

  ghost predicate FloorAccounts(f: Floor) {
    forall q | Counted(q) :: Counter(f.load, q) == Sum(q, f.waiting)
  }

  ghost predicate Capacity(s: State) {
    s.car.load.weight <= 30 && s.car.load.seats <= 10
  }

  /** Floor by floor, people board in the order in which they were queued; destination by
      destination, they get off in the order in which they boarded. */
  ghost predicate Fifo(s: State)
    requires Typed(s)
  {
    && (forall i | 0 <= i < FLOORS ::
          Pick(AtStart, i, s.log.accepted) == Pick(AtStart, i, s.log.boarded) + s.floors[i].waiting)
    && (forall j | 0 <= j < FLOORS ::
          Pick(AtDest, j, s.log.boarded) == Pick(AtDest, j, s.log.delivered) + s.car.riders[j])
  }

  /** What boarded is what got off plus what is aboard, in every quantity; `serviced` counts, at the
      start floor, those who got off. */
  ghost predicate Carried(s: State)
    requires Typed(s)
  {
    && (forall q :: Sum(q, s.log.boarded) == Sum(q, s.log.delivered) + Total(q, s.car.riders))
    && (forall i | 0 <= i < FLOORS ::
          s.floors[i].serviced == Sum(From(i), s.log.delivered) && s.floors[i].level == i)
    && AllWellFormed(s.log.accepted) && AllWellFormed(s.log.boarded) && AllWellFormed(s.log.delivered)
  }

  /** Offline, the car is empty; a car shown as moving is headed the way it says. */
  ghost predicate Truthful(s: State)
    requires Typed(s)
  {
    && !s.car.status.NotSet?
    && (s.car.status == Offline ==> !SomebodyAboard(s))
    && (s.car.status == Up ==> s.car.up && s.car.next == s.car.current + 1)
    && (s.car.status == Down ==> !s.car.up && s.car.next == s.car.current - 1)
  }

  ghost predicate Good(s: State)
    ensures Good(s) ==> Typed(s)
  {
    Typed(s) && Accounts(s) && Capacity(s) && Fifo(s) && Carried(s) && Truthful(s)
  }

  // ---------- The three list operations ----------

  lemma AddPassAccounts(s: State, p: Passenger)
    requires Typed(s) && Accounts(s) && WellFormed(p)
    ensures Accounts(AddPass(s, p))
  {
    var f := s.floors[p.start];
    forall q | Counted(q) ensures Counter(f.load.Plus(p), q) == Sum(q, f.waiting + [p]) {
      SumSnoc(q, f.waiting, p);
      CounterShift(f.load, p, q);
    }
    assert FloorAccounts(AddPass(s, p).floors[p.start]);
  }

  lemma AddPassFifo(s: State, p: Passenger)
    requires Typed(s) && Fifo(s) && WellFormed(p)
    ensures Fifo(AddPass(s, p))
  {
    var r := AddPass(s, p);
    forall i | 0 <= i < FLOORS
      ensures Pick(AtStart, i, r.log.accepted) == Pick(AtStart, i, r.log.boarded) + r.floors[i].waiting
    {
      PickSnoc(AtStart, i, s.log.accepted, p);
    }
  }

  lemma AddPassGood(s: State, p: Passenger)
    requires Good(s) && WellFormed(p)
    ensures Good(AddPass(s, p))
  {
    AddPassAccounts(s, p);
    AddPassFifo(s, p);
  }

  /** `p` heads its queue, so that the loading loop may move it. */
  ghost predicate FirstIn(s: State, p: Passenger)
    requires Typed(s)
  {
    WellFormed(p) && s.floors[p.start].waiting != [] && s.floors[p.start].waiting[0] == p
  }

  lemma MovePassLists(s: State, p: Passenger)
    requires Typed(s) && FirstIn(s, p)
    ensures var r := MovePass(s, p);
      && r.floors[p.start].waiting == s.floors[p.start].waiting[1..]
      && r.log == s.log.(boarded := s.log.boarded + [p])
  {}

  /** Wherever `p` stands in its queue: it leaves that place for the tail of the list of its destination,
      every other list stays, and all counters still agree with the lists. */
  lemma MovePassAnyone(s: State, p: Passenger, k: nat)
    requires Typed(s) && Accounts(s) && WellFormed(p)
    requires var queue := s.floors[p.start].waiting; k < |queue| && queue[k] == p && p !in queue[..k]
    ensures Accounts(MovePass(s, p))
    ensures var r := MovePass(s, p); var queue := s.floors[p.start].waiting;
      && r.car == s.car.(riders := s.car.riders[p.dest := s.car.riders[p.dest] + [p]], load := r.car.load)
      && (forall i | 0 <= i < FLOORS && i != p.start :: r.floors[i] == s.floors[i])
      && r.floors[p.start] ==
           s.floors[p.start].(waiting := queue[..k] + queue[k + 1..], load := r.floors[p.start].load)
  {
    var r := MovePass(s, p);
    var f := s.floors[p.start];
    RemoveFirst(f.waiting, p, k);
    forall q | Counted(q) ensures Counter(r.car.load, q) == Total(q, r.car.riders) {
      TotalUpdate(q, s.car.riders, p.dest, s.car.riders[p.dest] + [p]);
      SumSnoc(q, s.car.riders[p.dest], p);
      CounterShift(s.car.load, p, q);
    }
    forall q | Counted(q) ensures Counter(f.load.Minus(p), q) == Sum(q, Remove(f.waiting, p)) {
      SumRemove(q, f.waiting, p);
      CounterShift(f.load, p, q);
    }
    assert FloorAccounts(r.floors[p.start]);
  }

  lemma MovePassFifo(s: State, p: Passenger)
    requires Typed(s) && Fifo(s) && FirstIn(s, p)
    ensures Fifo(MovePass(s, p))
  {
    var r := MovePass(s, p);
    MovePassLists(s, p);
    var w := s.floors[p.start].waiting;
    forall i | 0 <= i < FLOORS
      ensures Pick(AtStart, i, r.log.accepted) == Pick(AtStart, i, r.log.boarded) + r.floors[i].waiting
    {
      PickSnoc(AtStart, i, s.log.boarded, p);
      assert Pick(AtStart, i, s.log.boarded) + w == Pick(AtStart, i, s.log.boarded) + [p] + w[1..];
    }
    forall j | 0 <= j < FLOORS
      ensures Pick(AtDest, j, r.log.boarded) == Pick(AtDest, j, r.log.delivered) + r.car.riders[j]
    {
      PickSnoc(AtDest, j, s.log.boarded, p);
    }
  }

  lemma MovePassCarried(s: State, p: Passenger)
    requires Typed(s) && Carried(s) && FirstIn(s, p)
    ensures Carried(MovePass(s, p))
  {
    var r := MovePass(s, p);
    MovePassLists(s, p);
    forall q ensures Sum(q, r.log.boarded) == Sum(q, r.log.delivered) + Total(q, r.car.riders) {
      TotalUpdate(q, s.car.riders, p.dest, s.car.riders[p.dest] + [p]);
      SumSnoc(q, s.car.riders[p.dest], p);
      SumSnoc(q, s.log.boarded, p);
    }
  }

  lemma MovePassGood(s: State, p: Passenger)
    requires Good(s) && FirstIn(s, p) && CanFit(p, s.car.load) && s.car.status != Offline
    ensures Good(MovePass(s, p))
  {
    MovePassAnyone(s, p, 0);
    MovePassFifo(s, p);
    MovePassCarried(s, p);
  }

  /** `p` heads the list of its destination, so that the unloading loop may delete it. */
  ghost predicate FirstOff(s: State, p: Passenger)
    requires Typed(s)
  {
    WellFormed(p) && s.car.riders[p.dest] != [] && s.car.riders[p.dest][0] == p
  }

  lemma DelPassLists(s: State, p: Passenger)
    requires Typed(s) && FirstOff(s, p)
    ensures var r := DelPass(s, p);
      && r.car.riders == s.car.riders[p.dest := s.car.riders[p.dest][1..]]
      && r.log == s.log.(delivered := s.log.delivered + [p])
  {}

  /** Wherever `p` stands in its list: it leaves that place, one more is serviced where it started, every
      other list stays, and all counters still agree with the lists. */
  lemma DelPassAnyone(s: State, p: Passenger, k: nat)
    requires Typed(s) && Accounts(s) && WellFormed(p)
    requires var list := s.car.riders[p.dest]; k < |list| && list[k] == p && p !in list[..k]
    ensures Accounts(DelPass(s, p))
    ensures var r := DelPass(s, p); var list := s.car.riders[p.dest];
      && r.car == s.car.(riders := s.car.riders[p.dest := list[..k] + list[k + 1..]], load := r.car.load)
      && (forall i | 0 <= i < FLOORS && i != p.start :: r.floors[i] == s.floors[i])
      && r.floors[p.start] == s.floors[p.start].(serviced := s.floors[p.start].serviced + 1)
  {
    var r := DelPass(s, p);
    var list := s.car.riders[p.dest];
    RemoveFirst(list, p, k);
    forall q | Counted(q) ensures Counter(r.car.load, q) == Total(q, r.car.riders) {
      TotalUpdate(q, s.car.riders, p.dest, Remove(list, p));
      SumRemove(q, list, p);
      CounterShift(s.car.load, p, q);
    }
    assert FloorAccounts(r.floors[p.start]);
  }

  lemma DelPassFifo(s: State, p: Passenger)
    requires Typed(s) && Fifo(s) && FirstOff(s, p)
    ensures Fifo(DelPass(s, p))
  {
    var r := DelPass(s, p);
    DelPassLists(s, p);
    var w := s.car.riders[p.dest];
    assert w == [p] + w[1..];
    forall j | 0 <= j < FLOORS
      ensures Pick(AtDest, j, r.log.boarded) == Pick(AtDest, j, r.log.delivered) + r.car.riders[j]
    {
      PickSnoc(AtDest, j, s.log.delivered, p);
    }
  }

  lemma DelPassCarried(s: State, p: Passenger)
    requires Typed(s) && Carried(s) && FirstOff(s, p)
    ensures Carried(DelPass(s, p))
  {
    var r := DelPass(s, p);
    DelPassLists(s, p);
    forall q ensures Sum(q, r.log.boarded) == Sum(q, r.log.delivered) + Total(q, r.car.riders) {
      TotalUpdate(q, s.car.riders, p.dest, s.car.riders[p.dest][1..]);
      SumHead(q, s.car.riders[p.dest]);
      SumSnoc(q, s.log.delivered, p);
    }
    forall i | 0 <= i < FLOORS
      ensures r.floors[i].serviced == Sum(From(i), r.log.delivered) && r.floors[i].level == i
    {
      SumSnoc(From(i), s.log.delivered, p);
    }
  }

  lemma DelPassGood(s: State, p: Passenger)
    requires Good(s) && FirstOff(s, p) && s.car.status != Offline
    ensures Good(DelPass(s, p))
  {
    DelPassAnyone(s, p, 0);
    DelPassFifo(s, p);
    DelPassCarried(s, p);
    assert DelPass(s, p).car.load.weight <= s.car.load.weight;
  }

  // ---------- The loops and the phases ----------

  /** The unloading loop keeps the invariant at every node it visits. */
  lemma {:induction false} UnloadGood(s: State, rest: seq<Passenger>)
    requires Good(s) && s.car.status != Offline && rest == s.car.riders[s.car.current]
    ensures AllWellFormed(rest) && Good(UnloadFrom(s, rest))
    decreases rest
  {
    if rest != [] {
      var p := rest[0];
      assert p in rest;
      DelPassGood(s, p);
      DelPassLists(s, p);
      UnloadGood(DelPass(s, p), rest[1..]);
    }
  }

  /** The loading loop keeps the invariant, the two capacity limits among it, at every node. */
  lemma {:induction false} BoardGood(s: State, rest: seq<Passenger>)
    requires Good(s) && s.car.status != Offline && rest == s.floors[s.car.current].waiting
    ensures AllWellFormed(rest) && Good(BoardFrom(s, rest))
    decreases rest
  {
    if rest != [] {
      var p := rest[0];
      assert p in rest;
      if CanFit(p, s.car.load) && GoesUp(p) == s.car.up {
        MovePassGood(s, p);
        MovePassLists(s, p);
        BoardGood(MovePass(s, p), rest[1..]);
      }
    }
  }

  /** A step that changes no list, counter or history keeps what is said about those. */
  lemma SameListsGood(s: State, r: State)
    requires Good(s) && Typed(r) && Truthful(r)
    requires r.car.riders == s.car.riders && r.car.load == s.car.load
    requires r.floors == s.floors && r.log == s.log
    ensures Good(r)
  {}

  /** Opening the doors changes the status only. */
  lemma OpenGood(s: State, r: State)
    requires Good(s) && s.car.status != Offline && r == s.(car := s.car.(status := Loading))
    ensures Good(r)
  {
    SameListsGood(s, r);
  }
}
