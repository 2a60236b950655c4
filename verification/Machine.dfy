/** What each operation of the module does to its state, as functions on values. The methods of
    `Structures` and `Kernel` are proved to compute these; the theorems are about them. */
module Machine {
  import opened Types
  import opened Lists
  import opened Sweep

  ghost function PosOf(car: Car): Pos {
    Pos(car.current, car.next, car.up)
  }

  ghost predicate HomeList(side: Side, i: int, s: seq<Passenger>) {
    forall p | p in s :: WellFormed(p) && Key(side, p) == i
  }

  /** Everybody is listed at the right floor, and the car is at a real position. Under this no index
      into the two arrays is out of range. */
  ghost predicate Typed(s: State) {
    && |s.car.riders| == FLOORS && |s.floors| == FLOORS
    && (forall i | 0 <= i < FLOORS :: HomeList(AtStart, i, s.floors[i].waiting))
    && (forall j | 0 <= j < FLOORS :: HomeList(AtDest, j, s.car.riders[j]))
    && Valid(PosOf(s.car))
  }

  /** Queues `p` at its start floor; a passenger of no known kind is ignored. */
  ghost function AddPass(s: State, p: Passenger): (r: State)
    requires Typed(s) && InBuilding(p.start) && InBuilding(p.dest)
    ensures Typed(r)
  {
    if Weight(p) == -1 || Seats(p) == -1 then s
    else
      var f := s.floors[p.start];
      s.(floors := s.floors[p.start := f.(waiting := f.waiting + [p], load := f.load.Plus(p))],
         log := s.log.(accepted := s.log.accepted + [p]))
  }

  /** Moves `p` from the queue of its start floor to the tail of the list of its destination. */
  ghost function MovePass(s: State, p: Passenger): (r: State)
    requires Typed(s) && InBuilding(p.start) && InBuilding(p.dest)
    ensures Typed(r)
  {
    if Weight(p) == -1 || Seats(p) == -1 then s
    else
      var f := s.floors[p.start];
      s.(floors := s.floors[p.start := f.(waiting := Remove(f.waiting, p), load := f.load.Minus(p))],
         car := s.car.(riders := s.car.riders[p.dest := s.car.riders[p.dest] + [p]],
                       load := s.car.load.Plus(p)),
         log := s.log.(boarded := s.log.boarded + [p]))
  }

  /** Takes `p` off the car, counts it as serviced where it started, and frees it. */
  ghost function DelPass(s: State, p: Passenger): (r: State)
    requires Typed(s) && InBuilding(p.start) && InBuilding(p.dest)
    ensures Typed(r)
  {
    if Weight(p) == -1 || Seats(p) == -1 then s
    else
      var f := s.floors[p.start];
      s.(floors := s.floors[p.start := f.(serviced := f.serviced + 1)],
         car := s.car.(riders := s.car.riders[p.dest := Remove(s.car.riders[p.dest], p)],
                       load := s.car.load.Minus(p)),
         log := s.log.(delivered := s.log.delivered + [p]))
  }

  ghost predicate AllWellFormed(s: seq<Passenger>) {
    forall p | p in s :: WellFormed(p)
  }

  /** The unloading loop, over the nodes still to visit. */
  ghost function UnloadFrom(s: State, rest: seq<Passenger>): (r: State)
    requires Typed(s) && AllWellFormed(rest)
    ensures Typed(r)
    decreases rest
  {
    if rest == [] then s
    else
      var p := rest[0];
      assert p in rest;
      if p.dest == s.car.current then UnloadFrom(DelPass(s, p), rest[1..])
      else UnloadFrom(s, rest[1..])
  }

  /** The loading loop, over the nodes still to visit: it stops at the first who cannot board. */
  ghost function BoardFrom(s: State, rest: seq<Passenger>): (r: State)
    requires Typed(s) && AllWellFormed(rest)
    ensures Typed(r)
    decreases rest
  {
    if rest == [] then s
    else
      var p := rest[0];
      assert p in rest;
      if CanFit(p, s.car.load) && GoesUp(p) == s.car.up then
        if p.start == s.car.current then BoardFrom(MovePass(s, p), rest[1..])
        else BoardFrom(s, rest[1..])
      else s
  }

  /** The first half of a round of the worker thread. */
  ghost function LoadPhase(s: State): (r: State)
    requires Typed(s)
    ensures Typed(r)
  {
    var cur := s.car.current;
    if s.car.status == Offline || (s.floors[cur].waiting == [] && s.car.riders[cur] == []) then s
    else
      var open := s.(car := s.car.(status := Loading));
      var unloaded := UnloadFrom(open, s.car.riders[cur]);
      if unloaded.floors[cur].waiting != [] && !s.car.shutdown
      then BoardFrom(unloaded, unloaded.floors[cur].waiting)
      else unloaded
  }

  ghost predicate SomebodyWaits(s: State)
    requires |s.floors| == FLOORS
  {
    exists i :: 0 <= i < FLOORS && s.floors[i].waiting != []
  }

  ghost predicate SomebodyAboard(s: State)
    requires |s.car.riders| == FLOORS
  {
    exists j :: 0 <= j < FLOORS && s.car.riders[j] != []
  }

  ghost function Advance(car: Car): Car {
    var pos := Next(PosOf(car));
    car.(current := pos.current, next := pos.next, up := pos.up, status := if pos.up then Up else Down)
  }

  /** The second half of a round of the worker thread. */
  ghost function MovePhase(s: State): (r: State)
    requires Typed(s)
    ensures Typed(r)
  {
    if s.car.status == Offline then s
    else if !SomebodyAboard(s) && !SomebodyWaits(s) then s.(car := s.car.(status := Idle))
    else if !SomebodyAboard(s) && s.car.shutdown then s.(car := s.car.(status := Offline))
    else s.(car := Advance(s.car))
  }

  /** Starting takes effect only when the car is offline. It does not reset the direction. */
  ghost function StartElevator(s: State): (r: State)
    requires Typed(s)
    ensures Typed(r)
  {
    if s.car.status != Offline then s
    else s.(car := s.car.(status := Idle, current := 0, next := 1, shutdown := false))
  }

  ghost function StopElevator(s: State): (r: State)
    requires Typed(s)
    ensures Typed(r)
  {
    s.(car := s.car.(shutdown := true))
  }

  ghost function Initial(): (r: State)
    ensures Typed(r)
  {
    State(Car(seq(FLOORS, _ => []), Offline, ZERO, 0, 1, false, true),
          seq(FLOORS, i => Floor([], i, ZERO, 0)),
          Log([], [], [], []))
  }

  /** The order in which the exit loops free the first `n` floors: riders, then the queue, by floor. */
  ghost function Drained(s: State, n: nat): seq<Passenger>
    requires |s.car.riders| == FLOORS && |s.floors| == FLOORS && n <= FLOORS
  {
    if n == 0 then [] else Drained(s, n - 1) + s.car.riders[n - 1] + s.floors[n - 1].waiting
  }

  /** The module's exit: every list is emptied and its nodes freed; the counters stay as they are. */
  ghost function Exit(s: State): State
    requires Typed(s)
  {
    s.(car := s.car.(riders := seq(FLOORS, _ => [])),
       floors := seq(FLOORS, i requires 0 <= i < FLOORS => s.floors[i].(waiting := [])),
       log := s.log.(discarded := s.log.discarded + Drained(s, FLOORS)))
  }
}
