/** The elevator and the building as objects updated in place, with the operations of the header. */
module Structures {
  import opened Types
  import opened Lists
  import opened Sweep
  import Machine

  class Elevator {
    const p: array<seq<Passenger>>
    var status: Status
    var load: Tally
    var current: int
    var next: int
    var shutdown: bool
    var up: bool

    ghost function View(): Car
      reads this, p
    {
      Car(p[..], status, load, current, next, shutdown, up)
    }

    /** Starts offline at the bottom floor, empty and headed up. */
    constructor ()
      ensures fresh(p) && p.Length == FLOORS
      ensures View() == Machine.Initial().car
    {
      p := new seq<Passenger>[FLOORS];
      status, current, next, load, shutdown, up := Offline, 0, 1, ZERO, false, true;
      new;
      var i := 0;
      while i < FLOORS
        invariant 0 <= i <= FLOORS && p.Length == FLOORS
        invariant forall k | 0 <= k < i :: p[k] == []
        invariant status == Offline && load == ZERO && current == 0 && next == 1 && !shutdown && up
      {
        p[i] := [];
        i := i + 1;
      }
    }
  }

  class Building {
    const f: array<Floor>
    const e: Elevator
    ghost var log: Log

    ghost predicate Shape()
      reads this
    {
      f.Length == FLOORS && e.p.Length == FLOORS
    }

    ghost function View(): State
      reads this, f, e, e.p
    {
      State(e.View(), f[..], log)
    }

    ghost predicate Valid()
      reads this, f, e, e.p
    {
      Shape() && Machine.Typed(View())
    }

    constructor (e: Elevator)
      requires e.p.Length == FLOORS
      ensures this.e == e && fresh(f) && Shape()
      ensures View().floors == Machine.Initial().floors && View().log == Machine.Initial().log
    {
      this.e := e;
      f := new Floor[FLOORS](_ => Floor([], 0, ZERO, 0));
      log := Log([], [], [], []);
      new;
      var i := 0;
      while i < FLOORS
        invariant 0 <= i <= FLOORS && Shape() && this.e == e && log == Log([], [], [], [])
        invariant forall k | 0 <= k < i :: f[k] == Floor([], k, ZERO, 0)
      {
        f[i] := Floor([], i, ZERO, 0);
        i := i + 1;
      }
    }

    /** Queues a passenger. */
    method AddPass(p: Passenger)
      requires Valid() && InBuilding(p.start) && InBuilding(p.dest)
      modifies f, this`log
      ensures Valid() && View() == Machine.AddPass(old(View()), p)
      ensures p.kind.Unknown? ==> View() == old(View())
    {
      var weight, seats := Weight(p), Seats(p);
      if weight == -1 || seats == -1 {
        return;
      }
      var i := p.start;
      f[i] := f[i].(waiting := f[i].waiting + [p]);
      var t := f[i].load.(weight := f[i].load.weight + weight, seats := f[i].load.seats + seats);
      match p.kind {
        case Adult => t := t.(adult := t.adult + 1);
        case Child => t := t.(child := t.child + 1);
        case Room => t := t.(room := t.room + 1);
        case Bell => t := t.(bell := t.bell + 1);
        case Unknown(_) =>
      }
      f[i] := f[i].(load := t);
      log := log.(accepted := log.accepted + [p]);
      assert View() == Machine.AddPass(old(View()), p);
    }

    /** Takes a delivered passenger off the car and frees the node. */
    method DelPass(p: Passenger)
      requires Valid() && InBuilding(p.start) && InBuilding(p.dest) && p in e.p[p.dest]
      modifies f, e`load, e.p, this`log
      ensures Valid() && View() == Machine.DelPass(old(View()), p)
    {
      var weight, seats := Weight(p), Seats(p);
      if weight == -1 || seats == -1 {
        return;
      }
      match p.kind {
        case Adult => e.load := e.load.(adult := e.load.adult - 1);
        case Child => e.load := e.load.(child := e.load.child - 1);
        case Room => e.load := e.load.(room := e.load.room - 1);
        case Bell => e.load := e.load.(bell := e.load.bell - 1);
        case Unknown(_) =>
      }
      e.load := e.load.(weight := e.load.weight - weight, seats := e.load.seats - seats);
      f[p.start] := f[p.start].(serviced := f[p.start].serviced + 1);
      e.p[p.dest] := Remove(e.p[p.dest], p);
      log := log.(delivered := log.delivered + [p]);
      assert View() == Machine.DelPass(old(View()), p);
    }

    /** Moves a waiting passenger onto the car. */
    method MovePass(p: Passenger)
      requires Valid() && InBuilding(p.start) && InBuilding(p.dest) && p in f[p.start].waiting
      modifies f, e`load, e.p, this`log
      ensures Valid() && View() == Machine.MovePass(old(View()), p)
    {
      ghost var was := View();
      var weight, seats := Weight(p), Seats(p);
      if weight == -1 || seats == -1 {
        return;
      }
      var i := p.start;
      var t := f[i].load;
      match p.kind {
        case Adult =>
          t := t.(adult := t.adult - 1);
          e.load := e.load.(adult := e.load.adult + 1);
        case Child =>
          t := t.(child := t.child - 1);
          e.load := e.load.(child := e.load.child + 1);
        case Room =>
          t := t.(room := t.room - 1);
          e.load := e.load.(room := e.load.room + 1);
        case Bell =>
          t := t.(bell := t.bell - 1);
          e.load := e.load.(bell := e.load.bell + 1);
        case Unknown(_) =>
      }
      t := t.(weight := t.weight - weight, seats := t.seats - seats);
      e.load := e.load.(weight := e.load.weight + weight, seats := e.load.seats + seats);
      assert t == was.floors[i].load.Minus(p) && e.load == was.car.load.Plus(p);
      f[i] := f[i].(load := t);
      f[i] := f[i].(waiting := Remove(f[i].waiting, p));
      e.p[p.dest] := e.p[p.dest] + [p];
      log := log.(boarded := log.boarded + [p]);
      assert View() == Machine.MovePass(was, p);
    }

    predicate CheckFloor(i: int)
      requires 0 <= i < f.Length
      reads f
    {
      f[i].waiting != []
    }

    /** Whether anybody waits anywhere. */
    method CheckBuilding() returns (waiting: bool)
      requires Shape()
      ensures waiting <==> Machine.SomebodyWaits(View())
    {
      var i := 0;
      while i < FLOORS
        invariant 0 <= i <= FLOORS
        invariant forall k | 0 <= k < i :: f[k].waiting == []
      {
        if f[i].waiting != [] {
          return true;
        }
        i := i + 1;
      }
      return false;
    }

    /** Whether anybody is aboard. */
    method CheckElevator() returns (servicing: bool)
      requires Shape()
      ensures servicing <==> Machine.SomebodyAboard(View())
    {
      var i := 0;
      while i < FLOORS
        invariant 0 <= i <= FLOORS
        invariant forall k | 0 <= k < i :: e.p[k] == []
      {
        if e.p[i] != [] {
          return true;
        }
        i := i + 1;
      }
      return false;
    }
  }
}
