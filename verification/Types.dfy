/** The structures of the elevator module: passengers, the six load counters, the car, the floors.

    Every counter is a mathematical integer. A C enum can hold a value outside its list; `Unknown` and
    `NotSet` stand for those values, so that the branches that look for them are modelled too. */
module Types {

  const FLOORS := 10
  const MAX_WEIGHT := 30
  const MAX_SEATS := 10

  datatype Kind = Adult | Child | Room | Bell | Unknown(code: int)

  datatype Status = Idle | Offline | Loading | Up | Down | NotSet(code: int)

  /** A passenger node. `id` stands for the node's address: no two allocations share it. */
  datatype Passenger = Passenger(id: nat, kind: Kind, start: int, dest: int)

  predicate InBuilding(floor: int) {
    0 <= floor < FLOORS
  }

  predicate WellFormed(p: Passenger) {
    !p.kind.Unknown? && InBuilding(p.start) && InBuilding(p.dest)
  }

  /** Weight in half units; -1 for a kind that is not one of the four. */
  function Weight(p: Passenger): (units: int)
    ensures units == -1 <==> p.kind.Unknown?
  {
    match p.kind
    case Child => 1
    case Adult => 2
    case Room => 4
    case Bell => 8
    case Unknown(_) => -1
  }

  /** Places taken; -1 for a kind that is not one of the four. */
  function Seats(p: Passenger): (places: int)
    ensures places == -1 <==> p.kind.Unknown?
  {
    if p.kind.Child? || p.kind.Adult? then 1
    else if p.kind.Room? || p.kind.Bell? then 2
    else -1
  }

  predicate GoesUp(p: Passenger) {
    p.dest > p.start
  }

  /** The six counters that the car and every floor keep beside their lists. */
  datatype Tally = Tally(weight: int, seats: int, adult: int, child: int, room: int, bell: int) {

    function Plus(p: Passenger): Tally {
      Tally(weight + Weight(p), seats + Seats(p),
            if p.kind.Adult? then adult + 1 else adult,
            if p.kind.Child? then child + 1 else child,
            if p.kind.Room? then room + 1 else room,
            if p.kind.Bell? then bell + 1 else bell)
    }

    function Minus(p: Passenger): Tally {
      Tally(weight - Weight(p), seats - Seats(p),
            if p.kind.Adult? then adult - 1 else adult,
            if p.kind.Child? then child - 1 else child,
            if p.kind.Room? then room - 1 else room,
            if p.kind.Bell? then bell - 1 else bell)
    }
  }

  const ZERO := Tally(0, 0, 0, 0, 0, 0)

  predicate CanFit(p: Passenger, load: Tally) {
    Weight(p) + load.weight <= MAX_WEIGHT && Seats(p) + load.seats <= MAX_SEATS
  }

  /** `riders[j]` lists the passengers aboard whose destination is `j`. */
  datatype Car = Car(riders: seq<seq<Passenger>>, status: Status, load: Tally,
                     current: int, next: int, shutdown: bool, up: bool)

  datatype Floor = Floor(waiting: seq<Passenger>, level: int, load: Tally, serviced: int)

  /** What happened so far: passengers queued, boarded, delivered (and freed), and freed at exit,
      each in the order in which it happened. The module does not store this. */
  datatype Log = Log(accepted: seq<Passenger>, boarded: seq<Passenger>,
                     delivered: seq<Passenger>, discarded: seq<Passenger>)

  datatype State = State(car: Car, floors: seq<Floor>, log: Log)
}
