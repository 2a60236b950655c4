/** The module as a state machine: the worker thread and the system calls, interleaved freely. */
module System {
  import opened Types
  import opened Machine

  datatype Turn = LoadNext | MoveNext

  /** `pending` holds the passengers that a request has allocated but not yet queued: the shutdown
      flag is read before the lock is taken. `tickets` counts allocations, `moves` the move phases
      that have been run. */
  datatype Sys = Sys(state: State, turn: Turn, moves: nat, pending: set<Passenger>, tickets: nat)

  /** One atomic step. Any sequence of these is a run: a step that cannot act changes nothing. */
  datatype Action =
    | Worker
    | Check(kind: int, from: int, to: int)
    | Enqueue(p: Passenger)
    | StartCall
    | StopCall

  function KindOf(kind: int): Kind {
    match kind
    case 0 => Adult
    case 1 => Child
    case 2 => Room
    case 3 => Bell
    case _ => Unknown(kind)
  }

  /** The request's arguments are in range and, at this moment, no shutdown is requested. */
  predicate Admits(shutdown: bool, kind: int, from: int, to: int) {
    1 <= kind <= 4 && 1 <= from <= 10 && 1 <= to <= 10 && !shutdown
  }

  ghost predicate Safe(m: Sys) {
    Typed(m.state) && forall p | p in m.pending :: WellFormed(p)
  }

  ghost function Step(m: Sys, a: Action): (r: Sys)
    requires Safe(m)
    ensures Safe(r)
  {
    match a
    case Worker =>
      if m.turn == LoadNext then m.(state := LoadPhase(m.state), turn := MoveNext)
      else m.(state := MovePhase(m.state), turn := LoadNext, moves := m.moves + 1)
    case Check(kind, from, to) =>
      if Admits(m.state.car.shutdown, kind, from, to) then
        var p := Passenger(m.tickets, KindOf(kind - 1), from - 1, to - 1);
        m.(pending := m.pending + {p}, tickets := m.tickets + 1)
      else m
    case Enqueue(p) =>
      if p in m.pending then m.(state := AddPass(m.state, p), pending := m.pending - {p}) else m
    case StartCall => m.(state := StartElevator(m.state))
    case StopCall => m.(state := StopElevator(m.state))
  }

  ghost function Run(m: Sys, acts: seq<Action>): (r: Sys)
    requires Safe(m)
    ensures Safe(r)
    decreases acts
  {
    if acts == [] then m else Step(Run(m, acts[..|acts| - 1]), acts[|acts| - 1])
  }

  ghost function Start(): (r: Sys)
    ensures Safe(r)
  {
    Sys(Initial(), LoadNext, 0, {}, 0)
  }

  lemma RunSnoc(m: Sys, acts: seq<Action>, a: Action)
    requires Safe(m)
    ensures Run(m, acts + [a]) == Step(Run(m, acts), a)
  {
    hide Step, Safe;
    assert (acts + [a])[..|acts|] == acts;
  }

  lemma RunOne(m: Sys, a: Action)
    requires Safe(m)
    ensures Run(m, [a]) == Step(m, a)
  {
    hide Step, Safe;
    assert [a][..0] == [];
    assert Run(m, []) == m;
  }

  lemma {:induction false} RunConcat(m: Sys, a: seq<Action>, b: seq<Action>)
    requires Safe(m)
    ensures Run(m, a + b) == Run(Run(m, a), b)
  {
    hide Step, Safe, Run;
    if b == [] {
      assert a + b == a;
      RunNothing(Run(m, a));
    } else {
      var n := |b| - 1;
      var init, last := b[..n], b[n];
      RunConcat(m, a, init);
      RunSnoc(m, a + init, last);
      RunSnoc(Run(m, a), init, last);
      assert a + b == a + init + [last];
      assert b == init + [last];
    }
  }

  lemma RunNothing(m: Sys)
    requires Safe(m)
    ensures Run(m, []) == m
  {}
}
