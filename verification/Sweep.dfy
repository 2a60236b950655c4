/** The path of the car: where it is, where it goes next, and which way it is headed.

    A full sweep has 18 positions, numbered 0..17: floors 0..9 going up (the turn at 9 counted once)
    and back. A restart can leave one more position, `STALE`, because it resets the floors but not
    the direction. */
module Sweep {

  datatype Pos = Pos(current: int, next: int, up: bool)

  const STALE := Pos(0, 1, false)

  ghost predicate Valid(p: Pos) {
    && 0 <= p.current <= 9 && 0 <= p.next <= 9
    && (p.next == p.current + 1 || p.next == p.current - 1)
    && (p == STALE || (p.up <==> p.next == p.current + 1))
  }

  /** One move: turn at the bottom, turn at the top, or go on. */
  function Next(p: Pos): (r: Pos)
    ensures Valid(p) ==> Valid(r) && r != STALE
  {
    if p.next == 0 then Pos(0, 1, true)
    else if p.next == 9 then Pos(9, 8, false)
    else if p.up then Pos(p.next, p.next + 1, true)
    else Pos(p.next, p.next - 1, false)
  }

  function After(p: Pos, n: nat): Pos {
    if n == 0 then p else Next(After(p, n - 1))
  }

  /** The position numbered `k` on the sweep. */
  ghost function PosAt(k: int): Pos
    requires 0 <= k < 18
  {
    Pos(if k <= 9 then k else 18 - k, if k < 9 then k + 1 else 17 - k, k < 9)
  }

  /** The number of a position. `STALE` gets 16: it too is followed by position 17. */
  ghost function Phase(p: Pos): (k: int)
    requires Valid(p)
    ensures 0 <= k < 18
    ensures p != STALE ==> PosAt(k) == p
  {
    if p == STALE then 16 else if p.up then p.current else 18 - p.current
  }

  lemma NextPhase(p: Pos)
    requires Valid(p)
    ensures Phase(Next(p)) == if Phase(p) == 17 then 0 else Phase(p) + 1
  {}

  /** `n` steps on from number `k`, one at a time. */
  ghost function StepsOn(k: int, n: nat): (r: int)
    requires 0 <= k < 18
    ensures 0 <= r < 18
  {
    if n == 0 then k else if StepsOn(k, n - 1) == 17 then 0 else StepsOn(k, n - 1) + 1
  }

  lemma {:induction false} StepsOnModulo(k: int, n: nat)
    requires 0 <= k < 18
    ensures StepsOn(k, n) == (k + n) % 18
  {
    if n > 0 {
      StepsOnModulo(k, n - 1);
    }
  }

  lemma {:induction false} PhaseAfter(p: Pos, n: nat)
    requires Valid(p)
    ensures Valid(After(p, n)) && (n > 0 ==> After(p, n) != STALE)
    ensures Phase(After(p, n)) == StepsOn(Phase(p), n)
  {
    if n > 0 {
      PhaseAfter(p, n - 1);
      NextPhase(After(p, n - 1));
    }
  }

  /** Where `n` moves lead, from any position and for any `n`. */
  lemma {:induction false} ClosedForm(p: Pos, n: nat)
    requires Valid(p)
    ensures p != STALE || n > 0 ==> After(p, n) == PosAt((Phase(p) + n) % 18)
  {
    PhaseAfter(p, n);
    StepsOnModulo(Phase(p), n);
  }

  /** Two moves bring the car from the stale position to the bottom, headed up. */
  lemma StaleHeals()
    ensures After(STALE, 1) == PosAt(17)
    ensures After(STALE, 2) == PosAt(0)
  {
    assert After(STALE, 1) == Next(After(STALE, 0));
    assert After(STALE, 2) == Next(After(STALE, 1));
  }

  /** Steps from number `j` on to the next `k`. */
  ghost function Gap(j: int, k: int): (n: int)
    requires 0 <= j < 18 && 0 <= k < 18
    ensures 1 <= n <= 18
  {
    if k > j then k - j else k - j + 18
  }

  /** Moves until the sweep reaches position `k`. */
  ghost function MovesToPhase(p: Pos, k: int): (n: int)
    requires Valid(p) && 0 <= k < 18
    ensures 1 <= n <= 18
  {
    Gap(Phase(p), k)
  }

  lemma AtPosition(p: Pos, k: int)
    requires Valid(p) && p != STALE && 0 <= k < 18
    ensures p == PosAt(k) <==> Phase(p) == k
  {}

  lemma {:induction false} StepsOnOnce(j: int, k: int, n: nat)
    requires 0 <= j < 18 && 0 <= k < 18 && 1 <= n <= 18
    ensures StepsOn(j, n) == if j + n < 18 then j + n else j + n - 18
    ensures StepsOn(j, n) == k <==> n == Gap(j, k)
  {
    if n > 1 {
      StepsOnOnce(j, k, n - 1);
    } else {
      assert StepsOn(j, 1) == if StepsOn(j, 0) == 17 then 0 else StepsOn(j, 0) + 1;
    }
  }

  /** Any 18 consecutive moves pass through every one of the 18 positions exactly once: floors 1..8
      once in each direction, floors 0 and 9 once. */
  lemma {:induction false} EveryPositionOnce(p: Pos, k: int, n: nat)
    requires Valid(p) && 0 <= k < 18 && 1 <= n <= 18
    ensures After(p, n) == PosAt(k) <==> n == MovesToPhase(p, k)
  {
    PhaseAfter(p, n);
    AtPosition(After(p, n), k);
    StepsOnOnce(Phase(p), k, n);
  }

  lemma PhaseCountdown(p: Pos, k: int)
    requires Valid(p) && 0 <= k < 18
    ensures Next(p) == PosAt(k) <==> MovesToPhase(p, k) == 1
    ensures Next(p) != PosAt(k) ==> MovesToPhase(Next(p), k) == MovesToPhase(p, k) - 1
  {
    hide PosAt, Next, Phase, Valid;
    NextPhase(p);
    AtPosition(Next(p), k);
  }

  /** The position at which the car is at floor `d` on the way down; the turns are at both ends. */
  ghost function Mirror(d: int): int {
    if d == 0 then 0 else 18 - d
  }

  /** Moves until the car is next at floor `d`. */
  ghost function MovesTo(p: Pos, d: int): (n: int)
    requires Valid(p) && 0 <= d <= 9
    ensures 1 <= n <= 18
  {
    var onTheWayUp := MovesToPhase(p, d);
    var onTheWayDown := MovesToPhase(p, Mirror(d));
    if onTheWayUp <= onTheWayDown then onTheWayUp else onTheWayDown
  }

  lemma AtFloor(p: Pos, d: int)
    requires Valid(p) && p != STALE && 0 <= d <= 9
    ensures p.current == d <==> p == PosAt(d) || p == PosAt(Mirror(d))
  {}

  lemma Countdown(p: Pos, d: int)
    requires Valid(p) && 0 <= d <= 9
    ensures Next(p).current == d <==> MovesTo(p, d) == 1
    ensures Next(p).current != d ==> MovesTo(Next(p), d) == MovesTo(p, d) - 1
  {
    PhaseCountdown(p, d);
    PhaseCountdown(p, Mirror(d));
    AtFloor(Next(p), d);
  }

  lemma {:induction false} AfterShift(p: Pos, n: nat)
    ensures After(p, n + 1) == After(Next(p), n)
  {
    if n > 0 {
      AfterShift(p, n - 1);
    } else {
      assert After(p, 1) == Next(After(p, 0));
    }
  }

  /** `MovesTo` is the time of the first visit: the car is at `d` then and not before. */
  lemma {:induction false} FirstVisit(p: Pos, d: int, n: nat)
    requires Valid(p) && 0 <= d <= 9 && 1 <= n <= MovesTo(p, d)
    ensures After(p, n).current == d <==> n == MovesTo(p, d)
    decreases n
  {
    Countdown(p, d);
    AfterShift(p, n - 1);
    if n > 1 {
      FirstVisit(Next(p), d, n - 1);
    }
  }

  /** `d` lies strictly further along the way the car is headed. */
  ghost predicate Ahead(p: Pos, d: int) {
    if p.up then d > p.current else d < p.current
  }

  /** What is ahead is still ahead after a move, or just reached; the turns at both ends included. */
  lemma AheadAfterMove(p: Pos, d: int)
    requires Valid(p) && 0 <= d <= 9 && Ahead(p, d)
    ensures Ahead(Next(p), d) || Next(p).current == d
  {}

  /** Whoever is headed the right way is as far from the destination as the floors say. */
  lemma AheadIsDirect(p: Pos, d: int)
    requires Valid(p) && 0 <= d <= 9
    requires Ahead(p, d)
    ensures MovesTo(p, d) == if p.up then d - p.current else p.current - d
  {}

  /** The time until the car is back at the floor it is at, when it is headed down. */
  lemma ReturnTrip(p: Pos)
    requires Valid(p) && !p.up
    ensures MovesTo(p, p.current) ==
      if p.current == 0 then 2 else 2 * p.current
  {}
}
