/** The text of the proc entry: what is printed, that it fits its buffer, and that it can be read back. */
module Printer {
  import opened Types
  import opened Decimal
  import opened Structures

  const ENTRY_SIZE := 1024

  function StateName(status: Status): string {
    match status
    case Idle => "Idle"
    case Offline => "Offline"
    case Loading => "Loading"
    case Up => "Up"
    case Down => "Down"
    case NotSet(_) => "Not Set"
  }

  /** Division as in C: towards zero. */
  function Half(w: int): int {
    if w < 0 then -(-w / 2) else w / 2
  }

  predicate Odd(w: int) {
    w % 2 != 0
  }

  // One function for every format string.

  function StateLine(status: Status): string {
    "State: " + (StateName(status) + "\n")
  }

  function CurrentLine(n: int): string {
    "Current Floor: " + (Integer(n) + "\n")
  }

  function NextLine(n: int): string {
    "Next Floor: " + (Integer(n) + "\n")
  }

  /** Two formats: the one for whole loads has a second space. */
  function LoadLine(half: bool, places: int, whole: int): string {
    if half then "Elevator Load (P/W): " + (Integer(places) + ("/" + (Integer(whole) + (".5" + "\n"))))
    else "Elevator Load (P/W): " + (" " + (Integer(places) + ("/" + (Integer(whole) + "\n"))))
  }

  function FloorLine(half: bool, floor: int, places: int, whole: int, serviced: int): string {
    "Floor " + (Integer(floor) + (": " + (Integer(places) + ("/" + (Integer(whole)
    + ((if half then ".5" else "") + (" waiting (P/W) and " + (Integer(serviced) + " serviced\n"))))))))
  }

  function LineOf(i: int, f: Floor): string {
    FloorLine(Odd(f.load.weight), i + 1, f.load.seats, Half(f.load.weight), f.serviced)
  }

  /** The lines of the first `n` floors, the highest first. */
  function FloorLines(floors: seq<Floor>, n: nat): string
    requires n <= |floors|
  {
    if n == 0 then "" else LineOf(n - 1, floors[n - 1]) + FloorLines(floors, n - 1)
  }

  function Text(s: State): string
    requires |s.floors| == FLOORS
  {
    StateLine(s.car.status) + (CurrentLine(s.car.current + 1) + (NextLine(s.car.next + 1)
    + (LoadLine(Odd(s.car.load.weight), s.car.load.seats, Half(s.car.load.weight))
    + FloorLines(s.floors, FLOORS))))
  }

  /** Builds the text piece by piece, from the top floor down, and returns its length. */
  method PrintStats(b: Building) returns (buf: string, len: int)
    requires b.Shape()
    ensures buf == Text(b.View()) && len == |buf|
  {
    hide StateLine, CurrentLine, NextLine, LoadLine, FloorLine, StateName, Integer, Half;
    var half := false;
    if b.e.load.weight % 2 != 0 {
      half := true;
    }
    buf := StateLine(b.e.status);
    buf := buf + CurrentLine(b.e.current + 1);
    buf := buf + NextLine(b.e.next + 1);
    if half {
      buf := buf + LoadLine(true, b.e.load.seats, Half(b.e.load.weight));
    } else {
      buf := buf + LoadLine(false, b.e.load.seats, Half(b.e.load.weight));
    }
    ghost var floors := b.f[..];
    assert buf + FloorLines(floors, FLOORS) == Text(b.View());
    half := false;
    var i := FLOORS - 1;
    while i >= 0
      invariant -1 <= i < FLOORS && !half
      invariant buf + FloorLines(floors, i + 1) == Text(b.View())
    {
      if b.f[i].load.weight % 2 != 0 {
        half := true;
      }
      assert buf + (LineOf(i, floors[i]) + FloorLines(floors, i)) == buf + LineOf(i, floors[i]) + FloorLines(floors, i);
      if half {
        buf := buf + FloorLine(true, i + 1, b.f[i].load.seats, Half(b.f[i].load.weight), b.f[i].serviced);
        half := false;
      } else {
        buf := buf + FloorLine(false, i + 1, b.f[i].load.seats, Half(b.f[i].load.weight), b.f[i].serviced);
      }
      i := i - 1;
    }
    assert buf + "" == buf;
    len := |buf|;
  }

  // ---------- The buffer ----------

  ghost predicate Printable(t: Tally) {
    Int32(t.weight) && Int32(t.seats)
  }

  /** Every number printed is a 32-bit one, of whatever value. */
  ghost predicate Machine32(s: State)
    requires |s.floors| == FLOORS
  {
    && Int32(s.car.current + 1) && Int32(s.car.next + 1) && Printable(s.car.load)
    && (forall i | 0 <= i < FLOORS :: Printable(s.floors[i].load) && Int32(s.floors[i].serviced))
  }

  lemma LoadLineLength(half: bool, places: int, whole: int)
    requires Int32(places) && Int32(whole)
    ensures |LoadLine(half, places, whole)| <= 47
  {
    IntegerLength(places);
    IntegerLength(whole);
  }

  lemma FloorLineLength(half: bool, floor: nat, places: int, whole: int, serviced: int)
    requires 1 <= floor <= 10 && Int32(places) && Int32(whole) && Int32(serviced)
    ensures |FloorLine(half, floor, places, whole, serviced)| <= if floor == 10 then 75 else 74
  {
    assert Pow10(1) == 10 * Pow10(0);
    assert Pow10(2) == 10 * Pow10(1);
    NaturalLength(floor, 1);
    NaturalLength(floor, 2);
    IntegerLength(places);
    IntegerLength(whole);
    IntegerLength(serviced);
  }

  lemma {:induction false} FloorLinesLength(floors: seq<Floor>, n: nat)
    requires n <= 10 == |floors|
    requires forall i | 0 <= i < 10 :: Printable(floors[i].load) && Int32(floors[i].serviced)
    ensures |FloorLines(floors, n)| <= if n == 10 then 741 else 74 * n
  {
    hide FloorLine;
    if n > 0 {
      FloorLinesLength(floors, n - 1);
      var f := floors[n - 1];
      FloorLineLength(Odd(f.load.weight), n, f.load.seats, Half(f.load.weight), f.serviced);
    }
  }

  lemma HeaderLength(car: Car)
    requires Int32(car.current + 1) && Int32(car.next + 1)
    ensures |StateLine(car.status)| <= 15
    ensures |CurrentLine(car.current + 1)| <= 27
    ensures |NextLine(car.next + 1)| <= 24
  {
    IntegerLength(car.current + 1);
    IntegerLength(car.next + 1);
  }

  /** For all values of the counters and every status, the text and its terminator fit the buffer. */
  lemma {:induction false} TextFits(s: State)
    requires |s.floors| == FLOORS && Machine32(s)
    ensures |Text(s)| + 1 <= 855 < 1024 == ENTRY_SIZE
  {
    hide StateLine, CurrentLine, NextLine, LoadLine, FloorLine;
    HeaderLength(s.car);
    LoadLineLength(Odd(s.car.load.weight), s.car.load.seats, Half(s.car.load.weight));
    FloorLinesLength(s.floors, FLOORS);
  }
}
