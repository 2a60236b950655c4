/** Reading the printed text back: it determines the status, the position, the load, and every
    floor's queue load and service count. */
module Reader {
  import opened Types
  import opened Decimal
  import opened Printer
  import Safety
  import Ledger

  datatype Option<+T> = None | Some(value: T) {
    predicate IsFailure() {
      None?
    }

    function PropagateFailure<U>(): Option<U>
      requires None?
    {
      None
    }

    function Extract(): T
      requires Some?
    {
      value
    }
  }

  // ---------- Pieces ----------

  function Take(piece: string, text: string): Option<string> {
    if piece <= text then Some(text[|piece|..]) else None
  }

  /** The digits at the front of the text; a zero in front of another digit is refused. */
  function ReadNatural(text: string): Option<(int, string)> {
    var digits := text[..Span(text)];
    if Numeral(digits) then Some((Value(digits), text[|digits|..])) else None
  }

  function ReadNumber(text: string): Option<(int, string)> {
    if "-" <= text then
      var (n, r) :- ReadNatural(text[1..]);
      if n == 0 then None else Some((-n, r))
    else ReadNatural(text)
  }

  lemma TakeBack(piece: string, rest: string)
    ensures Take(piece, piece + rest) == Some(rest)
  {}

  ghost predicate NoDigitNext(rest: string) {
    rest == [] || !IsDigit(rest[0])
  }

  lemma TakeForth(piece: string, text: string)
    ensures Take(piece, text).Some? ==> text == piece + Take(piece, text).value
  {}

  lemma NaturalBack(n: nat, rest: string)
    requires NoDigitNext(rest)
    ensures ReadNatural(Natural(n) + rest) == Some((n, rest))
  {
    SpanOfDigits(Natural(n), rest);
    ValueOfNatural(n);
    NaturalLeads(n);
    assert (Natural(n) + rest)[..|Natural(n)|] == Natural(n);
  }

  lemma NumberBack(n: int, rest: string)
    requires NoDigitNext(rest)
    ensures ReadNumber(Integer(n) + rest) == Some((n, rest))
  {
    NaturalBack(if n < 0 then -n else n, rest);
    if n < 0 {
      assert Integer(n) + rest == "-" + (Natural(-n) + rest);
    } else {
      assert (Natural(n) + rest)[0] == Natural(n)[0] && Natural(n)[0] in Natural(n);
    }
  }

  lemma NaturalForth(text: string)
    ensures ReadNatural(text).Some? ==>
      var (n, rest) := ReadNatural(text).value; n >= 0 && text == Natural(n) + rest
  {
    var digits := text[..Span(text)];
    if Numeral(digits) {
      NaturalOfValue(digits);
    }
  }

  /** Only the text of the number itself reads as that number. */
  lemma NumberForth(text: string)
    ensures ReadNumber(text).Some? ==>
      var (n, rest) := ReadNumber(text).value; text == Integer(n) + rest && (n < 0 <==> "-" <= text)
  {
    hide Natural, ReadNatural, Numeral, Value, Span;
    if "-" <= text {
      NaturalForth(text[1..]);
      TakeForth("-", text);
    } else {
      NaturalForth(text);
    }
  }

  /** `piece` in front of the number `n` in front of `rest`. */
  lemma PieceNumber(piece: string, n: int, rest: string)
    requires NoDigitNext(rest)
    ensures Take(piece, piece + (Integer(n) + rest)) == Some(Integer(n) + rest)
    ensures ReadNumber(Integer(n) + rest) == Some((n, rest))
  {
    TakeBack(piece, Integer(n) + rest);
    NumberBack(n, rest);
  }

  // ---------- Lines ----------

  /** A status as shown: all values outside the list look alike. */
  function Seen(status: Status): Status {
    if status.NotSet? then NotSet(-1) else status
  }

  function ReadState(text: string): Option<(Status, string)> {
    var r :- Take("State: ", text);
    if "Idle\n" <= r then Some((Idle, r[5..]))
    else if "Offline\n" <= r then Some((Offline, r[8..]))
    else if "Loading\n" <= r then Some((Loading, r[8..]))
    else if "Up\n" <= r then Some((Up, r[3..]))
    else if "Down\n" <= r then Some((Down, r[5..]))
    else if "Not Set\n" <= r then Some((NotSet(-1), r[8..]))
    else None
  }

  lemma StateBack(status: Status, rest: string)
    ensures ReadState(StateLine(status) + rest) == Some((Seen(status), rest))
  {
    var name := StateName(status) + "\n";
    assert StateLine(status) + rest == "State: " + (name + rest);
    TakeBack("State: ", name + rest);
    assert (name + rest)[0] == name[0];
    TakeBack(name, rest);
  }

  lemma StateForth(text: string)
    ensures ReadState(text).Some? ==>
      var (status, rest) := ReadState(text).value; text == StateLine(status) + rest
  {
    TakeForth("State: ", text);
    if ReadState(text).Some? {
      var (status, rest) := ReadState(text).value;
      var name := StateName(status) + "\n";
      TakeForth(name, Take("State: ", text).value);
      assert text == "State: " + (name + rest) == "State: " + name + rest;
    }
  }

  function ReadFloorNumber(title: string, text: string): Option<(int, string)> {
    var r :- Take(title, text);
    var (n, r) :- ReadNumber(r);
    var r :- Take("\n", r);
    Some((n, r))
  }

  lemma FloorNumberBack(title: string, n: int, rest: string)
    ensures ReadFloorNumber(title, title + (Integer(n) + "\n") + rest) == Some((n, rest))
  {
    assert title + (Integer(n) + "\n") + rest == title + (Integer(n) + ("\n" + rest));
    PieceNumber(title, n, "\n" + rest);
    TakeBack("\n", rest);
  }

  lemma FloorNumberForth(title: string, text: string)
    ensures ReadFloorNumber(title, text).Some? ==>
      var (n, rest) := ReadFloorNumber(title, text).value; text == title + (Integer(n) + "\n") + rest
  {
    if ReadFloorNumber(title, text).Some? {
      var (n, rest) := ReadFloorNumber(title, text).value;
      var r1 := Take(title, text).value;
      TakeForth(title, text);
      NumberForth(r1);
      TakeForth("\n", ReadNumber(r1).value.1);
      assert title + (Integer(n) + "\n") + rest == title + (Integer(n) + ("\n" + rest));
    }
  }

  lemma CurrentForth(text: string)
    ensures var r := ReadFloorNumber("Current Floor: ", text);
      r.Some? ==> text == CurrentLine(r.value.0) + r.value.1
  {
    FloorNumberForth("Current Floor: ", text);
  }

  lemma NextForth(text: string)
    ensures var r := ReadFloorNumber("Next Floor: ", text);
      r.Some? ==> text == NextLine(r.value.0) + r.value.1
  {
    FloorNumberForth("Next Floor: ", text);
  }

  /** A number of half units: a whole part, and ".5", away from zero, if it is odd. */
  function ReadHalves(text: string): Option<(int, string)> {
    var (whole, r) :- ReadNumber(text);
    if !(".5" <= r) then Some((2 * whole, r))
    else if "-" <= text then Some((2 * whole - 1, r[2..]))
    else Some((2 * whole + 1, r[2..]))
  }

  /** A number of half units as shown: minus one half prints as a half, since its whole part is zero. */
  function SeenHalves(w: int): int {
    if w == -1 then 1 else w
  }

  /** What follows the whole part. */
  function Mark(w: int): string {
    if Odd(w) then ".5" else ""
  }

  lemma HalvesBack(w: int, rest: string)
    requires NoDigitNext(rest) && (rest == [] || rest[0] != '.')
    ensures ReadHalves(Integer(Half(w)) + (Mark(w) + rest)) == Some((SeenHalves(w), rest))
  {
    hide Integer, ReadNumber;
    var text := Integer(Half(w)) + (Mark(w) + rest);
    NumberBack(Half(w), Mark(w) + rest);
    NumberForth(text);
    if Odd(w) {
      TakeBack(".5", rest);
    } else {
      assert Mark(w) + rest == rest;
    }
  }

  lemma HalvesForth(text: string)
    ensures ReadHalves(text).Some? ==>
      var (w, rest) := ReadHalves(text).value; w != -1 && text == Integer(Half(w)) + (Mark(w) + rest)
  {
    NumberForth(text);
    if ReadHalves(text).Some? {
      var (w, rest) := ReadHalves(text).value;
      var (whole, r) := ReadNumber(text).value;
      assert whole == Half(w);
      assert r == Mark(w) + rest;
    }
  }

  /** Two formats: a second space, and no half. */
  function ReadLoad(text: string): Option<(int, int, string)> {
    var r :- Take("Elevator Load (P/W): ", text);
    var gap := " " <= r;
    var (places, r) :- ReadNumber(if gap then r[1..] else r);
    var r :- Take("/", r);
    var (weight, r) :- ReadHalves(r);
    var r :- Take("\n", r);
    if gap == Odd(weight) then None else Some((places, weight, r))
  }

  /** The load line for a number of half units. */
  function LoadText(places: int, w: int): string {
    LoadLine(Odd(w), places, Half(w))
  }

  lemma LoadBack(places: int, w: int, rest: string)
    ensures ReadLoad(LoadText(places, w) + rest) == Some((places, SeenHalves(w), rest))
  {
    var title := "Elevator Load (P/W): ";
    var gap := if Odd(w) then "" else " ";
    var r4 := "\n" + rest;
    var r3 := Integer(Half(w)) + (Mark(w) + r4);
    var r2 := "/" + r3;
    var r1 := Integer(places) + r2;
    LoadLineParts(Odd(w), places, Half(w), rest);
    assert LoadText(places, w) + rest == title + (gap + r1);
    TakeBack(title, gap + r1);
    assert places >= 0 ==> Integer(places)[0] in Natural(places);
    assert Integer(places)[0] != ' ';
    if Odd(w) {
      assert gap + r1 == r1 && r1[0] == Integer(places)[0];
      assert !(" " <= r1);
    } else {
      assert " " <= gap + r1 && (gap + r1)[1..] == r1;
    }
    NumberBack(places, r2);
    TakeBack("/", r3);
    HalvesBack(w, r4);
    TakeBack("\n", rest);
  }

  lemma LoadForth(text: string)
    ensures ReadLoad(text).Some? ==>
      var (places, w, rest) := ReadLoad(text).value; text == LoadText(places, w) + rest
  {
    hide Integer, ReadHalves, ReadNumber;
    if ReadLoad(text).Some? {
      var (places, w, rest) := ReadLoad(text).value;
      var title := "Elevator Load (P/W): ";
      var r0 := Take(title, text).value;
      var gap := if " " <= r0 then " " else "";
      var r1 := r0[|gap|..];
      var r2 := ReadNumber(r1).value.1;
      var r3 := Take("/", r2).value;
      var r4 := ReadHalves(r3).value.1;
      TakeForth(title, text);
      assert r0 == gap + r1;
      NumberForth(r1);
      TakeForth("/", r2);
      HalvesForth(r3);
      TakeForth("\n", r4);
      LoadLineParts(Odd(w), places, Half(w), rest);
    }
  }

  lemma LoadLineParts(half: bool, places: int, whole: int, rest: string)
    ensures LoadLine(half, places, whole) + rest ==
      "Elevator Load (P/W): " + ((if half then "" else " ") + (Integer(places) + ("/" + (Integer(whole)
      + ((if half then ".5" else "") + ("\n" + rest))))))
  {
    hide Integer;
    if half {
      Join5("Elevator Load (P/W): ", Integer(places), "/", Integer(whole), ".5" + "\n", rest);
      assert ".5" + "\n" + rest == ".5" + ("\n" + rest);
      assert "" + (Integer(places) + ("/" + (Integer(whole) + (".5" + ("\n" + rest)))))
          == Integer(places) + ("/" + (Integer(whole) + (".5" + ("\n" + rest))));
    } else {
      Join5(" ", Integer(places), "/", Integer(whole), "\n", rest);
      Join2("Elevator Load (P/W): ", " " + (Integer(places) + ("/" + (Integer(whole) + "\n"))), rest);
      assert "" + ("\n" + rest) == "\n" + rest;
    }
  }

  lemma Join2(a: string, b: string, rest: string)
    ensures a + b + rest == a + (b + rest)
  {}

  lemma Join5(a: string, b: string, c: string, d: string, e: string, rest: string)
    ensures a + (b + (c + (d + e))) + rest == a + (b + (c + (d + (e + rest))))
  {
    Join2(a, b + (c + (d + e)), rest);
    Join2(b, c + (d + e), rest);
    Join2(c, d + e, rest);
    Join2(d, e, rest);
  }

  datatype Line = Line(places: int, weight: int, serviced: int)

  function ReadFloor(text: string): Option<(int, Line, string)> {
    var r :- Take("Floor ", text);
    var (floor, r) :- ReadNumber(r);
    var r :- Take(": ", r);
    var (places, r) :- ReadNumber(r);
    var r :- Take("/", r);
    var (weight, r) :- ReadHalves(r);
    var r :- Take(" waiting (P/W) and ", r);
    var (serviced, r) :- ReadNumber(r);
    var r :- Take(" serviced\n", r);
    Some((floor, Line(places, weight, serviced), r))
  }

  /** The line of floor number `floor`, for a number of half units. */
  function FloorText(floor: int, line: Line): string {
    FloorLine(Odd(line.weight), floor, line.places, Half(line.weight), line.serviced)
  }

  function SeenLine(line: Line): Line {
    line.(weight := SeenHalves(line.weight))
  }

  lemma FloorBack(floor: int, line: Line, rest: string)
    ensures ReadFloor(FloorText(floor, line) + rest) == Some((floor, SeenLine(line), rest))
  {
    hide Integer;
    var w := line.weight;
    var r6 := " serviced\n" + rest;
    var r5 := " waiting (P/W) and " + (Integer(line.serviced) + r6);
    var r4 := Integer(Half(w)) + (Mark(w) + r5);
    var r3 := Integer(line.places) + ("/" + r4);
    FloorLineParts(Odd(w), floor, line.places, Half(w), line.serviced, rest);
    PieceNumber("Floor ", floor, ": " + r3);
    PieceNumber(": ", line.places, "/" + r4);
    TakeBack("/", r4);
    HalvesBack(w, r5);
    PieceNumber(" waiting (P/W) and ", line.serviced, r6);
    TakeBack(" serviced\n", rest);
  }

  lemma FloorForth(text: string)
    ensures ReadFloor(text).Some? ==>
      var (floor, line, rest) := ReadFloor(text).value; text == FloorText(floor, line) + rest
  {
    hide Integer, ReadHalves, ReadNumber;
    if ReadFloor(text).Some? {
      var (floor, line, rest) := ReadFloor(text).value;
      var r1 := Take("Floor ", text).value;
      var r2 := ReadNumber(r1).value.1;
      var r3 := Take(": ", r2).value;
      var r4 := ReadNumber(r3).value.1;
      var r5 := Take("/", r4).value;
      var r6 := ReadHalves(r5).value.1;
      var r7 := Take(" waiting (P/W) and ", r6).value;
      var r8 := ReadNumber(r7).value.1;
      TakeForth("Floor ", text);
      NumberForth(r1);
      TakeForth(": ", r2);
      NumberForth(r3);
      TakeForth("/", r4);
      HalvesForth(r5);
      TakeForth(" waiting (P/W) and ", r6);
      NumberForth(r7);
      TakeForth(" serviced\n", r8);
      FloorLineParts(Odd(line.weight), floor, line.places, Half(line.weight), line.serviced, rest);
    }
  }

  lemma FloorLineParts(half: bool, floor: int, places: int, whole: int, serviced: int, rest: string)
    ensures FloorLine(half, floor, places, whole, serviced) + rest ==
      "Floor " + (Integer(floor) + (": " + (Integer(places) + ("/" + (Integer(whole)
      + ((if half then ".5" else "") + (" waiting (P/W) and " + (Integer(serviced) + (" serviced\n" + rest)))))))))
  {
    hide Integer;
    var mark := if half then ".5" else "";
    var tail := mark + (" waiting (P/W) and " + (Integer(serviced) + " serviced\n"));
    Join5("Floor ", Integer(floor), ": ", Integer(places), "/" + (Integer(whole) + tail), rest);
    Join2("/", Integer(whole) + tail, rest);
    Join2(Integer(whole), tail, rest);
    Join2(mark, " waiting (P/W) and " + (Integer(serviced) + " serviced\n"), rest);
    Join2(" waiting (P/W) and ", Integer(serviced) + " serviced\n", rest);
    Join2(Integer(serviced), " serviced\n", rest);
  }

  // ---------- The whole text ----------

  datatype Shown = Shown(status: Status, current: int, next: int, places: int, weight: int, floors: seq<Line>)

  /** The lines of `n` floors, from floor `n` down to floor 1. */
  function ReadFloors(n: nat, text: string): Option<(seq<Line>, string)> {
    if n == 0 then Some(([], text))
    else
      var (floor, line, r) :- ReadFloor(text);
      var (below, r) :- ReadFloors(n - 1, r);
      if floor == n then Some((below + [line], r)) else None
  }

  function ReadText(text: string): Option<Shown> {
    var (status, r) :- ReadState(text);
    var (current, r) :- ReadFloorNumber("Current Floor: ", r);
    var (next, r) :- ReadFloorNumber("Next Floor: ", r);
    var (places, weight, r) :- ReadLoad(r);
    var (floors, r) :- ReadFloors(10, r);
    if r == "" then Some(Shown(status, current - 1, next - 1, places, weight, floors)) else None
  }

  ghost function LinesOf(floors: seq<Floor>, n: nat): (r: seq<Line>)
    requires n <= |floors|
    ensures |r| == n
    ensures forall i | 0 <= i < n ::
      r[i] == Line(floors[i].load.seats, SeenHalves(floors[i].load.weight), floors[i].serviced)
  {
    seq(n, i requires 0 <= i < n =>
      Line(floors[i].load.seats, SeenHalves(floors[i].load.weight), floors[i].serviced))
  }

  /** What the text of a state tells. */
  ghost function ShownOf(s: State): Shown
    requires |s.floors| == FLOORS
  {
    Shown(Seen(s.car.status), s.car.current, s.car.next, s.car.load.seats, SeenHalves(s.car.load.weight),
          LinesOf(s.floors, FLOORS))
  }

  lemma LinesSnoc(floors: seq<Floor>, n: nat)
    requires 0 < n <= |floors|
    ensures var f := floors[n - 1];
      && LineOf(n - 1, f) == FloorText(n, Line(f.load.seats, f.load.weight, f.serviced))
                          == FloorText(n, LinesOf(floors, n)[n - 1])
      && LinesOf(floors, n) == LinesOf(floors, n - 1) + [LinesOf(floors, n)[n - 1]]
  {}

  lemma {:induction false} FloorsBack(floors: seq<Floor>, n: nat)
    requires n <= |floors|
    ensures ReadFloors(n, FloorLines(floors, n)) == Some((LinesOf(floors, n), ""))
  {
    if n > 0 {
      LinesSnoc(floors, n);
      hide FloorText, LineOf, ReadFloor;
      var f := floors[n - 1];
      FloorsBack(floors, n - 1);
      FloorBack(n, Line(f.load.seats, f.load.weight, f.serviced), FloorLines(floors, n - 1));
    }
  }

  lemma {:induction false} FloorsForth(floors: seq<Floor>, n: nat, text: string)
    requires n <= |floors|
    requires ReadFloors(n, text).Some? && ReadFloors(n, text).value.0 == LinesOf(floors, n)
    ensures text == FloorLines(floors, n) + ReadFloors(n, text).value.1
  {
    if n > 0 {
      LinesSnoc(floors, n);
      hide FloorText, LineOf, ReadFloor, SeenHalves;
      FloorForth(text);
      var (_, line, r) := ReadFloor(text).value;
      var below := ReadFloors(n - 1, r).value.0;
      assert below + [line] == LinesOf(floors, n);
      assert below == (below + [line])[..n - 1] == LinesOf(floors, n - 1);
      FloorsForth(floors, n - 1, r);
    }
  }

  lemma TextBack(s: State)
    requires |s.floors| == FLOORS
    ensures ReadText(Text(s)) == Some(ShownOf(s))
  {
    var r4 := FloorLines(s.floors, FLOORS);
    var r3 := LoadText(s.car.load.seats, s.car.load.weight) + r4;
    hide StateLine, LoadLine, FloorLine, ReadState, ReadFloorNumber, ReadLoad, ReadFloors, FloorLines;
    var r2 := NextLine(s.car.next + 1) + r3;
    var r1 := CurrentLine(s.car.current + 1) + r2;
    StateBack(s.car.status, r1);
    FloorNumberBack("Current Floor: ", s.car.current + 1, r2);
    FloorNumberBack("Next Floor: ", s.car.next + 1, r3);
    LoadBack(s.car.load.seats, s.car.load.weight, r4);
    FloorsBack(s.floors, FLOORS);
  }

  /** The points at which the reader passes from one line to the next. */
  lemma ReadInParts(text: string) returns (r1: string, r2: string, r3: string, r4: string)
    requires ReadText(text).Some?
    ensures var v := ReadText(text).value;
      && ReadState(text) == Some((v.status, r1))
      && ReadFloorNumber("Current Floor: ", r1) == Some((v.current + 1, r2))
      && ReadFloorNumber("Next Floor: ", r2) == Some((v.next + 1, r3))
      && ReadLoad(r3) == Some((v.places, v.weight, r4))
      && ReadFloors(10, r4).Some? && ReadFloors(10, r4).value.0 == v.floors && ReadFloors(10, r4).value.1 == ""
  {
    hide ReadState, ReadFloorNumber, ReadLoad, ReadFloors;
    r1 := ReadState(text).value.1;
    r2 := ReadFloorNumber("Current Floor: ", r1).value.1;
    r3 := ReadFloorNumber("Next Floor: ", r2).value.1;
    r4 := ReadLoad(r3).value.2;
  }

  lemma SeenAlike(car: Car)
    ensures StateLine(Seen(car.status)) == StateLine(car.status)
    ensures LoadText(car.load.seats, SeenHalves(car.load.weight)) ==
      LoadLine(Odd(car.load.weight), car.load.seats, Half(car.load.weight))
  {}

  lemma TextForth(s: State, text: string)
    requires |s.floors| == FLOORS && ReadText(text) == Some(ShownOf(s))
    ensures text == Text(s)
  {
    hide StateLine, CurrentLine, NextLine, LoadText, LoadLine, FloorLines, Half, LinesOf, Odd;
    hide ReadText, ReadState, ReadFloorNumber, ReadLoad, ReadFloors, SeenHalves, Seen;
    var r1, r2, r3, r4 := ReadInParts(text);
    SeenAlike(s.car);
    StateForth(text);
    CurrentForth(r1);
    NextForth(r2);
    LoadForth(r3);
    FloorsForth(s.floors, FLOORS, r4);
    assert r4 == FloorLines(s.floors, FLOORS);
  }

  /** For every state, whatever its counters: its text is the one that reads back as what it shows. */
  lemma TextExactly(s: State, text: string)
    requires |s.floors| == FLOORS
    ensures text == Text(s) <==> ReadText(text) == Some(ShownOf(s))
  {
    hide ReadText, Text, ShownOf;
    TextBack(s);
    if ReadText(text) == Some(ShownOf(s)) {
      TextForth(s, text);
    }
  }

  /** Two states print alike if and only if they show the same. */
  lemma PrintsAlikeIff(s: State, t: State)
    requires |s.floors| == FLOORS && |t.floors| == FLOORS
    ensures Text(s) == Text(t) <==> ShownOf(s) == ShownOf(t)
  {
    hide ReadText, Text, ShownOf;
    TextExactly(s, Text(t));
    TextBack(t);
  }

  /** In every state of every run what is shown is exact: the status, both floors, and for the car and
      every floor the places and the weight to the half unit, with the number serviced. */
  lemma GoodShowsAll(s: State)
    requires Safety.Good(s)
    ensures var v := ShownOf(s);
      && v.status == s.car.status && v.current == s.car.current && v.next == s.car.next
      && v.places == s.car.load.seats && v.weight == s.car.load.weight
      && |v.floors| == 10 && forall i | 0 <= i < 10 ::
           v.floors[i] == Line(s.floors[i].load.seats, s.floors[i].load.weight, s.floors[i].serviced)
  {
    Ledger.CountersDecode(s);
  }
}
