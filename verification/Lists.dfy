/** Facts about lists of passengers: selecting by floor, summing a quantity, removing a node. */
module Lists {
  import opened Types

  /** Unlinks the first occurrence of `p`. */
  function Remove(s: seq<Passenger>, p: Passenger): (r: seq<Passenger>)
    ensures forall x | x in r :: x in s
  {
    if s == [] then [] else if s[0] == p then s[1..] else [s[0]] + Remove(s[1..], p)
  }

  /** Only the first occurrence goes; all others keep their order. */
  lemma {:induction false} RemoveFirst(s: seq<Passenger>, p: Passenger, k: nat)
    requires k < |s| && s[k] == p && p !in s[..k]
    ensures Remove(s, p) == s[..k] + s[k + 1..]
  {
    if k > 0 {
      assert s[0] in s[..k];
      assert s[1..][..k - 1] == s[..k][1..];
      RemoveFirst(s[1..], p, k - 1);
      assert s[1..][k..] == s[k + 1..];
      assert [s[0]] + s[1..][..k - 1] == s[..k];
    }
  }

  datatype Side = AtStart | AtDest

  function Key(side: Side, p: Passenger): int {
    if side.AtStart? then p.start else p.dest
  }

  /** The passengers of `s` whose start (or destination) is `i`, in order. */
  function Pick(side: Side, i: int, s: seq<Passenger>): seq<Passenger> {
    if s == [] then []
    else
      var last := s[|s| - 1];
      Pick(side, i, s[..|s| - 1]) + (if Key(side, last) == i then [last] else [])
  }

  lemma PickSnoc(side: Side, i: int, s: seq<Passenger>, p: Passenger)
    ensures Pick(side, i, s + [p]) == Pick(side, i, s) + (if Key(side, p) == i then [p] else [])
  {
    assert (s + [p])[..|s|] == s;
  }

  lemma {:induction false} PickConcat(side: Side, i: int, a: seq<Passenger>, b: seq<Passenger>)
    ensures Pick(side, i, a + b) == Pick(side, i, a) + Pick(side, i, b)
  {
    if b == [] {
      assert a + b == a;
    } else {
      var n := |b| - 1;
      PickConcat(side, i, a, b[..n]);
      PickSnoc(side, i, a + b[..n], b[n]);
      assert a + b == a + b[..n] + [b[n]];
    }
  }

  /** A list all of whose members have key `k` is picked whole at `k` and not at all elsewhere. */
  lemma {:induction false} PickUniform(side: Side, i: int, k: int, s: seq<Passenger>)
    requires forall p | p in s :: Key(side, p) == k
    ensures Pick(side, i, s) == if i == k then s else []
  {
    if s != [] {
      var n := |s| - 1;
      PickUniform(side, i, k, s[..n]);
      assert s == s[..n] + [s[n]];
    }
  }

  /** Picking by floor loses nothing and keeps multiplicity. */
  lemma {:induction false} PickCount(side: Side, i: int, s: seq<Passenger>, x: Passenger)
    ensures multiset(Pick(side, i, s))[x] == if Key(side, x) == i then multiset(s)[x] else 0
  {
    if s != [] {
      var n := |s| - 1;
      PickCount(side, i, s[..n], x);
      assert s == s[..n] + [s[n]];
      assert multiset(s) == multiset(s[..n]) + multiset{s[n]};
    }
  }

  /** What a counter counts: the six counters of a tally, all heads, and heads from one floor. */
  datatype Quantity = Weights | Places | Adults | Children | Rooms | Bells | Heads | From(floor: int)

  function Amount(q: Quantity, p: Passenger): int {
    match q
    case Weights => Weight(p)
    case Places => Seats(p)
    case Adults => if p.kind.Adult? then 1 else 0
    case Children => if p.kind.Child? then 1 else 0
    case Rooms => if p.kind.Room? then 1 else 0
    case Bells => if p.kind.Bell? then 1 else 0
    case Heads => 1
    case From(i) => if p.start == i then 1 else 0
  }

  predicate Counted(q: Quantity) {
    !q.Heads? && !q.From?
  }

  /** The counter of `t` that is meant to hold quantity `q`. */
  function Counter(t: Tally, q: Quantity): int
    requires Counted(q)
  {
    match q
    case Weights => t.weight
    case Places => t.seats
    case Adults => t.adult
    case Children => t.child
    case Rooms => t.room
    case Bells => t.bell
  }

  lemma CounterShift(t: Tally, p: Passenger, q: Quantity)
    requires Counted(q)
    ensures Counter(t.Plus(p), q) == Counter(t, q) + Amount(q, p)
    ensures Counter(t.Minus(p), q) == Counter(t, q) - Amount(q, p)
  {}

  function Sum(q: Quantity, s: seq<Passenger>): int {
    if s == [] then 0 else Sum(q, s[..|s| - 1]) + Amount(q, s[|s| - 1])
  }

  lemma SumSnoc(q: Quantity, s: seq<Passenger>, p: Passenger)
    ensures Sum(q, s + [p]) == Sum(q, s) + Amount(q, p)
  {
    assert (s + [p])[..|s|] == s;
  }

  lemma {:induction false} SumConcat(q: Quantity, a: seq<Passenger>, b: seq<Passenger>)
    ensures Sum(q, a + b) == Sum(q, a) + Sum(q, b)
  {
    if b == [] {
      assert a + b == a;
    } else {
      var n := |b| - 1;
      SumConcat(q, a, b[..n]);
      SumSnoc(q, a + b[..n], b[n]);
      assert a + b == a + b[..n] + [b[n]];
    }
  }

  lemma SumHead(q: Quantity, s: seq<Passenger>)
    requires s != []
    ensures Sum(q, s) == Amount(q, s[0]) + Sum(q, s[1..])
  {
    SumConcat(q, [s[0]], s[1..]);
    assert s == [s[0]] + s[1..];
    SumSnoc(q, [], s[0]);
    assert [] + [s[0]] == [s[0]];
  }

  lemma {:induction false} SumRemove(q: Quantity, s: seq<Passenger>, p: Passenger)
    requires p in s
    ensures Sum(q, Remove(s, p)) == Sum(q, s) - Amount(q, p)
  {
    SumHead(q, s);
    if s[0] != p {
      SumRemove(q, s[1..], p);
      var r := Remove(s, p);
      assert r[1..] == Remove(s[1..], p);
      SumHead(q, r);
    }
  }

  lemma {:induction false} HeadsFrom(i: int, s: seq<Passenger>)
    ensures Sum(From(i), s) == |Pick(AtStart, i, s)|
  {
    if s != [] {
      HeadsFrom(i, s[..|s| - 1]);
    }
  }

  /** The sum over all lists. */
  function Total(q: Quantity, lists: seq<seq<Passenger>>): int {
    if lists == [] then 0 else Total(q, lists[..|lists| - 1]) + Sum(q, lists[|lists| - 1])
  }

  lemma {:induction false} TotalUpdate(q: Quantity, lists: seq<seq<Passenger>>, j: int, s: seq<Passenger>)
    requires 0 <= j < |lists|
    ensures Total(q, lists[j := s]) == Total(q, lists) - Sum(q, lists[j]) + Sum(q, s)
  {
    var n := |lists| - 1;
    if j == n {
      assert lists[j := s][..n] == lists[..n];
    } else {
      TotalUpdate(q, lists[..n], j, s);
      assert lists[j := s][..n] == lists[..n][j := s];
    }
  }

  lemma {:induction false} TotalEmpty(q: Quantity, lists: seq<seq<Passenger>>)
    requires forall j | 0 <= j < |lists| :: lists[j] == []
    ensures Total(q, lists) == 0
  {
    if lists != [] {
      TotalEmpty(q, lists[..|lists| - 1]);
    }
  }
}
