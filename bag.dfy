/**
 * The 7-bag randomizer: seven "used" marks and a count of unused kinds.
 * Each draw refills the bag when it is empty, scales a random word into
 * the live range, probes backward (wrapping from 0 to 6) to an unused slot,
 * marks it and returns it as the next piece kind.
 */
module Randomizer {
  import opened Shapes

  const Slots: int := 7
  /** esp_random() yields a 32-bit word. */
  const RandomRange: int := 0x1_0000_0000

  /** The abstract value of a bag: which slots are used, and the live count. */
  datatype BagState = BagState(used: seq<bool>, size: int)

  /** Number of unused slots. */
  function CountUnused(u: seq<bool>): (n: nat)
    ensures n <= |u|
  {
    if |u| == 0 then 0 else CountUnused(u[..|u| - 1]) + (if u[|u| - 1] then 0 else 1)
  }

  /** The count field agrees with the marks. */
  ghost predicate ValidState(s: BagState) {
    |s.used| == Slots && s.size == CountUnused(s.used)
  }

  /** The bag just after fillbag: nothing used, seven to go. */
  function Fresh(): BagState {
    BagState(seq(Slots, _ => false), Slots)
  }

  /** fillbag runs first when the bag is empty. */
  function Refilled(s: BagState): (t: BagState)
    ensures ValidState(s) ==> ValidState(t) && t.size > 0
  {
    FreshValid();
    if s.size == 0 then Fresh() else s
  }

  /** The random word scaled into [0, size): the evidently intended scaling. */
  function DiceRoll(size: nat, random: nat): (d: nat)
    requires random < RandomRange
    ensures size > 0 ==> d < size
  {
    ScaledBelow(size, random, RandomRange);
    size * random / RandomRange
  }

  /** a * b / m lies below a when b < m. */
  lemma ScaledBelow(a: nat, b: nat, m: nat)
    requires b < m
    ensures a > 0 ==> a * b / m < a
    ensures a * b / m <= a
  {
    if a > 0 {
      assert a * b < a * m by {
        assert a * m - a * b == a * (m - b);
      }
      var q := a * b / m;
      assert q * m <= a * b;
      assert (a - q) * m > 0 by {
        assert (a - q) * m == a * m - q * m;
      }
    }
  }

  /** The scaling as the game writes it, with 4294967295 as divisor, in exact
      arithmetic: the top random word reaches `size` itself. */
  function DiceRollAsWritten(size: nat, random: nat): (d: nat)
    requires random < RandomRange
    ensures d <= size
  {
    ScaledAtMost(size, random, RandomRange - 1);
    size * random / (RandomRange - 1)
  }

  /** a * b / m is at most a when b <= m. */
  lemma ScaledAtMost(a: nat, b: nat, m: nat)
    requires 0 < m && b <= m
    ensures a * b / m <= a
  {
    assert a * b <= a * m by {
      assert a * m - a * b == a * (m - b);
    }
    var q := a * b / m;
    assert q * m <= a * b;
    assert (a + 1 - q) * m > 0 by {
      assert (a + 1 - q) * m == a * m + m - q * m;
    }
  }

  /** With a full bag and the largest random word the index is 7, one past
      the end of the seven marks. */
  lemma DiceRollAsWrittenOverruns()
    ensures DiceRollAsWritten(Slots, RandomRange - 1) == Slots
  {
  }

  /** Below the top word the two scalings can differ too: for this word and
      a full bag the code starts the probe at slot 2, the corrected scaling
      at slot 1. */
  lemma DiceRollsDiffer()
    ensures DiceRollAsWritten(Slots, 1227133513) == 2 && DiceRoll(Slots, 1227133513) == 1
  {
  }

  /** The probe's step: one slot back, wrapping from 0 to 6. */
  function Prev(d: int): (p: int)
    requires 0 <= d < Slots
    ensures 0 <= p < Slots && p == (d - 1) % Slots
  {
    if d - 1 < 0 then Slots - 1 else d - 1
  }

  /** Number of backward steps from d to t. */
  function Distance(d: int, t: int): (n: nat)
    requires 0 <= d < Slots && 0 <= t < Slots
    ensures n < Slots && (n == 0 <==> d == t)
  {
    if d >= t then d - t else d - t + Slots
  }

  /** Each probe step that does not start on t brings t one step closer. */
  lemma DistanceStep(d: int, t: int)
    requires 0 <= d < Slots && 0 <= t < Slots && d != t
    ensures Distance(Prev(d), t) == Distance(d, t) - 1
  {
  }

  /** Backward probe from d over at most `fuel` steps, stopping at the first unused slot. */
  function Probe(u: seq<bool>, d: int, fuel: nat): (p: int)
    requires |u| == Slots && 0 <= d < Slots
    ensures 0 <= p < Slots
    decreases fuel
  {
    if fuel == 0 || !u[d] then d else Probe(u, Prev(d), fuel - 1)
  }

  /** If slot t is unused and within reach, the probe ends on an unused slot. */
  lemma {:induction false} ProbeFindsUnused(u: seq<bool>, d: int, fuel: nat, t: int)
    requires |u| == Slots && 0 <= d < Slots && 0 <= t < Slots && !u[t]
    requires Distance(d, t) <= fuel
    ensures !u[Probe(u, d, fuel)]
    decreases fuel
  {
    if u[d] {
      DistanceStep(d, t);
      ProbeFindsUnused(u, Prev(d), fuel - 1, t);
    }
  }

  /** One call of generatepiece on the abstract bag: the new bag and the kind drawn. */
  function Draw(s: BagState, random: nat): (BagState, Kind)
    requires ValidState(s) && random < RandomRange
  {
    var t := Refilled(s);
    var p := Probe(t.used, DiceRoll(t.size, random), Slots);
    (BagState(t.used[p := true], t.size - 1), p)
  }

  lemma {:induction false} CountUnusedAllFalse(n: nat)
    ensures CountUnused(seq(n, _ => false)) == n
  {
    if n > 0 {
      assert seq(n, _ => false)[..n - 1] == seq(n - 1, _ => false);
      CountUnusedAllFalse(n - 1);
    }
  }

  /** Marking one unused slot lowers the count by one. */
  lemma {:induction false} CountUnusedMark(u: seq<bool>, p: int)
    requires 0 <= p < |u| && !u[p]
    ensures CountUnused(u[p := true]) == CountUnused(u) - 1
  {
    var n := |u|;
    if p == n - 1 {
      assert u[p := true][..n - 1] == u[..n - 1];
    } else {
      assert u[p := true][..n - 1] == u[..n - 1][p := true];
      CountUnusedMark(u[..n - 1], p);
    }
  }

  /** A positive count means some slot is still unused. */
  lemma {:induction false} CountUnusedWitness(u: seq<bool>) returns (t: int)
    requires CountUnused(u) > 0
    ensures 0 <= t < |u| && !u[t]
  {
    var n := |u|;
    if u[n - 1] {
      t := CountUnusedWitness(u[..n - 1]);
    } else {
      t := n - 1;
    }
  }

  /** A zero count means every slot is used. */
  lemma {:induction false} CountUnusedZero(u: seq<bool>)
    requires CountUnused(u) == 0
    ensures forall i :: 0 <= i < |u| ==> u[i]
  {
    if |u| > 0 {
      CountUnusedZero(u[..|u| - 1]);
      assert forall i :: 0 <= i < |u| - 1 ==> u[i] == u[..|u| - 1][i];
    }
  }

  lemma FreshValid()
    ensures ValidState(Fresh())
  {
    CountUnusedAllFalse(Slots);
  }

  /** A draw takes a slot that was unused after the refill, marks it, and
      lowers the count by one; the bag stays consistent. */
  lemma DrawTakesUnused(s: BagState, random: nat)
    requires ValidState(s) && random < RandomRange
    ensures var t := Refilled(s); var (s', p) := Draw(s, random);
      ValidState(s') && !t.used[p] && s'.used == t.used[p := true] && s'.size == t.size - 1
  {
    FreshValid();
    var t := Refilled(s);
    assert t.size > 0;
    var w := CountUnusedWitness(t.used);
    var d := DiceRoll(t.size, random);
    ProbeFindsUnused(t.used, d, Slots, w);
    CountUnusedMark(t.used, Probe(t.used, d, Slots));
  }

  /** The bag and the first two pieces of a new game: two draws from a fresh bag. */
  function Opening(first: nat, second: nat): (r: (BagState, Kind, Kind))
    requires first < RandomRange && second < RandomRange
    ensures ValidState(r.0) && r.0.size == Slots - 2
  {
    FreshValid();
    DrawTakesUnused(Fresh(), first);
    var (s1, p) := Draw(Fresh(), first);
    DrawTakesUnused(s1, second);
    var (s2, q) := Draw(s1, second);
    (s2, p, q)
  }

  /** The first two pieces of a game are of different kinds. */
  lemma OpeningDistinct(first: nat, second: nat)
    requires first < RandomRange && second < RandomRange
    ensures Opening(first, second).1 != Opening(first, second).2
  {
    FreshValid();
    DrawTakesUnused(Fresh(), first);
    var (s1, p) := Draw(Fresh(), first);
    DrawTakesUnused(s1, second);
  }

  /** Successive draws, one per random word. */
  function DrawMany(s: BagState, randoms: seq<nat>): (r: (BagState, seq<Kind>))
    requires ValidState(s) && forall i :: 0 <= i < |randoms| ==> randoms[i] < RandomRange
    ensures ValidState(r.0) && |r.1| == |randoms|
    decreases |randoms|
  {
    if |randoms| == 0 then (s, [])
    else
      DrawTakesUnused(s, randoms[0]);
      var (s1, p) := Draw(s, randoms[0]);
      var (s2, ps) := DrawMany(s1, randoms[1..]);
      (s2, [p] + ps)
  }

  /** Within one cycle (no refill happens) the draws are distinct, each was
      unused at the start, and they are exactly the slots that became used. */
  lemma {:induction false} DrawWithinCycle(s: BagState, randoms: seq<nat>)
    requires ValidState(s) && forall i :: 0 <= i < |randoms| ==> randoms[i] < RandomRange
    requires |randoms| <= s.size
    ensures var (s', ps) := DrawMany(s, randoms);
      s'.size == s.size - |randoms| &&
      (forall i :: 0 <= i < |ps| ==> !s.used[ps[i]]) &&
      (forall i, j :: 0 <= i < j < |ps| ==> ps[i] != ps[j]) &&
      (forall k: Kind :: s'.used[k] <==> s.used[k] || k in ps)
    decreases |randoms|
  {
    if |randoms| > 0 {
      DrawTakesUnused(s, randoms[0]);
      var (s1, p) := Draw(s, randoms[0]);
      DrawWithinCycle(s1, randoms[1..]);
      var (s2, ps) := DrawMany(s1, randoms[1..]);
      assert DrawMany(s, randoms) == (s2, [p] + ps);
      forall i | 0 <= i < |ps| ensures ps[i] != p && !s.used[ps[i]] {
        assert !s1.used[ps[i]];
      }
    }
  }

  /** 7-bag fairness: seven draws starting at a cycle boundary (a fresh bag,
      or an emptied one that will be refilled) yield each kind exactly once. */
  lemma SevenDrawsAreAPermutation(s: BagState, randoms: seq<nat>)
    requires ValidState(s) && (s == Fresh() || s.size == 0)
    requires |randoms| == Slots && forall i :: 0 <= i < |randoms| ==> randoms[i] < RandomRange
    ensures var (s', ps) := DrawMany(s, randoms);
      s'.size == 0 &&
      (forall i, j :: 0 <= i < j < |ps| ==> ps[i] != ps[j]) &&
      (forall k: Kind :: k in ps)
  {
    FreshValid();
    var (s1, p) := Draw(s, randoms[0]);
    assert Draw(s, randoms[0]) == Draw(Fresh(), randoms[0]);
    assert DrawMany(s, randoms) == DrawMany(Fresh(), randoms);
    DrawWithinCycle(Fresh(), randoms);
    var (s', ps) := DrawMany(Fresh(), randoms);
    CountUnusedZero(s'.used);
    forall k: Kind ensures k in ps {
      assert s'.used[k];
      assert !Fresh().used[k];
    }
  }

  /** The bag object: a fixed array of seven marks and the live count. */
  class Bag {
    const bag: array<bool>
    var bagSize: int

    ghost predicate Valid()
      reads this, bag
    {
      bag.Length == Slots && ValidState(State())
    }

    ghost function State(): BagState
      reads this, bag
    {
      BagState(bag[..], bagSize)
    }

    /** Bag(): a fresh bag. */
    constructor ()
      ensures Valid() && fresh(bag) && State() == Fresh()
    {
      bag := new bool[Slots];
      new;
      FillBag();
    }

    /** fillbag: clear every mark; sizeof(bool[7]) is 7. */
    method FillBag()
      requires bag.Length == Slots
      modifies this, bag
      ensures Valid() && State() == Fresh()
    {
      forall i | 0 <= i < Slots {
        bag[i] := false;
      }
      bagSize := Slots;
      assert bag[..] == seq(Slots, _ => false);
      FreshValid();
    }

    /** generatepiece's probe: from d0, step back (wrapping from 0 to 6)
        while the slot is used. */
    method ProbeBack(d0: int) returns (dice: int)
      requires bag.Length == Slots && 0 <= d0 < Slots && CountUnused(bag[..]) > 0
      ensures dice == Probe(bag[..], d0, Slots) && !bag[dice]
    {
      ghost var u := bag[..];
      ghost var t := CountUnusedWitness(u);
      ghost var fuel: nat := Slots;
      dice := d0;
      while bag[dice]
        invariant 0 <= dice < Slots
        invariant Distance(dice, t) <= fuel
        invariant Probe(u, dice, fuel) == Probe(u, d0, Slots)
        decreases Distance(dice, t)
      {
        DistanceStep(dice, t);
        dice := dice - 1;
        if dice < 0 {
          dice := Slots - 1;
        }
        fuel := fuel - 1;
      }
    }

    /** generatepiece, with the random word as a parameter. */
    method GeneratePiece(random: nat) returns (p: Kind)
      requires Valid() && random < RandomRange
      modifies this, bag
      ensures Valid()
      ensures (State(), p) == Draw(old(State()), random)
    {
      ghost var refilled := Refilled(State());
      FreshValid();
      if bagSize == 0 {
        FillBag();
      }
      assert State() == refilled;
      var dice := DiceRoll(bagSize, random);
      dice := ProbeBack(dice);
      bagSize := bagSize - 1;
      ghost var u := bag[..];
      bag[dice] := true;
      p := dice;
      assert bag[..] == u[p := true];
      CountUnusedMark(u, p);
    }
  }
}
