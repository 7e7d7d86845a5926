/** The four speeds the dial cycles through, in their declaration order,
    and the cyclic successor that a click applies. */
module FanSpeeds {

  datatype FanSpeed = Off | Low | Medium | High

  /** The position of a speed in the declaration order OFF, LOW, MEDIUM, HIGH
      (the enum's `ordinal`). */
  function Ordinal(s: FanSpeed): (k: nat)
    ensures k < 4
  {
    match s
    case Off => 0
    case Low => 1
    case Medium => 2
    case High => 3
  }

  /** The speed with a given ordinal. */
  function FromOrdinal(k: nat): (s: FanSpeed)
    requires k < 4
    ensures Ordinal(s) == k
  {
    if k == 0 then Off else if k == 1 then Low else if k == 2 then Medium else High
  }

  /** Distinct speeds have distinct ordinals, and FromOrdinal undoes Ordinal. */
  lemma OrdinalInjective(s: FanSpeed, t: FanSpeed)
    ensures Ordinal(s) == Ordinal(t) <==> s == t
    ensures FromOrdinal(Ordinal(s)) == s
  {
  }

  /** The enum's `entries`: every speed exactly once, in ordinal order. */
  function Entries(): (es: seq<FanSpeed>)
    ensures |es| == 4
    ensures forall k :: 0 <= k < |es| ==> Ordinal(es[k]) == k
  {
    [Off, Low, Medium, High]
  }

  /** `next()`: the cyclic successor OFF -> LOW -> MEDIUM -> HIGH -> OFF. */
  function Next(s: FanSpeed): (r: FanSpeed)
    ensures Ordinal(r) == (Ordinal(s) + 1) % 4
  {
    match s
    case Off => Low
    case Low => Medium
    case Medium => High
    case High => Off
  }

  /** `next()` applied n times. */
  function Iterate(s: FanSpeed, n: nat): FanSpeed
    decreases n
  {
    if n == 0 then s else Next(Iterate(s, n - 1))
  }

  /** n steps advance the ordinal by n, modulo the four states. */
  lemma {:induction false} IterateOrdinal(s: FanSpeed, n: nat)
    ensures Ordinal(Iterate(s, n)) == (Ordinal(s) + n) % 4
    decreases n
  {
    if n > 0 {
      IterateOrdinal(s, n - 1);
    }
  }

  /** n steps from OFF land on the state with ordinal n mod 4. */
  lemma ClicksFromOff(n: nat)
    ensures Ordinal(Iterate(Off, n)) == n % 4
    ensures Iterate(Off, n) == FromOrdinal(n % 4)
  {
    IterateOrdinal(Off, n);
    OrdinalInjective(Iterate(Off, n), FromOrdinal(n % 4));
  }

  /** The cycle has period exactly four: n steps return a state to itself
      if and only if n is a multiple of four. */
  lemma IterateReturns(s: FanSpeed, n: nat)
    ensures Iterate(s, n) == s <==> n % 4 == 0
  {
    IterateOrdinal(s, n);
    OrdinalInjective(Iterate(s, n), s);
  }

  /** Four more steps change nothing. */
  lemma IterateShift(s: FanSpeed, n: nat)
    ensures Iterate(s, n + 4) == Iterate(s, n)
  {
    IterateOrdinal(s, n);
    IterateOrdinal(s, n + 4);
    OrdinalInjective(Iterate(s, n + 4), Iterate(s, n));
  }
}
