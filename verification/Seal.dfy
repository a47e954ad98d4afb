/** The self-referential length of a sealed context: the two size fields are part of the text they measure. */
module Seal {
  import opened Domain

  /** Decimal digits of a natural number. */
  function Digits(n: nat): (d: nat)
    ensures d >= 1
  {
    if n < 10 then 1 else 1 + Digits(n / 10)
  }

  function Tokens(size: nat): nat { (size + 2) / 3 }

  datatype Usage = Usage(chars: nat, tokens: nat)

  /** Length of the text whose other fields take `base` characters. */
  function LengthOf(base: nat, u: Usage): nat { base + Digits(u.chars) + Digits(u.tokens) }

  function Measured(base: nat, u: Usage): Usage { Usage(LengthOf(base, u), Tokens(LengthOf(base, u))) }

  /** The usage after `n` rounds of measuring, starting from zeros. */
  function Round(base: nat, n: nat): Usage {
    if n == 0 then Usage(0, 0) else Measured(base, Round(base, n - 1))
  }

  // ---- digits ----

  lemma {:induction false} DigitsMonotone(a: nat, b: nat)
    requires a <= b
    ensures Digits(a) <= Digits(b)
  {
    if b >= 10 && a >= 10 { DigitsMonotone(a / 10, b / 10); }
  }

  lemma DigitsTimesTen(a: nat)
    requires a >= 1
    ensures Digits(10 * a) == Digits(a) + 1
  {
    assert (10 * a) / 10 == a;
  }

  lemma {:induction false} DigitsSmall(a: nat)
    requires a >= 1
    ensures Digits(a) <= a
  {
    if a >= 10 { DigitsSmall(a / 10); }
  }

  /** A number at most ten times another has at most one digit more. */
  lemma DigitsWithinTen(a: nat, b: nat)
    requires 1 <= a <= b <= 10 * a
    ensures Digits(a) <= Digits(b) <= Digits(a) + 1
  {
    DigitsMonotone(a, b);
    DigitsMonotone(b, 10 * a);
    DigitsTimesTen(a);
  }

  // ---- convergence ----

  lemma MeasuredMonotone(base: nat, u: Usage, v: Usage)
    requires u.chars <= v.chars && u.tokens <= v.tokens
    ensures Measured(base, u).chars <= Measured(base, v).chars && Measured(base, u).tokens <= Measured(base, v).tokens
  {
    DigitsMonotone(u.chars, v.chars);
    DigitsMonotone(u.tokens, v.tokens);
  }

  lemma {:induction false} RoundsGrow(base: nat, n: nat)
    ensures Round(base, n).chars <= Round(base, n + 1).chars && Round(base, n).tokens <= Round(base, n + 1).tokens
  {
    if n > 0 {
      RoundsGrow(base, n - 1);
      MeasuredMonotone(base, Round(base, n - 1), Round(base, n));
    }
  }

  lemma FirstRound(base: nat)
    ensures Round(base, 1) == Usage(base + 2, Tokens(base + 2))
  {
    assert Round(base, 0) == Usage(0, 0);
  }

  /** Every later round stays within ten times the first, so within one digit of it. */
  lemma {:induction false} RoundsBounded(base: nat, n: nat)
    requires n >= 1
    ensures var first, u := Round(base, 1), Round(base, n);
      && first.chars == base + 2 && first.chars <= u.chars <= 10 * first.chars
      && first.tokens == Tokens(base + 2) && first.tokens <= u.tokens <= 10 * first.tokens
      && u.tokens == Tokens(u.chars)
  {
    var first := Round(base, 1);
    FirstRound(base);
    if n > 1 {
      RoundsBounded(base, n - 1);
      var u := Round(base, n - 1);
      DigitsWithinTen(first.chars, u.chars);
      DigitsWithinTen(first.tokens, u.tokens);
      DigitsSmall(first.chars);
      DigitsMonotone(first.tokens, first.chars);
    }
  }

  /** From the second round on only three lengths are possible, so the fourth and fifth rounds agree. */
  lemma Converges(base: nat)
    ensures Round(base, 5) == Round(base, 4)
  {
    var first := Round(base, 1);
    RoundNear(base, 1); RoundNear(base, 2); RoundNear(base, 3); RoundNear(base, 4);
    RoundsGrow(base, 2); RoundsGrow(base, 3); RoundsGrow(base, 4);
    Stuck(base, 2); Stuck(base, 3);
  }

  lemma RoundNear(base: nat, n: nat)
    requires n >= 1
    ensures var first, u := Round(base, 1), Round(base, n + 1);
      && base + Digits(first.chars) + Digits(first.tokens) <= u.chars <= base + Digits(first.chars) + Digits(first.tokens) + 2
      && u.tokens == Tokens(u.chars)
  {
    RoundsBounded(base, n);
    var first, u := Round(base, 1), Round(base, n);
    DigitsWithinTen(first.chars, u.chars);
    DigitsWithinTen(first.tokens, u.tokens);
  }

  lemma Stuck(base: nat, n: nat)
    ensures Round(base, n + 1) == Round(base, n) ==> Round(base, n + 2) == Round(base, n + 1)
  {
  }

  /** The loop of at most twelve rounds. It always returns, and what it returns is the true length of the text that
      carries it; replacing the snapshot identifier by another of the same width changes nothing it measures. */
  method Seal(base: nat) returns (sealed: Option<Usage>)
    ensures sealed.Some?
    ensures sealed.value.chars == LengthOf(base, sealed.value) && sealed.value.tokens == Tokens(sealed.value.chars)
    ensures sealed.value == Round(base, 4)
  {
    var usage := Usage(0, 0);
    for i := 0 to 12
      invariant i <= 5 && usage == Round(base, i)
      invariant forall k :: 0 <= k < i ==> Round(base, k + 1) != Round(base, k)
    {
      var updated := Measured(base, usage);
      if updated == usage {
        Settled(base, i);
        return Some(usage);
      }
      Converges(base);
      usage := updated;
    }
    return None;
  }

  lemma {:induction false} Settled(base: nat, i: nat)
    requires i <= 5 && Round(base, i + 1) == Round(base, i)
    ensures Round(base, i) == Round(base, 4)
    decreases 5 - i
  {
    hide Measured;
    Converges(base);
    if i < 4 {
      Stuck(base, i);
      hide Round;
      Settled(base, i + 1);
    }
  }
}
