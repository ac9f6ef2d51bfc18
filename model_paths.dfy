/** The property-tree path of a model slot: "/models/model" for slot 0 and
    "/models/model[i]" for slot i > 0, with i written by `std::to_string`. */
module ModelPaths {

  const MODELS_PREFIX: string := "/models/model"

  function DigitChar(d: nat): (c: char)
    requires d < 10
    ensures '0' <= c <= '9'
  {
    (('0' as int) + d) as char
  }

  /** The value of one decimal digit character. */
  function DigitValue(c: char): nat
    requires '0' <= c <= '9'
  {
    (c as int) - ('0' as int)
  }

  predicate AllDigits(s: string)
  {
    forall i :: 0 <= i < |s| ==> '0' <= s[i] <= '9'
  }

  /** The number a string of decimal digits denotes, most significant digit first. */
  function DecimalValue(s: string): nat
    requires AllDigits(s)
    decreases |s|
  {
    if s == [] then 0 else 10 * DecimalValue(s[..|s| - 1]) + DigitValue(s[|s| - 1])
  }

  /** `std::to_string` of an unsigned value: the decimal numeral of `n`, without
      leading zeros. */
  function NatToString(n: nat): (s: string)
    ensures |s| >= 1
    ensures AllDigits(s) && DecimalValue(s) == n
    decreases n
  {
    if n < 10 then [DigitChar(n)] else NatToString(n / 10) + [DigitChar(n % 10)]
  }

  /** The first digit is '0' only for the number 0 itself. */
  lemma {:induction false} NatToStringNoLeadingZero(n: nat)
    ensures NatToString(n)[0] == '0' <==> n == 0
  {
    if n >= 10 {
      NatToStringNoLeadingZero(n / 10);
    }
  }

  /** Distinct numbers are written differently: each string denotes its own number. */
  lemma NatToStringInjective(a: nat, b: nat)
    requires NatToString(a) == NatToString(b)
    ensures a == b
  {
  }

  /** The path built in `UpdateEntityInScene` (and in the constructor's model loop). */
  function PropertyPath(index: nat): string
  {
    if index == 0 then MODELS_PREFIX else MODELS_PREFIX + "[" + NatToString(index) + "]"
  }

  /** Slot 0 is the bare prefix; slot i > 0 is the prefix, then the decimal numeral of
      i between brackets. */
  lemma PropertyPathShape(index: nat)
    ensures index == 0 ==> PropertyPath(index) == "/models/model"
    ensures index > 0 ==> PropertyPath(index) == "/models/model[" + NatToString(index) + "]"
    ensures var p, n := PropertyPath(index), |MODELS_PREFIX|;
      index > 0 ==>
        && |p| >= n + 3 && p[..n] == MODELS_PREFIX && p[n] == '[' && p[|p| - 1] == ']'
        && AllDigits(p[n + 1..|p| - 1])
        && DecimalValue(p[n + 1..|p| - 1]) == index
  {
    if index > 0 {
      var p, n := PropertyPath(index), |MODELS_PREFIX|;
      assert p[n + 1..|p| - 1] == NatToString(index);
    }
  }

  /** Two slots never share a property path, so a pose pushed for one slot never
      overwrites another slot's pose. */
  lemma PropertyPathInjective(i: nat, j: nat)
    requires PropertyPath(i) == PropertyPath(j)
    ensures i == j
  {
    var n := |MODELS_PREFIX|;
    if i != 0 && j != 0 {
      var si, sj := NatToString(i), NatToString(j);
      var p := PropertyPath(i);
      assert p == MODELS_PREFIX + "[" + si + "]";
      assert PropertyPath(j) == MODELS_PREFIX + "[" + sj + "]";
      assert |si| == |sj|;
      assert si == p[n + 1..|p| - 1] == sj;
      NatToStringInjective(i, j);
    }
  }
}
