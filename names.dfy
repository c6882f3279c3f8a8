/**
 * Node names of a cluster: "validator-" followed by the ordinal in decimal,
 * left-padded with '0' to a width of three ("{:0>3}" in Python's format
 * mini-language, which pads but never truncates).
 */
module Names {
  import opened Wrappers

  const Prefix: string := "validator-"

  /** The field width of the ordinal part of a node name. */
  const Width: nat := 3

  predicate IsDigit(c: char) {
    '0' <= c <= '9'
  }

  function DigitChar(d: nat): (c: char)
    requires d < 10
    ensures IsDigit(c)
  {
    (48 + d) as char
  }

  function DigitValue(c: char): nat {
    if IsDigit(c) then c as int - 48 else 0
  }

  /** The decimal representation of n, without leading zeros (Python's str(n)). */
  function Decimal(n: nat): string {
    if n < 10 then [DigitChar(n)] else Decimal(n / 10) + [DigitChar(n % 10)]
  }

  /** At least one digit, only digits, no leading zero, and at most three digits below 1000. */
  lemma {:induction false} DecimalShape(n: nat)
    ensures var s := Decimal(n);
      1 <= |s| && (forall k :: 0 <= k < |s| ==> IsDigit(s[k])) && (n > 0 ==> s[0] != '0')
      && (n < 10 ==> |s| == 1) && (n < 100 ==> |s| <= 2) && (n < 1000 ==> |s| <= Width)
  {
    if n >= 10 {
      DecimalShape(n / 10);
    }
  }

  /** The number a string of decimal digits denotes, most significant digit first. */
  function Value(s: string): nat {
    if s == [] then 0 else 10 * Value(s[..|s| - 1]) + DigitValue(s[|s| - 1])
  }

  /** k copies of '0'. */
  function Zeros(k: nat): (z: string)
    ensures |z| == k && forall j :: 0 <= j < k ==> z[j] == '0'
  {
    if k == 0 then [] else Zeros(k - 1) + ['0']
  }

  /** Right-aligns s in a field of Width characters, filling with '0'. */
  function PadOrdinal(s: string): string {
    if |s| < Width then Zeros(Width - |s|) + s else s
  }

  /** Padding reaches the field width, never truncates, and only adds '0's in front. */
  lemma PadOrdinalShape(s: string)
    ensures var r := PadOrdinal(s);
      |r| == (if |s| < Width then Width else |s|)
      && r[|r| - |s|..] == s
      && forall j :: 0 <= j < |r| - |s| ==> r[j] == '0'
  {
  }

  /** The name of the node with ordinal i. */
  function NodeName(i: nat): string {
    Prefix + PadOrdinal(Decimal(i))
  }

  /** Every node name is the prefix and at least three ordinal characters, exactly three below 1000. */
  lemma NodeNameShape(i: nat)
    ensures |NodeName(i)| >= |Prefix| + Width && NodeName(i)[..|Prefix|] == Prefix
    ensures i < 1000 ==> |NodeName(i)| == |Prefix| + Width
  {
    var padded := PadOrdinal(Decimal(i));
    DecimalShape(i);
    PadOrdinalShape(Decimal(i));
    assert NodeName(i) == Prefix + padded;
  }

  /** The ordinal a node name stands for, if it is a node name at all. */
  function Ordinal(name: string): Option<nat> {
    if |name| > |Prefix| && name[..|Prefix|] == Prefix
       && forall k :: |Prefix| <= k < |name| ==> IsDigit(name[k])
    then Some(Value(name[|Prefix|..]))
    else None
  }

  lemma {:induction false} ValueOfDecimal(n: nat)
    ensures Value(Decimal(n)) == n
  {
    if n >= 10 {
      var d := Decimal(n / 10);
      assert (d + [DigitChar(n % 10)])[..|d|] == d;
      ValueOfDecimal(n / 10);
    }
  }

  lemma {:induction false} ValueOfZeros(k: nat)
    ensures Value(Zeros(k)) == 0
  {
    if k > 0 {
      assert Zeros(k)[..k - 1] == Zeros(k - 1);
      ValueOfZeros(k - 1);
    }
  }

  /** Leading zeros do not change the value of a digit string. */
  lemma {:induction false} ValueIgnoresLeadingZeros(k: nat, s: string)
    ensures Value(Zeros(k) + s) == Value(s)
    decreases |s|
  {
    if s == [] {
      assert Zeros(k) + s == Zeros(k);
      ValueOfZeros(k);
    } else {
      var t := Zeros(k) + s;
      assert t[..|t| - 1] == Zeros(k) + s[..|s| - 1];
      ValueIgnoresLeadingZeros(k, s[..|s| - 1]);
    }
  }

  /** Reading the ordinal back out of a node name gives the ordinal it was made from. */
  lemma OrdinalOfNodeName(i: nat)
    ensures Ordinal(NodeName(i)) == Some(i)
  {
    var d := Decimal(i);
    var name := NodeName(i);
    NodeNameShape(i);
    DecimalShape(i);
    PadOrdinalShape(d);
    assert name[|Prefix|..] == PadOrdinal(d);
    if |d| < Width {
      ValueIgnoresLeadingZeros(Width - |d|, d);
    }
    ValueOfDecimal(i);
  }

  /** Distinct ordinals give distinct node names. */
  lemma NodeNameInjective(i: nat, j: nat)
    ensures NodeName(i) == NodeName(j) <==> i == j
  {
    OrdinalOfNodeName(i);
    OrdinalOfNodeName(j);
  }
}
