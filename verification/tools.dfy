/**
 * Identifiers: short codes drawn from a fixed 16-symbol alphabet, used as game
 * codes. `RandomIdentifier` is the generator; the draw of each symbol index is a
 * nondeterministic choice in 0..16. The rest of the module numbers the
 * identifiers of one length (FromValue / Value, a bijection with 0 .. 16^n) so
 * that the registry can show that a code not yet in use exists whenever fewer
 * than 16^n codes are taken.
 */
module Tools {

  type Identifier = string

  const IdentifierChars: seq<char> :=
    ['A', 'B', 'C', 'D', 'E', 'F', '0', '1', '2', '3', '4', '5', '6', '7', '8', '9']

  /** The alphabet is the sixteen upper-case hexadecimal digits, each once. */
  lemma AlphabetIsHexDigits()
    ensures |IdentifierChars| == 16
    ensures forall c :: c in IdentifierChars <==> ('A' <= c <= 'F' || '0' <= c <= '9')
    ensures forall i, j :: 0 <= i < j < |IdentifierChars| ==> IdentifierChars[i] != IdentifierChars[j]
  {
  }

  /** `s` is an identifier of `n` symbols of the alphabet. */
  predicate IsIdentifierOf(s: string, n: nat) {
    |s| == n && forall i :: 0 <= i < |s| ==> s[i] in IdentifierChars
  }

  /**
   * Generates an identifier of `length` symbols. Each symbol index is a
   * nondeterministic draw from 0..16, so the alphabet lookup is always in range.
   */
  method RandomIdentifier(length: nat) returns (out: Identifier)
    ensures |out| == length
    ensures forall i :: 0 <= i < |out| ==> out[i] in IdentifierChars
  {
    out := "";
    for n := 0 to length
      invariant |out| == n
      invariant forall i :: 0 <= i < |out| ==> out[i] in IdentifierChars
    {
      var ran: nat :| ran < 16;
      out := out + [IdentifierChars[ran]];
    }
  }

  // ---------------------------------------------------------------------------
  // Numbering the identifiers of one length

  function Pow16(n: nat): (p: nat)
    ensures p >= 1
  {
    if n == 0 then 1 else 16 * Pow16(n - 1)
  }

  /** The position of an alphabet symbol. */
  function DigitOf(c: char): (d: nat)
    requires c in IdentifierChars
    ensures d < 16 && IdentifierChars[d] == c
  {
    if 'A' <= c <= 'F' then c as int - 'A' as int else c as int - '0' as int + 6
  }

  /** The number of an identifier: its symbols read as base-16 digits, least significant first. */
  function Value(s: string): (v: nat)
    requires IsIdentifierOf(s, |s|)
    ensures v < Pow16(|s|)
    decreases |s|
  {
    if |s| == 0 then 0
    else
      TailIsIdentifier(s);
      DigitOf(s[0]) + 16 * Value(s[1..])
  }

  /** The identifier of `n` symbols whose number is `v`. */
  function FromValue(v: nat, n: nat): (s: Identifier)
    requires v < Pow16(n)
    ensures IsIdentifierOf(s, n) && Value(s) == v
  {
    if n == 0 then ""
    else
      var rest := FromValue(v / 16, n - 1);
      var s := [IdentifierChars[v % 16]] + rest;
      assert s[1..] == rest;
      AlphabetIsHexDigits();
      s
  }

  /** Every identifier of length n is FromValue of exactly its own number. */
  lemma {:induction false} FromValueOfValue(s: string)
    requires IsIdentifierOf(s, |s|)
    ensures FromValue(Value(s), |s|) == s
    decreases |s|
  {
    if |s| > 0 {
      var tail := s[1..];
      TailIsIdentifier(s);
      var d, w := DigitOf(s[0]), Value(tail);
      var v := Value(s);
      assert v == d + 16 * w;
      Digits16(d, w);
      assert v % 16 == d && v / 16 == w;
      FromValueOfValue(tail);
      assert FromValue(w, |s| - 1) == tail;
      assert FromValue(v, |s|) == [IdentifierChars[v % 16]] + FromValue(v / 16, |s| - 1);
      assert s == [s[0]] + tail;
    }
  }

  lemma TailIsIdentifier(s: string)
    requires |s| > 0 && IsIdentifierOf(s, |s|)
    ensures IsIdentifierOf(s[1..], |s| - 1)
  {
    forall i | 0 <= i < |s| - 1 ensures s[1..][i] in IdentifierChars {
      assert s[1..][i] == s[i + 1];
    }
  }

  lemma Digits16(d: nat, w: nat)
    requires d < 16
    ensures (d + 16 * w) % 16 == d && (d + 16 * w) / 16 == w
  {
  }

  // ---------------------------------------------------------------------------
  // A free identifier exists while fewer than 16^n are used

  /** The numbers of the identifiers of length n in `used`. */
  ghost function ValuesOf(used: set<string>, n: nat): set<nat> {
    set s | s in used && IsIdentifierOf(s, n) :: Value(s)
  }

  lemma {:induction false} ValuesOfBound(used: set<string>, n: nat)
    ensures |ValuesOf(used, n)| <= |used|
    decreases used
  {
    if used != {} {
      var x :| x in used;
      var rest := used - {x};
      ValuesOfBound(rest, n);
      var extra: set<nat> := if IsIdentifierOf(x, n) then {Value(x)} else {};
      forall y | y in ValuesOf(used, n) ensures y in ValuesOf(rest, n) + extra {
        var s :| s in used && IsIdentifierOf(s, n) && Value(s) == y;
        if s != x {
          assert s in rest;
        }
      }
      SubsetSize(ValuesOf(used, n), ValuesOf(rest, n) + extra);
    }
  }

  lemma SubsetSize<T>(a: set<T>, b: set<T>)
    requires a <= b
    ensures |a| <= |b|
  {
    assert b == a + (b - a);
  }

  /** The numbers below m. */
  ghost function Below(m: nat): (r: set<nat>)
    ensures forall v: nat :: v in r <==> v < m
    ensures |r| == m
  {
    if m == 0 then {} else Below(m - 1) + {m - 1}
  }

  /**
   * Pigeonhole: when fewer than 16^n strings are in use, some identifier of n
   * symbols is not among them.
   */
  lemma UnusedIdentifierExists(used: set<string>, n: nat)
    requires |used| < Pow16(n)
    ensures exists v: nat :: v < Pow16(n) && FromValue(v, n) !in used
  {
    var all := Below(Pow16(n));
    ValuesOfBound(used, n);
    if all <= ValuesOf(used, n) {
      SubsetSize(all, ValuesOf(used, n));
      assert false;
    }
    var v :| v in all && v !in ValuesOf(used, n);
    assert FromValue(v, n) !in used;
  }
}
