/** Strings as the engine compares them: ordinal order, an ASCII case fold for the
    OrdinalIgnoreCase comparisons, whitespace trimming and blank checks. */
module Text {

  /** Upper-cases one ASCII letter; every other character is left alone. */
  function Upper(c: char): char
  {
    if 'a' <= c <= 'z' then (c as int - 32) as char else c
  }

  /** The key every case-insensitive dictionary and comparison of the engine uses. */
  function Fold(s: string): (r: string)
    ensures |r| == |s|
    ensures forall i :: 0 <= i < |s| ==> r[i] == Upper(s[i])
  {
    if s == [] then [] else [Upper(s[0])] + Fold(s[1..])
  }

  lemma {:induction false} FoldIdempotent(s: string)
    ensures Fold(Fold(s)) == Fold(s)
  {
    if s != [] {
      FoldIdempotent(s[1..]);
      assert Fold(s)[1..] == Fold(s[1..]);
    }
  }

  predicate EqualsIgnoreCase(a: string, b: string)
  {
    Fold(a) == Fold(b)
  }

  /** The position of the first element whose key equals the wanted text ignoring case, or the
      length when none does: FirstOrDefault or FindIndex over an OrdinalIgnoreCase key. */
  function FirstMatching<T>(s: seq<T>, key: T -> string, wanted: string): (r: nat)
    ensures r <= |s|
    ensures forall j | 0 <= j < r :: !EqualsIgnoreCase(key(s[j]), wanted)
    ensures r < |s| ==> EqualsIgnoreCase(key(s[r]), wanted)
    decreases |s|
  {
    if s == [] then 0
    else if EqualsIgnoreCase(key(s[0]), wanted) then 0
    else 1 + FirstMatching(s[1..], key, wanted)
  }

  /** Strings that differ at one position even after folding differ ignoring case. */
  lemma DifferAt(a: string, b: string, k: nat)
    requires k < |a| && k < |b| && Upper(a[k]) != Upper(b[k])
    ensures !EqualsIgnoreCase(a, b)
  {
    assert Fold(a)[k] != Fold(b)[k];
  }

  predicate IsWhiteSpace(c: char)
  {
    c == ' ' || '\t' <= c <= '\r' || c == '\U{0085}' || c == '\U{00A0}'
  }

  /** `string.IsNullOrWhiteSpace` for a string that is present. */
  predicate IsBlank(s: string)
  {
    forall i :: 0 <= i < |s| ==> IsWhiteSpace(s[i])
  }

  /** Folding never turns a character into whitespace or whitespace into anything else. */
  lemma FoldKeepsBlank(s: string)
    ensures IsBlank(Fold(s)) <==> IsBlank(s)
  {
  }

  function TrimStart(s: string): string
  {
    if |s| > 0 && IsWhiteSpace(s[0]) then TrimStart(s[1..]) else s
  }

  function TrimEnd(s: string): string
  {
    if |s| > 0 && IsWhiteSpace(s[|s| - 1]) then TrimEnd(s[..|s| - 1]) else s
  }

  /** TrimStart drops a whitespace prefix and stops at the first other character. */
  lemma {:induction false} TrimStartShape(s: string)
    ensures var r := TrimStart(s);
            |r| <= |s| && r == s[|s| - |r|..]
            && (r == [] || !IsWhiteSpace(r[0]))
            && (forall i :: 0 <= i < |s| - |r| ==> IsWhiteSpace(s[i]))
  {
    if |s| > 0 && IsWhiteSpace(s[0]) {
      var t := s[1..];
      TrimStartShape(t);
      var r := TrimStart(s);
      assert r == TrimStart(t);
      assert t[|t| - |r|..] == s[|s| - |r|..];
      forall i | 0 <= i < |s| - |r|
        ensures IsWhiteSpace(s[i])
      {
        if i > 0 {
          assert s[i] == t[i - 1];
        }
      }
    }
  }

  /** TrimEnd drops a whitespace suffix and stops at the last other character. */
  lemma {:induction false} TrimEndShape(s: string)
    ensures var r := TrimEnd(s);
            |r| <= |s| && r == s[..|r|]
            && (r == [] || !IsWhiteSpace(r[|r| - 1]))
            && (forall i :: |r| <= i < |s| ==> IsWhiteSpace(s[i]))
  {
    if |s| > 0 && IsWhiteSpace(s[|s| - 1]) {
      var t := s[..|s| - 1];
      TrimEndShape(t);
      var r := TrimEnd(s);
      assert r == TrimEnd(t);
      assert t[..|r|] == s[..|r|];
      forall i | |r| <= i < |s|
        ensures IsWhiteSpace(s[i])
      {
        if i < |s| - 1 {
          assert s[i] == t[i];
        }
      }
    }
  }

  /** `string.Trim()`: drops leading and trailing whitespace. */
  function Trim(s: string): string
  {
    TrimEnd(TrimStart(s))
  }

  lemma TrimOfUntrimmed(s: string)
    requires s == [] || (!IsWhiteSpace(s[0]) && !IsWhiteSpace(s[|s| - 1]))
    ensures TrimStart(s) == s && TrimEnd(s) == s
  {
  }

  /** Trimming keeps a slice of the input whose ends are not whitespace, and it is empty
      exactly when the input is blank; trimming twice changes nothing. */
  lemma TrimProperties(s: string)
    ensures exists i, j :: 0 <= i <= j <= |s| && Trim(s) == s[i..j]
    ensures Trim(s) == [] || (!IsWhiteSpace(Trim(s)[0]) && !IsWhiteSpace(Trim(s)[|Trim(s)| - 1]))
    ensures Trim(s) == [] <==> IsBlank(s)
    ensures Trim(Trim(s)) == Trim(s)
  {
    var a := TrimStart(s);
    TrimStartShape(s);
    TrimEndShape(a);
    var i := |s| - |a|;
    assert Trim(s) == a[..|Trim(s)|];
    assert Trim(s) == s[i..i + |Trim(s)|];
    if Trim(s) == [] {
      assert IsBlank(s) by {
        forall k | 0 <= k < |s| ensures IsWhiteSpace(s[k]) {
        }
      }
    } else {
      assert !IsWhiteSpace(a[0]);
      assert !IsBlank(s) by { assert s[i] == a[0]; }
      assert Trim(s)[0] == a[0];
      TrimOfUntrimmed(Trim(s));
    }
  }

  predicate StartsWith(s: string, prefix: string)
  {
    |prefix| <= |s| && s[..|prefix|] == prefix
  }

  predicate StartsWithIgnoreCase(s: string, prefix: string)
  {
    |prefix| <= |s| && EqualsIgnoreCase(s[..|prefix|], prefix)
  }

  /** `string.CompareOrdinal(a, b) < 0`: lexicographic order on character codes. */
  predicate OrdinalLess(a: string, b: string)
    decreases |a|
  {
    if |a| == 0 then |b| > 0
    else if |b| == 0 then false
    else if a[0] != b[0] then a[0] < b[0]
    else OrdinalLess(a[1..], b[1..])
  }

  /** `string.CompareOrdinal(a, b) <= 0`. */
  predicate OrdinalLe(a: string, b: string)
  {
    a == b || OrdinalLess(a, b)
  }

  lemma {:induction false} OrdinalLessIrreflexive(a: string)
    ensures !OrdinalLess(a, a)
  {
    if |a| > 0 { OrdinalLessIrreflexive(a[1..]); }
  }

  lemma {:induction false} OrdinalLessTransitive(a: string, b: string, c: string)
    requires OrdinalLess(a, b) && OrdinalLess(b, c)
    ensures OrdinalLess(a, c)
    decreases |a|
  {
    if |a| > 0 && a[0] == b[0] && b[0] == c[0] {
      OrdinalLessTransitive(a[1..], b[1..], c[1..]);
    }
  }

  lemma {:induction false} OrdinalLessTotal(a: string, b: string)
    requires a != b
    ensures OrdinalLess(a, b) || OrdinalLess(b, a)
    decreases |a|
  {
    if |a| > 0 && |b| > 0 && a[0] == b[0] {
      assert a == [a[0]] + a[1..] && b == [b[0]] + b[1..];
      OrdinalLessTotal(a[1..], b[1..]);
    }
  }

  lemma OrdinalLessAsymmetric(a: string, b: string)
    requires OrdinalLess(a, b)
    ensures !OrdinalLess(b, a)
  {
    if OrdinalLess(b, a) {
      OrdinalLessTransitive(a, b, a);
      OrdinalLessIrreflexive(a);
    }
  }

  /** Strings whose first characters differ are ordered by them. */
  lemma OrdinalLessFirst(a: string, b: string)
    requires |a| > 0 && |b| > 0 && a[0] < b[0]
    ensures OrdinalLess(a, b) && !OrdinalLe(b, a)
  {
  }

  /** Ordinal comparison is a total order. */
  lemma OrdinalLeTotalOrder()
    ensures forall a, b :: OrdinalLe(a, b) || OrdinalLe(b, a)
    ensures forall a, b :: OrdinalLe(a, b) && OrdinalLe(b, a) ==> a == b
    ensures forall a, b, c :: OrdinalLe(a, b) && OrdinalLe(b, c) ==> OrdinalLe(a, c)
  {
    forall a, b ensures OrdinalLe(a, b) || OrdinalLe(b, a) {
      if a != b { OrdinalLessTotal(a, b); }
    }
    forall a, b | OrdinalLe(a, b) && OrdinalLe(b, a) ensures a == b {
      if a != b { OrdinalLessAsymmetric(a, b); }
    }
    forall a, b, c | OrdinalLe(a, b) && OrdinalLe(b, c) ensures OrdinalLe(a, c) {
      if a != b && b != c { OrdinalLessTransitive(a, b, c); }
    }
  }

  function DigitChar(d: nat): char
    requires d < 10
  {
    ('0' as int + d) as char
  }

  /** Decimal rendering of a natural number, as string interpolation prints it. */
  function NatToString(n: nat): (r: string)
    ensures |r| > 0
    ensures forall i :: 0 <= i < |r| ==> '0' <= r[i] <= '9'
    decreases n
  {
    if n < 10 then [DigitChar(n)] else NatToString(n / 10) + [DigitChar(n % 10)]
  }

  /** The value of a string of decimal digits, read left to right. */
  function DigitsValue(s: string): nat
    requires forall i :: 0 <= i < |s| ==> '0' <= s[i] <= '9'
  {
    if s == [] then 0 else DigitsValue(s[..|s| - 1]) * 10 + (s[|s| - 1] as int - '0' as int)
  }

  /** Reading back a rendered number gives the number, so different numbers render
      differently. */
  lemma {:induction false} NatToStringRoundTrip(n: nat)
    ensures DigitsValue(NatToString(n)) == n
    decreases n
  {
    if n >= 10 {
      var prefix := NatToString(n / 10);
      var s := prefix + [DigitChar(n % 10)];
      assert s[..|s| - 1] == prefix;
      NatToStringRoundTrip(n / 10);
    }
  }
}
