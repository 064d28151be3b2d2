/** The java.lang.String operations the backend relies on, restricted to the
    behaviour they have on the characters the model uses: ASCII case mapping,
    substring search, trimming, replacement and decimal formatting. */
module Text {

  // ---------------------------------------------------------------------------
  // Case mapping (ASCII letters only)
  // ---------------------------------------------------------------------------

  predicate IsUpper(c: char) { 'A' <= c <= 'Z' }

  predicate IsLower(c: char) { 'a' <= c <= 'z' }

  function LowerChar(c: char): char
  {
    if IsUpper(c) then (c as int + 32) as char else c
  }

  function UpperChar(c: char): char
  {
    if IsLower(c) then (c as int - 32) as char else c
  }

  /** String.toLowerCase: every letter is mapped, nothing else changes. */
  function ToLower(s: string): (r: string)
    ensures |r| == |s|
    ensures forall i :: 0 <= i < |s| ==> r[i] == LowerChar(s[i])
  {
    seq(|s|, i requires 0 <= i < |s| => LowerChar(s[i]))
  }

  /** String.toUpperCase. */
  function ToUpper(s: string): (r: string)
    ensures |r| == |s|
    ensures forall i :: 0 <= i < |s| ==> r[i] == UpperChar(s[i])
  {
    seq(|s|, i requires 0 <= i < |s| => UpperChar(s[i]))
  }

  /** Lower-casing and upper-casing identify the same strings: two strings
      agree after toUpperCase exactly when they agree after toLowerCase. */
  lemma {:induction false} UpperEqualIffLowerEqual(a: string, b: string)
    ensures ToUpper(a) == ToUpper(b) <==> ToLower(a) == ToLower(b)
  {
    if ToUpper(a) == ToUpper(b) {
      assert |a| == |b|;
      forall i | 0 <= i < |a| ensures ToLower(a)[i] == ToLower(b)[i] {
        assert UpperChar(a[i]) == UpperChar(b[i]);
      }
    }
    if ToLower(a) == ToLower(b) {
      assert |a| == |b|;
      forall i | 0 <= i < |a| ensures ToUpper(a)[i] == ToUpper(b)[i] {
        assert LowerChar(a[i]) == LowerChar(b[i]);
      }
    }
  }

  // ---------------------------------------------------------------------------
  // Substring search
  // ---------------------------------------------------------------------------

  predicate StartsWith(s: string, prefix: string)
  {
    |prefix| <= |s| && s[..|prefix|] == prefix
  }

  /** sub occurs in s starting at position i. */
  predicate OccursAt(s: string, sub: string, i: int)
  {
    0 <= i && i + |sub| <= |s| && s[i..i + |sub|] == sub
  }

  /** String.contains, written as a scan over the start positions. */
  predicate Contains(s: string, sub: string)
    decreases |s|
  {
    StartsWith(s, sub) || (|s| > 0 && Contains(s[1..], sub))
  }

  /** The scan finds sub exactly when sub occurs at some position of s. */
  lemma {:induction false} ContainsIffOccurs(s: string, sub: string)
    ensures Contains(s, sub) <==> exists i :: OccursAt(s, sub, i)
    decreases |s|
  {
    if StartsWith(s, sub) {
      assert OccursAt(s, sub, 0);
    } else if |s| == 0 {
    } else {
      ContainsIffOccurs(s[1..], sub);
      if Contains(s[1..], sub) {
        var j :| OccursAt(s[1..], sub, j);
        assert s[j + 1..j + 1 + |sub|] == s[1..][j..j + |sub|];
        assert OccursAt(s, sub, j + 1);
      }
      if i :| OccursAt(s, sub, i) {
        assert i != 0;
        assert s[1..][i - 1..i - 1 + |sub|] == s[i..i + |sub|];
        assert OccursAt(s[1..], sub, i - 1);
      }
    }
  }

  /** The empty string occurs in every string. */
  lemma ContainsEmpty(s: string)
    ensures Contains(s, [])
  {
    assert StartsWith(s, []);
  }

  /** SQL `LOWER(value) LIKE LOWER(CONCAT('%', search, '%'))`: a
      case-insensitive substring test. */
  predicate LikeContains(value: string, search: string)
  {
    Contains(ToLower(value), ToLower(search))
  }

  /** String.lastIndexOf for a one-character needle: -1 or the last position. */
  function LastIndexOf(s: string, c: char): (r: int)
    ensures -1 <= r < |s|
    ensures r == -1 <==> c !in s
    ensures 0 <= r ==> s[r] == c && forall j :: r < j < |s| ==> s[j] != c
    decreases |s|
  {
    if |s| == 0 then -1
    else if s[|s| - 1] == c then |s| - 1
    else
      assert forall x :: x in s ==> x in s[..|s| - 1] || x == s[|s| - 1];
      LastIndexOf(s[..|s| - 1], c)
  }

  // ---------------------------------------------------------------------------
  // Trimming and blankness
  // ---------------------------------------------------------------------------

  /** String.trim removes every leading and trailing character whose code is
      at most U+0020. */
  predicate Trimmable(c: char) { c <= ' ' }

  function TrimStart(s: string): (r: string)
    ensures |r| <= |s| && r == s[|s| - |r|..]
    ensures r == [] || !Trimmable(r[0])
    ensures forall i :: 0 <= i < |s| - |r| ==> Trimmable(s[i])
    decreases |s|
  {
    if |s| > 0 && Trimmable(s[0]) then TrimStart(s[1..]) else s
  }

  function TrimEnd(s: string): (r: string)
    ensures |r| <= |s| && r == s[..|r|]
    ensures r == [] || !Trimmable(r[|r| - 1])
    ensures forall i :: |r| <= i < |s| ==> Trimmable(s[i])
    decreases |s|
  {
    if |s| > 0 && Trimmable(s[|s| - 1]) then TrimEnd(s[..|s| - 1]) else s
  }

  function Trim(s: string): string
  {
    TrimEnd(TrimStart(s))
  }

  /** A trimmed string is a slice of the input that neither starts nor ends
      with a trimmable character, and it is empty exactly when every
      character of the input is trimmable. */
  lemma TrimSpec(s: string)
    ensures exists i :: OccursAt(s, Trim(s), i)
    ensures Trim(s) == [] || (!Trimmable(Trim(s)[0]) && !Trimmable(Trim(s)[|Trim(s)| - 1]))
    ensures Trim(s) == [] <==> forall i :: 0 <= i < |s| ==> Trimmable(s[i])
  {
    var t := TrimStart(s);
    var k := |s| - |t|;
    assert OccursAt(s, Trim(s), k);
    if Trim(s) == [] {
      assert t == [];
    }
  }

  lemma {:induction false} TrimStartPadRight(s: string)
    ensures TrimStart(s + " ") == if TrimStart(s) == [] then [] else TrimStart(s) + " "
    decreases |s|
  {
    if s == [] {
      assert (s + " ")[1..] == [];
    } else if Trimmable(s[0]) {
      assert (s + " ")[1..] == s[1..] + " ";
      TrimStartPadRight(s[1..]);
    } else {
      assert (s + " ")[0] == s[0];
    }
  }

  /** One blank on either side does not change what Trim gives. */
  lemma TrimPadded(s: string)
    ensures Trim(" " + s + " ") == Trim(s)
  {
    var p := " " + s + " ";
    assert p[1..] == s + " ";
    assert TrimStart(p) == TrimStart(s + " ");
    TrimStartPadRight(s);
    var t := TrimStart(s);
    if t != [] {
      assert (t + " ")[..|t|] == t;
    }
  }

  // ---------------------------------------------------------------------------
  // Replacement
  // ---------------------------------------------------------------------------

  /** String.replace(target, ""): scanning left to right, every occurrence of
      target that does not overlap an earlier removed one is dropped. */
  function RemoveAll(s: string, target: string): string
    requires |target| > 0
    decreases |s|
  {
    if StartsWith(s, target) then RemoveAll(s[|target|..], target)
    else if |s| == 0 then []
    else [s[0]] + RemoveAll(s[1..], target)
  }

  /** A string without an occurrence of target is left as it is. */
  lemma {:induction false} RemoveAllAbsent(s: string, target: string)
    requires |target| > 0
    requires !Contains(s, target)
    ensures RemoveAll(s, target) == s
    decreases |s|
  {
    if |s| > 0 {
      RemoveAllAbsent(s[1..], target);
      assert [s[0]] + s[1..] == s;
    }
  }

  /** Removing a leading copy of target is the same as removing it from the
      rest. */
  lemma RemoveAllPrefix(target: string, rest: string)
    requires |target| > 0
    ensures RemoveAll(target + rest, target) == RemoveAll(rest, target)
  {
    assert StartsWith(target + rest, target);
    assert (target + rest)[|target|..] == rest;
  }

  // ---------------------------------------------------------------------------
  // Length
  // ---------------------------------------------------------------------------

  /** A character outside the Basic Multilingual Plane, which UTF-16 stores
      as a surrogate pair. */
  predicate Astral(c: char) { c as int >= 0x10000 }

  /** String.length: the number of UTF-16 code units, two for an astral
      character and one for any other. */
  function Utf16Length(s: string): (n: nat)
    ensures |s| <= n <= 2 * |s|
    ensures n == |s| <==> forall i :: 0 <= i < |s| ==> !Astral(s[i])
    decreases |s|
  {
    if s == [] then 0
    else
      var init := s[..|s| - 1];
      assert forall i :: 0 <= i < |init| ==> init[i] == s[i];
      Utf16Length(init) + (if Astral(s[|s| - 1]) then 2 else 1)
  }

  /** Three emoji are six UTF-16 units; six Latin letters are six too. */
  lemma Utf16LengthExamples()
    ensures Utf16Length("\U{1F600}\U{1F600}\U{1F600}") == 6 && |"\U{1F600}\U{1F600}\U{1F600}"| == 3
    ensures Utf16Length("abcdef") == 6
  {
    var e := "\U{1F600}\U{1F600}\U{1F600}";
    assert e[..2][..1] == "\U{1F600}";
    assert e[..2] == "\U{1F600}\U{1F600}";
    assert e[..2][..1][..0] == [];
  }

  // ---------------------------------------------------------------------------
  // Decimal numbers
  // ---------------------------------------------------------------------------

  predicate IsDigit(c: char) { '0' <= c <= '9' }

  predicate AllDigits(s: string)
  {
    forall i :: 0 <= i < |s| ==> IsDigit(s[i])
  }

  function DigitChar(d: nat): (c: char)
    requires d < 10
    ensures IsDigit(c) && c as int - '0' as int == d
  {
    ('0' as int + d) as char
  }

  /** The number a string of decimal digits denotes (Integer.parseInt on
      digits only). */
  function DigitsValue(s: string): nat
    requires AllDigits(s)
    decreases |s|
  {
    if s == [] then 0 else DigitsValue(s[..|s| - 1]) * 10 + (s[|s| - 1] as int - '0' as int)
  }

  /** Long.toString / Integer.toString of a non-negative number. */
  function NatToString(n: nat): (r: string)
    ensures |r| > 0 && AllDigits(r)
    ensures |r| > 1 ==> r[0] != '0'
    decreases n
  {
    if n < 10 then [DigitChar(n)] else NatToString(n / 10) + [DigitChar(n % 10)]
  }

  /** Reading back the decimal text of n gives n. */
  lemma {:induction false} NatToStringRoundTrip(n: nat)
    ensures DigitsValue(NatToString(n)) == n
    decreases n
  {
    if n >= 10 {
      NatToStringRoundTrip(n / 10);
      var s := NatToString(n);
      assert s[..|s| - 1] == NatToString(n / 10);
    }
  }

  /** Distinct numbers have distinct decimal texts. */
  lemma NatToStringInjective(m: nat, n: nat)
    requires NatToString(m) == NatToString(n)
    ensures m == n
  {
    NatToStringRoundTrip(m);
    NatToStringRoundTrip(n);
  }

  /** String.format("%03d", n) for 0 <= n <= 999. */
  function Pad3(n: nat): (r: string)
    requires n < 1000
    ensures |r| == 3 && AllDigits(r)
  {
    [DigitChar(n / 100), DigitChar(n / 10 % 10), DigitChar(n % 10)]
  }

  /** The three zero-padded digits read back as n. */
  lemma Pad3RoundTrip(n: nat)
    requires n < 1000
    ensures DigitsValue(Pad3(n)) == n
  {
    var r := Pad3(n);
    assert r[..2][..1] == [DigitChar(n / 100)];
    assert r[..2] == [DigitChar(n / 100), DigitChar(n / 10 % 10)];
    assert DigitsValue(r[..2][..1]) == n / 100;
    assert DigitsValue(r[..2]) == n / 100 * 10 + n / 10 % 10;
    assert DigitsValue(r) == (n / 100 * 10 + n / 10 % 10) * 10 + n % 10;
  }
}
