/** Python's string helpers as the backend uses them: `str.strip()`, `str.lower()`,
    `", ".join(...)`, `str(int)` and the zero-padded fields of `str(date)`. Each comes
    with the inverse or characterisation that says what its result means. */
module Text {

  /** `c.isspace()` in Python 3: ASCII whitespace, the separators 0x1C-0x1F, and the
      Unicode space characters. */
  predicate IsSpace(c: char)
  {
    var n := c as int;
    (9 <= n <= 13) || (0x1C <= n <= 0x20) || n == 0x85 || n == 0xA0 || n == 0x1680
    || (0x2000 <= n <= 0x200A) || n == 0x2028 || n == 0x2029 || n == 0x202F
    || n == 0x205F || n == 0x3000
  }

  /** Drops leading whitespace: the result is the suffix of `s` that starts at its
      first non-space character. */
  function StripLeft(s: string): (r: string)
    ensures |r| <= |s| && r == s[|s| - |r|..]
    ensures forall k :: 0 <= k < |s| - |r| ==> IsSpace(s[k])
    ensures r == [] || !IsSpace(r[0])
  {
    if s != [] && IsSpace(s[0]) then StripLeft(s[1..]) else s
  }

  /** Drops trailing whitespace: the result is the prefix of `s` that ends at its
      last non-space character. */
  function StripRight(s: string): (r: string)
    ensures |r| <= |s| && r == s[..|r|]
    ensures forall k :: |r| <= k < |s| ==> IsSpace(s[k])
    ensures r == [] || !IsSpace(r[|r| - 1])
  {
    if s != [] && IsSpace(s[|s| - 1]) then StripRight(s[..|s| - 1]) else s
  }

  /** `s.strip()` */
  function Strip(s: string): string
  {
    StripRight(StripLeft(s))
  }

  /** True of a string that `strip()` leaves as it is. */
  predicate Trimmed(t: string)
  {
    t == [] || (!IsSpace(t[0]) && !IsSpace(t[|t| - 1]))
  }

  lemma StripTrimmed(s: string)
    ensures Trimmed(Strip(s))
  {
    var l := StripLeft(s);
    var r := StripRight(l);
    if r != [] {
      assert r[0] == l[0];
    }
  }

  lemma TrimmedIsFixed(t: string)
    requires Trimmed(t)
    ensures Strip(t) == t
  {
  }

  /** A leading blank never survives `strip()`. */
  lemma StripLeadingBlank(s: string)
    ensures Strip(" " + s) == Strip(s)
  {
    assert (" " + s)[1..] == s;
  }

  /** `str.lower()` restricted to ASCII: A-Z become a-z, every other character stays. */
  function LowerChar(c: char): (d: char)
    ensures IsSpace(d) == IsSpace(c)
    ensures 'A' <= c <= 'Z' ==> d as int == c as int + 32
    ensures !('A' <= c <= 'Z') ==> d == c
  {
    if 'A' <= c <= 'Z' then (c as int + 32) as char else c
  }

  function Lower(s: string): (r: string)
  {
    seq(|s|, i requires 0 <= i < |s| => LowerChar(s[i]))
  }

  /** The normal form two answers are compared in: `s.strip().lower()`. */
  function Normalize(s: string): string
  {
    Lower(Strip(s))
  }

  /** Lowering keeps a trimmed string trimmed. */
  lemma LowerKeepsTrimmed(t: string)
    requires Trimmed(t)
    ensures Trimmed(Lower(t))
  {
    if t != [] {
      var n := Lower(t);
      assert n[0] == LowerChar(t[0]);
      assert n[|n| - 1] == LowerChar(t[|t| - 1]);
    }
  }

  /** Lowering leaves no upper-case ASCII letter. */
  lemma LowerHasNoUpper(t: string)
    ensures forall i :: 0 <= i < |Lower(t)| ==> !('A' <= Lower(t)[i] <= 'Z')
  {
  }

  /** The normal form has no upper-case ASCII letter and no surrounding whitespace. */
  lemma NormalizeShape(s: string)
    ensures Trimmed(Normalize(s))
    ensures forall i :: 0 <= i < |Normalize(s)| ==> !('A' <= Normalize(s)[i] <= 'Z')
  {
    StripTrimmed(s);
    LowerKeepsTrimmed(Strip(s));
    LowerHasNoUpper(Strip(s));
  }

  /** Normalising twice is normalising once, so comparing normal forms is an
      equivalence that re-evaluation cannot change. */
  lemma NormalizeIdempotent(s: string)
    ensures Normalize(Normalize(s)) == Normalize(s)
  {
    var n := Normalize(s);
    NormalizeShape(s);
    TrimmedIsFixed(n);
    assert Lower(n) == n;
  }

  /** `sep.join(xs)` */
  function Join(xs: seq<string>, sep: string): string
  {
    if |xs| == 0 then "" else if |xs| == 1 then xs[0] else xs[0] + sep + Join(xs[1..], sep)
  }

  /** `s.split(c)`: the pieces between occurrences of `c`, always at least one. */
  function SplitOn(s: string, c: char): (r: seq<string>)
    ensures |r| >= 1
  {
    if s == [] then [""]
    else
      var rest := SplitOn(s[1..], c);
      if s[0] == c then [""] + rest else [[s[0]] + rest[0]] + rest[1..]
  }

  lemma {:induction false} SplitWithout(x: string, c: char)
    requires c !in x
    ensures SplitOn(x, c) == [x]
  {
    if x != [] {
      SplitWithout(x[1..], c);
      assert [x[0]] + x[1..] == x;
    }
  }

  lemma {:induction false} SplitAtFirst(x: string, c: char, y: string)
    requires c !in x
    ensures SplitOn(x + [c] + y, c) == [x] + SplitOn(y, c)
  {
    if x == [] {
      assert x + [c] + y == [c] + y;
      assert ([c] + y)[1..] == y;
    } else {
      SplitAtFirst(x[1..], c, y);
      assert (x + [c] + y)[1..] == x[1..] + [c] + y;
      assert [x[0]] + x[1..] == x;
    }
  }

  /** Reads a comma-separated list back: split at every comma, then strip each piece. */
  function ParseList(s: string): seq<string>
  {
    StripAll(SplitOn(s, ','))
  }

  function StripAll(parts: seq<string>): (r: seq<string>)
    ensures |r| == |parts|
  {
    if parts == [] then [] else [Strip(parts[0])] + StripAll(parts[1..])
  }

  lemma StripAllCons(a: string, rest: seq<string>)
    ensures StripAll([a] + rest) == [Strip(a)] + StripAll(rest)
  {
    assert ([a] + rest)[1..] == rest;
  }

  lemma ParseListLeadingBlank(s: string)
    ensures ParseList(" " + s) == ParseList(s)
  {
    assert (" " + s)[1..] == s;
    var p := SplitOn(s, ',');
    calc {
      ParseList(" " + s);
      StripAll(SplitOn(" " + s, ','));
      StripAll([" " + p[0]] + p[1..]);
      { StripAllCons(" " + p[0], p[1..]); }
      [Strip(" " + p[0])] + StripAll(p[1..]);
      { StripLeadingBlank(p[0]); }
      [Strip(p[0])] + StripAll(p[1..]);
      { StripAllCons(p[0], p[1..]); }
      StripAll([p[0]] + p[1..]);
      { assert [p[0]] + p[1..] == p; }
      ParseList(s);
    }
  }

  /** `", ".join(xs)` loses nothing and keeps the order, as long as no item contains a
      comma or surrounding whitespace: reading the list back gives `xs` again. */
  lemma JoinUnfold(xs: seq<string>)
    requires |xs| >= 2
    ensures Join(xs, ", ") == xs[0] + [','] + (" " + Join(xs[1..], ", "))
  {
    CommaRegroup(xs[0], Join(xs[1..], ", "));
  }

  lemma CommaRegroup(a: string, rest: string)
    ensures a + ", " + rest == a + [','] + (" " + rest)
  {
    var l, r := a + ", " + rest, a + [','] + (" " + rest);
    assert |l| == |r|;
    forall i | 0 <= i < |l| ensures l[i] == r[i] {
      if i < |a| {
      } else if i == |a| {
      } else if i == |a| + 1 {
      } else {
        assert l[i] == rest[i - |a| - 2];
      }
    }
  }

  /** One step of reading a list back: the first item, then the rest. */
  lemma ParseListCons(a: string, rest: string)
    requires ',' !in a && Trimmed(a)
    ensures ParseList(a + [','] + (" " + rest)) == [a] + ParseList(rest)
  {
    TrimmedIsFixed(a);
    SplitAtFirst(a, ',', " " + rest);
    StripAllCons(a, SplitOn(" " + rest, ','));
    ParseListLeadingBlank(rest);
  }

  /** An item that survives a trip through a comma-separated list. */
  predicate PlainItem(x: string)
  {
    ',' !in x && Trimmed(x)
  }

  lemma {:induction false} JoinRoundTrip(xs: seq<string>)
    requires |xs| >= 1
    requires forall i :: 0 <= i < |xs| ==> PlainItem(xs[i])
    ensures ParseList(Join(xs, ", ")) == xs
  {
    var a := xs[0];
    assert PlainItem(a);
    if |xs| == 1 {
      SplitWithout(a, ',');
      TrimmedIsFixed(a);
    } else {
      var tail := xs[1..];
      assert forall i :: 0 <= i < |tail| ==> PlainItem(tail[i]) by {
        forall i | 0 <= i < |tail| ensures PlainItem(tail[i]) {
          assert tail[i] == xs[i + 1];
        }
      }
      JoinRoundTrip(tail);
      JoinUnfold(xs);
      ParseListCons(a, Join(tail, ", "));
      assert [a] + tail == xs;
    }
  }

  predicate IsDigit(c: char)
  {
    '0' <= c <= '9'
  }

  predicate AllDigits(s: string)
  {
    forall i :: 0 <= i < |s| ==> IsDigit(s[i])
  }

  function DigitChar(d: nat): (c: char)
    requires d < 10
    ensures IsDigit(c) && c as int - '0' as int == d
  {
    (d + '0' as int) as char
  }

  /** `str(n)` for a non-negative integer: decimal digits, no leading zero. */
  function NatToString(n: nat): (s: string)
    ensures |s| >= 1 && AllDigits(s)
    ensures s[0] == '0' ==> n == 0
  {
    if n < 10 then [DigitChar(n)] else NatToString(n / 10) + [DigitChar(n % 10)]
  }

  /** `str(i)` for any integer. */
  function IntToString(i: int): (s: string)
    ensures |s| >= 1
    ensures (s[0] == '-') <==> i < 0
  {
    if i < 0 then "-" + NatToString(-i) else NatToString(i)
  }

  /** The value of a string of decimal digits; the inverse of the renderings above. */
  function ParseDigits(s: string): nat
    requires AllDigits(s)
  {
    if s == [] then 0 else ParseDigits(s[..|s| - 1]) * 10 + (s[|s| - 1] as int - '0' as int)
  }

  lemma {:induction false} NatToStringRoundTrip(n: nat)
    ensures ParseDigits(NatToString(n)) == n
  {
    if n >= 10 {
      NatToStringRoundTrip(n / 10);
      var s := NatToString(n);
      assert s[..|s| - 1] == NatToString(n / 10);
    }
  }

  /** Reads `str(i)` back. */
  function ParseInt(s: string): int
    requires |s| >= 1
    requires AllDigits(if s[0] == '-' then s[1..] else s)
  {
    if s[0] == '-' then 0 - ParseDigits(s[1..]) else ParseDigits(s)
  }

  lemma IntToStringRoundTrip(i: int)
    ensures AllDigits(if IntToString(i)[0] == '-' then IntToString(i)[1..] else IntToString(i))
    ensures ParseInt(IntToString(i)) == i
  {
    if i < 0 {
      NatToStringRoundTrip(-i);
      assert IntToString(i)[1..] == NatToString(-i);
    } else {
      NatToStringRoundTrip(i);
    }
  }

  /** The shape `int(s)` reads: decimal digits with an optional leading minus. */
  predicate IsIntLiteral(s: string)
  {
    |s| >= 1 && if s[0] == '-' then |s| >= 2 && AllDigits(s[1..]) else AllDigits(s)
  }

  function Pow10(w: nat): (p: nat)
    ensures p >= 1
  {
    if w == 0 then 1 else 10 * Pow10(w - 1)
  }

  /** `"%0*d" % (w, n)`: exactly `w` digits, zero-padded on the left. */
  function FixedDigits(n: nat, w: nat): (s: string)
    ensures |s| == w && AllDigits(s)
  {
    if w == 0 then [] else FixedDigits(n / 10, w - 1) + [DigitChar(n % 10)]
  }

  lemma {:induction false} FixedDigitsRoundTrip(n: nat, w: nat)
    requires n < Pow10(w)
    ensures ParseDigits(FixedDigits(n, w)) == n
  {
    if w > 0 {
      assert n / 10 < Pow10(w - 1);
      FixedDigitsRoundTrip(n / 10, w - 1);
      var s := FixedDigits(n, w);
      assert s[..|s| - 1] == FixedDigits(n / 10, w - 1);
    }
  }

  /** A zero-padded field is read back as exactly the digits it was rendered from. */
  lemma {:induction false} DigitsFixedRoundTrip(s: string)
    requires AllDigits(s)
    ensures FixedDigits(ParseDigits(s), |s|) == s
  {
    if s != [] {
      var p := s[..|s| - 1];
      var d := s[|s| - 1] as int - '0' as int;
      DigitsFixedRoundTrip(p);
      assert ParseDigits(s) / 10 == ParseDigits(p) && ParseDigits(s) % 10 == d;
      assert s == p + [s[|s| - 1]];
    }
  }
}
