/**
 * The parts of Go's `strings`, `unicode` and `fmt` packages that the modelled code relies on,
 * written over `string` (a sequence of Unicode code points).
 */
module GoStrings {

  /** unicode.IsSpace: the ASCII white space characters, NEL, NBSP and the Unicode space separators. */
  predicate IsSpace(c: char) {
    c == ' ' || c == '\t' || c == '\n' || c == '\U{0B}' || c == '\U{0C}' || c == '\r'
    || c == '\U{85}' || c == '\U{A0}' || c == '\U{1680}'
    || ('\U{2000}' <= c <= '\U{200A}') || c == '\U{2028}' || c == '\U{2029}'
    || c == '\U{202F}' || c == '\U{205F}' || c == '\U{3000}'
  }

  /** Every character of `s` is white space (vacuously so for ""). */
  predicate AllSpace(s: string) {
    forall i :: 0 <= i < |s| ==> IsSpace(s[i])
  }

  /** strings.HasPrefix */
  predicate HasPrefix(s: string, prefix: string) {
    |prefix| <= |s| && s[..|prefix|] == prefix
  }

  /** strings.Join */
  function Join(parts: seq<string>, sep: string): string {
    if |parts| == 0 then ""
    else if |parts| == 1 then parts[0]
    else parts[0] + sep + Join(parts[1..], sep)
  }

  /** strings.Split with a one-character separator; the result always has at least one element. */
  function Split(s: string, sep: char): (parts: seq<string>)
    ensures |parts| >= 1
    ensures forall i :: 0 <= i < |parts| ==> sep !in parts[i]
    decreases |s|
  {
    if |s| == 0 then [""]
    else if s[0] == sep then [""] + Split(s[1..], sep)
    else
      var rest := Split(s[1..], sep);
      [[s[0]] + rest[0]] + rest[1..]
  }

  /** strings.TrimLeft with unicode.IsSpace */
  function TrimLeftSpace(s: string): (t: string)
    ensures |t| <= |s| && t == s[|s| - |t|..]
    ensures |t| > 0 ==> !IsSpace(t[0])
    ensures AllSpace(s[..|s| - |t|])
    decreases |s|
  {
    if |s| > 0 && IsSpace(s[0]) then TrimLeftSpace(s[1..]) else s
  }

  /** strings.TrimRight with unicode.IsSpace */
  function TrimRightSpace(s: string): (t: string)
    ensures |t| <= |s| && t == s[..|t|]
    ensures |t| > 0 ==> !IsSpace(t[|t| - 1])
    ensures AllSpace(s[|t|..])
    decreases |s|
  {
    if |s| > 0 && IsSpace(s[|s| - 1]) then TrimRightSpace(s[..|s| - 1]) else s
  }

  /** strings.TrimSpace */
  function TrimSpace(s: string): string {
    TrimRightSpace(TrimLeftSpace(s))
  }

  /** strings.Trim(s, cutset) for a one-character cutset. */
  function TrimChar(s: string, c: char): (t: string)
    ensures |t| <= |s|
    ensures |t| > 0 ==> t[0] != c && t[|t| - 1] != c
    ensures forall i :: 0 <= i < |t| ==> t[i] in s
    ensures (forall i :: 0 <= i < |s| ==> s[i] == c) ==> t == ""
    decreases |s|
  {
    if |s| > 0 && s[0] == c then TrimChar(s[1..], c)
    else if |s| > 0 && s[|s| - 1] == c then TrimChar(s[..|s| - 1], c)
    else s
  }

  /** The longest prefix of `s` holding no white space. */
  function Word(s: string): (w: string)
    ensures |w| <= |s| && w == s[..|w|]
    ensures forall i :: 0 <= i < |w| ==> !IsSpace(w[i])
    ensures |w| < |s| ==> IsSpace(s[|w|])
    ensures |s| > 0 && !IsSpace(s[0]) ==> |w| > 0
    decreases |s|
  {
    if |s| == 0 || IsSpace(s[0]) then "" else [s[0]] + Word(s[1..])
  }

  /** strings.Fields: the maximal runs of non-space characters, in order. */
  function Fields(s: string): seq<string>
    decreases |s|
  {
    var t := TrimLeftSpace(s);
    if |t| == 0 then [] else var w := Word(t); [w] + Fields(t[|w|..])
  }

  /** No field is empty, and no field holds white space. */
  lemma {:induction false} FieldsAreWords(s: string)
    ensures forall i :: 0 <= i < |Fields(s)| ==> |Fields(s)[i]| > 0 && !HasSpace(Fields(s)[i])
    decreases |s|
  {
    var t := TrimLeftSpace(s);
    if |t| > 0 {
      var w := Word(t);
      var rest := Fields(t[|w|..]);
      FieldsAreWords(t[|w|..]);
      assert Fields(s) == [w] + rest;
      assert |w| > 0;
      assert !HasSpace(w) by {
        forall i | 0 <= i < |w|
          ensures !IsSpace(w[i])
        {
        }
      }
      forall i | 0 <= i < |Fields(s)|
        ensures |Fields(s)[i]| > 0 && !HasSpace(Fields(s)[i])
      {
        if i > 0 {
          assert Fields(s)[i] == rest[i - 1];
        }
      }
    }
  }

  /** strings.Fields finds no field exactly when the string is all white space. */
  lemma FieldsEmpty(s: string)
    ensures |Fields(s)| == 0 <==> AllSpace(s)
  {
    var t := TrimLeftSpace(s);
    if |t| == 0 {
      assert s[..|s|] == s;
    } else {
      assert s[|s| - |t|] == t[0];
    }
  }

  /** Some character of `s` is white space. */
  predicate HasSpace(s: string) {
    exists i :: 0 <= i < |s| && IsSpace(s[i])
  }

  /** The decimal digit for 0..9. */
  function DigitChar(d: int): (c: char)
    requires 0 <= d < 10
    ensures c as int - '0' as int == d
  {
    ('0' as int + d) as char
  }

  /** fmt's %d for a non-negative value. */
  function NatToString(n: nat): (s: string)
    ensures |s| >= 1
    ensures forall i :: 0 <= i < |s| ==> '0' <= s[i] <= '9'
  {
    if n < 10 then [DigitChar(n)] else NatToString(n / 10) + [DigitChar(n % 10)]
  }

  /** fmt's %d (and strconv.Itoa): a minus sign for negative values, then the decimal digits. */
  function IntToString(n: int): string {
    if n < 0 then "-" + NatToString(-n) else NatToString(n)
  }

  /** Reads back a string of decimal digits; the inverse of NatToString. */
  function ParseDigits(s: string): int {
    if |s| == 0 then 0 else ParseDigits(s[..|s| - 1]) * 10 + (s[|s| - 1] as int - '0' as int)
  }

  lemma {:induction false} ParseNatToString(n: nat)
    ensures ParseDigits(NatToString(n)) == n
  {
    if n >= 10 {
      ParseNatToString(n / 10);
      var s := NatToString(n);
      assert s[..|s| - 1] == NatToString(n / 10);
      assert s[|s| - 1] == DigitChar(n % 10);
    }
  }

  lemma NatToStringInjective(a: nat, b: nat)
    requires NatToString(a) == NatToString(b)
    ensures a == b
  {
    ParseNatToString(a);
    ParseNatToString(b);
  }

  /** The printed form starts with '-' exactly for negative numbers. */
  lemma IntToStringSign(n: int)
    ensures |IntToString(n)| > 0 && (IntToString(n)[0] == '-' <==> n < 0)
  {
    if n >= 0 {
      assert '0' <= NatToString(n)[0];
    }
  }

  /** Distinct numbers print differently, so an id built from %d determines its number. */
  lemma IntToStringInjective(a: int, b: int)
    ensures IntToString(a) == IntToString(b) ==> a == b
  {
    IntToStringSign(a);
    IntToStringSign(b);
    if IntToString(a) == IntToString(b) {
      if a < 0 && b < 0 {
        assert NatToString(-a) == IntToString(a)[1..];
        assert NatToString(-b) == IntToString(b)[1..];
        NatToStringInjective(-a, -b);
      } else if a >= 0 && b >= 0 {
        NatToStringInjective(a, b);
      }
    }
  }

  /** Splitting a joined list at a separator no part contains gives the list back. */
  lemma {:induction false} SplitJoin(parts: seq<string>, sep: char)
    requires |parts| >= 1
    requires forall i :: 0 <= i < |parts| ==> sep !in parts[i]
    ensures Split(Join(parts, [sep]), sep) == parts
    decreases |parts|
  {
    if |parts| == 1 {
      SplitNoSep(parts[0], sep);
    } else {
      SplitJoin(parts[1..], sep);
      SplitCons(parts[0], Join(parts[1..], [sep]), sep);
      assert parts == [parts[0]] + parts[1..];
    }
  }

  lemma {:induction false} SplitNoSep(p: string, sep: char)
    requires sep !in p
    ensures Split(p, sep) == [p]
    decreases |p|
  {
    if |p| > 0 {
      SplitNoSep(p[1..], sep);
      assert [p[0]] + p[1..] == p;
    }
  }

  lemma {:induction false} SplitCons(p: string, rest: string, sep: char)
    requires sep !in p
    ensures Split(p + [sep] + rest, sep) == [p] + Split(rest, sep)
    decreases |p|
  {
    if |p| == 0 {
      assert p + [sep] + rest == [sep] + rest;
      assert ([sep] + rest)[1..] == rest;
    } else {
      var s := p + [sep] + rest;
      assert s[0] == p[0];
      assert s[1..] == p[1..] + [sep] + rest;
      SplitCons(p[1..], rest, sep);
      assert [p[0]] + p[1..] == p;
    }
  }

  /** Joining two non-empty lists is joining each and putting one separator between them. */
  lemma {:induction false} JoinAppend(a: seq<string>, b: seq<string>, sep: string)
    requires |a| > 0 && |b| > 0
    ensures Join(a + b, sep) == Join(a, sep) + sep + Join(b, sep)
    decreases |a|
  {
    if |a| > 1 {
      JoinAppend(a[1..], b, sep);
      assert (a + b)[1..] == a[1..] + b;
    }
  }

  /** Joining a part in front of at least one more part puts one separator between them. */
  lemma JoinCons(x: string, rest: seq<string>, sep: string)
    requires |rest| > 0
    ensures Join([x] + rest, sep) == x + sep + Join(rest, sep)
  {
    assert ([x] + rest)[1..] == rest;
  }

  /** A prefix of the first part is a prefix of the joined string. */
  lemma JoinConsHead(p: string, x: string, xs: seq<string>, sep: string)
    ensures Join([p + x] + xs, sep) == p + Join([x] + xs, sep)
  {
    assert ([p + x] + xs)[1..] == xs;
    assert ([x] + xs)[1..] == xs;
  }

  /** Join(xs + [""], sep) puts `sep` after every element: the "trailing empty slot" idiom. */
  function Terminated(xs: seq<string>, sep: string): string {
    if |xs| == 0 then "" else xs[0] + sep + Terminated(xs[1..], sep)
  }

  lemma {:induction false} JoinWithTrailingEmpty(xs: seq<string>, sep: string)
    ensures Join(xs + [""], sep) == Terminated(xs, sep)
    decreases |xs|
  {
    if |xs| > 0 {
      JoinWithTrailingEmpty(xs[1..], sep);
      assert (xs + [""])[1..] == xs[1..] + [""];
    }
  }

  /** TrimSpace leaves no white space at either end. */
  lemma TrimSpaceEnds(s: string)
    ensures |TrimSpace(s)| > 0 ==> !IsSpace(TrimSpace(s)[0]) && !IsSpace(TrimSpace(s)[|TrimSpace(s)| - 1])
  {
    var l := TrimLeftSpace(s);
    var t := TrimRightSpace(l);
    if |t| > 0 {
      assert t[0] == l[0];
    }
  }

  /** TrimSpace(s) is empty exactly when s holds nothing but white space. */
  lemma TrimSpaceEmpty(s: string)
    ensures TrimSpace(s) == "" <==> AllSpace(s)
  {
    var l := TrimLeftSpace(s);
    var t := TrimRightSpace(l);
    if t == "" {
      assert l[|t|..] == l;
      assert |l| == 0;
      assert s[..|s| - |l|] == s;
    } else {
      assert !IsSpace(t[0]);
      assert l[0] == t[0];
      assert s[|s| - |l|] == l[0];
    }
  }

  /** strings.Trim(s, " ") is non-empty exactly when s holds a character other than ' '. */
  lemma TrimCharNonEmpty(s: string, c: char)
    ensures |TrimChar(s, c)| != 0 <==> exists i :: 0 <= i < |s| && s[i] != c
  {
    var t := TrimChar(s, c);
    if |t| != 0 {
      assert t[0] in s;
    } else if exists i :: 0 <= i < |s| && s[i] != c {
      TrimCharKeepsOther(s, c);
    }
  }

  lemma {:induction false} TrimCharKeepsOther(s: string, c: char)
    requires exists i :: 0 <= i < |s| && s[i] != c
    ensures |TrimChar(s, c)| != 0
    decreases |s|
  {
    var i :| 0 <= i < |s| && s[i] != c;
    if s[0] == c {
      assert s[1..][i - 1] == s[i];
      TrimCharKeepsOther(s[1..], c);
    } else if s[|s| - 1] == c {
      assert s[..|s| - 1][i] == s[i];
      TrimCharKeepsOther(s[..|s| - 1], c);
    }
  }
}
