/** The few Python string operations the roadmap generator relies on. */
module Strings {

  /** Python's `str.isspace`: the characters `str.strip()` removes. */
  predicate IsSpace(c: char)
  {
    || ('\t' <= c <= '\r')
    || ('\U{1C}' <= c <= ' ')
    || c == '\U{85}' || c == '\U{A0}' || c == '\U{1680}'
    || ('\U{2000}' <= c <= '\U{200A}')
    || c == '\U{2028}' || c == '\U{2029}' || c == '\U{202F}' || c == '\U{205F}' || c == '\U{3000}'
  }

  /** `s.rstrip(c)`: drop every trailing `c`. */
  function RStrip(s: string, c: char): (r: string)
    ensures r <= s
    ensures r == [] || r[|r| - 1] != c
    ensures forall i :: |r| <= i < |s| ==> s[i] == c
  {
    if s == [] || s[|s| - 1] != c then s else RStrip(s[..|s| - 1], c)
  }

  /** Trailing half of `s.strip()`. */
  function RStripSpace(s: string): (r: string)
    ensures r <= s
    ensures r == [] || !IsSpace(r[|r| - 1])
    ensures forall i :: |r| <= i < |s| ==> IsSpace(s[i])
  {
    if s == [] || !IsSpace(s[|s| - 1]) then s else RStripSpace(s[..|s| - 1])
  }

  /** Leading half of `s.strip()`. */
  function LStripSpace(s: string): (r: string)
    ensures |r| <= |s| && r == s[|s| - |r|..]
    ensures r == [] || !IsSpace(r[0])
    ensures forall i :: 0 <= i < |s| - |r| ==> IsSpace(s[i])
  {
    if s == [] || !IsSpace(s[0]) then s else LStripSpace(s[1..])
  }

  /** `s.strip()`: drop leading and trailing whitespace. */
  function Strip(s: string): string
  {
    LStripSpace(RStripSpace(s))
  }

  /** `s.split(sep)[-1]`: the text after the last `sep`, or all of `s` when there is none. */
  function LastSegment(s: string, sep: char): (r: string)
    ensures sep !in r
    ensures |r| <= |s| && r == s[|s| - |r|..]
    ensures |r| == |s| || s[|s| - |r| - 1] == sep
  {
    if s == [] || s[|s| - 1] == sep then [] else LastSegment(s[..|s| - 1], sep) + [s[|s| - 1]]
  }

  /** `sub in s` for strings. */
  predicate Contains(s: string, sub: string)
    decreases |s|
  {
    sub <= s || (s != [] && Contains(s[1..], sub))
  }

  /** `sep.join(items)`. */
  function Join(items: seq<string>, sep: string): string
    decreases |items|
  {
    if items == [] then "" else if |items| == 1 then items[0] else items[0] + sep + Join(items[1..], sep)
  }

  /** The concatenation of all `items`, as a loop of `+=` builds it. */
  function Concat(items: seq<string>): string
    decreases |items|
  {
    if items == [] then "" else Concat(items[..|items| - 1]) + items[|items| - 1]
  }

  function DigitChar(d: nat): char
    requires d < 10
  {
    "0123456789"[d]
  }

  function NatToString(n: nat): string
  {
    if n < 10 then [DigitChar(n)] else NatToString(n / 10) + [DigitChar(n % 10)]
  }

  /** `str(i)` for an `int`. */
  function IntToString(i: int): string
  {
    if i < 0 then "-" + NatToString(-i) else NatToString(i)
  }

  /** Once `s` has a character other than `c`, stripping `c` leaves a non-empty string. */
  lemma {:induction false} RStripKeepsOther(s: string, c: char, k: nat)
    requires k < |s| && s[k] != c
    ensures k < |RStrip(s, c)|
  {
  }

  /** A string containing `sub` contains every character of `sub`. */
  lemma {:induction false} ContainsChar(s: string, sub: string, k: nat)
    requires Contains(s, sub) && k < |sub|
    ensures exists i :: 0 <= i < |s| && s[i] == sub[k]
    decreases |s|
  {
    if sub <= s {
      assert s[k] == sub[k];
    } else {
      ContainsChar(s[1..], sub, k);
      var i :| 0 <= i < |s[1..]| && s[1..][i] == sub[k];
      assert s[i + 1] == sub[k];
    }
  }

  /** What occurs in `s` still occurs once text is put in front. */
  lemma {:induction false} ContainsAfter(a: string, s: string, sub: string)
    requires Contains(s, sub)
    ensures Contains(a + s, sub)
    decreases |a|
  {
    if a != [] {
      assert (a + s)[1..] == a[1..] + s;
      ContainsAfter(a[1..], s, sub);
    } else {
      assert a + s == s;
    }
  }

  /** What occurs in `s` still occurs once text is put after it. */
  lemma {:induction false} ContainsBefore(s: string, b: string, sub: string)
    requires Contains(s, sub)
    ensures Contains(s + b, sub)
    decreases |s|
  {
    if !(sub <= s) {
      assert (s + b)[1..] == s[1..] + b;
      ContainsBefore(s[1..], b, sub);
    }
  }

  /** The middle piece of a concatenation occurs in it. */
  lemma ContainsInfix(a: string, b: string, c: string)
    ensures Contains(a + b + c, b)
  {
    assert b <= b + c;
    ContainsAfter(a, b + c, b);
    assert a + (b + c) == a + b + c;
  }

  /** Every item of a join occurs in the joined string. */
  lemma {:induction false} JoinContains(items: seq<string>, sep: string, k: nat)
    requires k < |items|
    ensures Contains(Join(items, sep), items[k])
    decreases |items|
  {
    if |items| == 1 {
      assert items[k] <= Join(items, sep);
    } else if k == 0 {
      ContainsInfix([], items[0], sep + Join(items[1..], sep));
      assert [] + items[0] + (sep + Join(items[1..], sep)) == Join(items, sep);
    } else {
      JoinContains(items[1..], sep, k - 1);
      ContainsAfter(items[0] + sep, Join(items[1..], sep), items[k]);
    }
  }

  /** Appending a piece extends a concatenation by that piece. */
  lemma ConcatSnoc(items: seq<string>, x: string)
    ensures Concat(items + [x]) == Concat(items) + x
  {
  }

  /** `n` copies of `c`. */
  function Repeat(c: char, n: nat): (r: string)
    ensures |r| == n && forall i :: 0 <= i < n ==> r[i] == c
  {
    seq(n, _ => c)
  }

  /** Stripping trailing `c`s ignores any run of `c`s appended first. */
  lemma {:induction false} RStripAppended(s: string, c: char, n: nat)
    ensures RStrip(s + Repeat(c, n), c) == RStrip(s, c)
  {
    if n > 0 {
      assert (s + Repeat(c, n))[..|s| + n - 1] == s + Repeat(c, n - 1);
      RStripAppended(s, c, n - 1);
    } else {
      assert s + Repeat(c, n) == s;
    }
  }

  /** Trailing whitespace is dropped and what ends in a non-space is kept. */
  lemma {:induction false} RStripSpaceAppended(s: string, w: string)
    requires s != [] && !IsSpace(s[|s| - 1])
    requires forall i :: 0 <= i < |w| ==> IsSpace(w[i])
    ensures RStripSpace(s + w) == s
  {
    if w != [] {
      assert (s + w)[..|s + w| - 1] == s + w[..|w| - 1];
      RStripSpaceAppended(s, w[..|w| - 1]);
    } else {
      assert s + w == s;
    }
  }

  /** Leading whitespace is dropped up to the first non-space, which may lie in `b`. */
  lemma {:induction false} LStripSpaceAppended(a: string, b: string)
    requires b != [] && !IsSpace(b[0])
    ensures LStripSpace(a + b) == LStripSpace(a) + b
  {
    if a != [] {
      assert (a + b)[1..] == a[1..] + b;
      LStripSpaceAppended(a[1..], b);
    } else {
      assert a + b == b;
    }
  }

  /** The last segment of `prefix + [sep] + name` is `name` when `name` has no `sep`. */
  lemma {:induction false} LastSegmentAfter(prefix: string, sep: char, name: string)
    requires sep !in name
    ensures LastSegment(prefix + [sep] + name, sep) == name
  {
    var s := prefix + [sep] + name;
    if name != [] {
      assert s[..|s| - 1] == prefix + [sep] + name[..|name| - 1];
      LastSegmentAfter(prefix, sep, name[..|name| - 1]);
      assert name == name[..|name| - 1] + [name[|name| - 1]];
    } else {
      assert s == prefix + [sep];
    }
  }

  lemma AppendAssoc(a: string, b: string, c: string)
    ensures (a + b) + c == a + (b + c)
  {
  }

  /** One step of a `+=` loop over `items`: the next piece extends the prefix's concatenation. */
  lemma ConcatPrefixStep(head: string, items: seq<string>, i: nat)
    requires i < |items|
    ensures head + Concat(items[..i + 1]) == (head + Concat(items[..i])) + items[i]
  {
    assert items[..i + 1] == items[..i] + [items[i]];
    ConcatSnoc(items[..i], items[i]);
    AppendAssoc(head, Concat(items[..i]), items[i]);
  }
}
