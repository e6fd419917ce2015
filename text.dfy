/**
 * The handful of Python `str` operations the gateway, the agent and the clients use:
 * `find`, `split(sep)`, `split()`, `sep.join`, `strip(c)`, `replace(c, repl)`, `lower()`
 * and `str(int)`. Strings are sequences of Unicode scalar values, as Python's are.
 */
module Text {

  /** Index of the first `c` in `s`, or `|s|` when `c` does not occur. */
  function IndexOf(s: string, c: char): (i: nat)
    ensures i <= |s|
    ensures i < |s| ==> s[i] == c
    ensures forall k :: 0 <= k < i ==> s[k] != c
  {
    if s == [] then 0 else if s[0] == c then 0 else 1 + IndexOf(s[1..], c)
  }

  lemma {:induction false} IndexOfConcat(p: string, t: string, c: char)
    requires c !in p
    ensures IndexOf(p + t, c) == |p| + IndexOf(t, c)
    decreases |p|
  {
    if p == [] {
      assert p + t == t;
    } else {
      assert (p + t)[0] == p[0] && (p + t)[1..] == p[1..] + t;
      IndexOfConcat(p[1..], t, c);
    }
  }

  // ---------------------------------------------------------------------------
  // split(sep) and join

  /** `s.split(sep)` for a one-character separator: never empty, no field holds `sep`. */
  function Split(s: string, sep: char): (parts: seq<string>)
    ensures |parts| >= 1
    ensures forall k :: 0 <= k < |parts| ==> sep !in parts[k]
    ensures (|parts| == 1) == (sep !in s)
    decreases |s|
  {
    var i := IndexOf(s, sep);
    if i == |s| then [s] else [s[..i]] + Split(s[i + 1..], sep)
  }

  /** The first field of `s.split(sep)` is everything before the first `sep`. */
  lemma SplitHead(s: string, sep: char)
    ensures Split(s, sep)[0] == s[..IndexOf(s, sep)]
  {
  }

  /** A field without the separator followed by the separator splits off as the first part. */
  lemma SplitCons(a: string, t: string, sep: char)
    requires sep !in a
    ensures Split(a + [sep] + t, sep) == [a] + Split(t, sep)
  {
    var s := a + [sep] + t;
    ConsSlices(a, t, sep);
    assert IndexOf(s, sep) == |a|;
  }

  /** The two halves of a concatenation are its prefix and its suffix. */
  lemma ConcatSlices(x: string, y: string)
    ensures (x + y)[..|x|] == x && (x + y)[|x|..] == y && x <= x + y
  {
  }

  lemma ConsSlices(a: string, t: string, sep: char)
    ensures var s := a + [sep] + t;
            && |s| == |a| + 1 + |t| && s[|a|] == sep
            && s[..|a|] == a && s[|a| + 1..] == t
            && forall k :: 0 <= k < |a| ==> s[k] == a[k]
  {
  }

  /** A string without the separator is a single part. */
  lemma SplitNone(c: string, sep: char)
    requires sep !in c
    ensures Split(c, sep) == [c]
  {
    SplitHead(c, sep);
    assert c[..|c|] == c;
  }

  /** Two separator-free fields joined by the separator split back into those two. */
  lemma SplitPair(b: string, c: string, sep: char)
    requires sep !in b && sep !in c
    ensures Split(b + [sep] + c, sep) == [b, c]
  {
    SplitCons(b, c, sep);
    SplitNone(c, sep);
  }

  lemma ConcatAssoc5(a: string, b: string, c: string, sep: char)
    ensures a + [sep] + b + [sep] + c == a + [sep] + (b + [sep] + c)
  {
  }

  /** Three separator-free fields joined by the separator split back into those three. */
  lemma Split3(a: string, b: string, c: string, sep: char)
    requires sep !in a && sep !in b && sep !in c
    ensures Split(a + [sep] + b + [sep] + c, sep) == [a, b, c]
  {
    ConcatAssoc5(a, b, c, sep);
    SplitPair(b, c, sep);
    SplitCons(a, b + [sep] + c, sep);
  }

  /** `sep.join(parts)`. */
  function Join(parts: seq<string>, sep: string): string
    decreases |parts|
  {
    if |parts| == 0 then ""
    else if |parts| == 1 then parts[0]
    else parts[0] + sep + Join(parts[1..], sep)
  }

  /** Joining the fields of a split with the separator gives the string back. */
  lemma {:induction false} JoinSplit(s: string, sep: char)
    ensures Join(Split(s, sep), [sep]) == s
    decreases |s|
  {
    var i := IndexOf(s, sep);
    if i < |s| {
      var rest := s[i + 1..];
      Reassemble(s, i);
      assert s[i] == sep;
      SplitCons(s[..i], rest, sep);
      JoinSplit(rest, sep);
      JoinCons(s[..i], [sep], Split(rest, sep));
    } else {
      SplitNone(s, sep);
    }
  }

  lemma JoinCons(head: string, sep: string, tail: seq<string>)
    requires |tail| >= 1
    ensures Join([head] + tail, sep) == head + sep + Join(tail, sep)
  {
    assert ([head] + tail)[1..] == tail;
  }

  lemma Reassemble(s: string, i: nat)
    requires i < |s|
    ensures s[..i] + [s[i]] + s[i + 1..] == s
  {
  }

  /** Splitting a join of separator-free fields gives the fields back. */
  lemma {:induction false} SplitJoin(parts: seq<string>, sep: char)
    requires |parts| >= 1
    requires forall k :: 0 <= k < |parts| ==> sep !in parts[k]
    ensures Split(Join(parts, [sep]), sep) == parts
    decreases |parts|
  {
    var p := parts[0];
    assert sep !in p;
    if |parts| == 1 {
      SplitNone(p, sep);
    } else {
      var tail := parts[1..];
      JoinCons(p, [sep], tail);
      assert [p] + tail == parts;
      SplitCons(p, Join(tail, [sep]), sep);
      SplitJoin(tail, sep);
    }
  }

  // ---------------------------------------------------------------------------
  // strip(c)

  /** `s.lstrip(c)` for one character. */
  function TrimLeft(s: string, c: char): (r: string)
    ensures |r| <= |s| && r == s[|s| - |r|..]
    ensures forall k :: 0 <= k < |s| - |r| ==> s[k] == c
    ensures r != [] ==> r[0] != c
    decreases |s|
  {
    if s != [] && s[0] == c then TrimLeft(s[1..], c) else s
  }

  /** `s.rstrip(c)` for one character. */
  function TrimRight(s: string, c: char): (r: string)
    ensures |r| <= |s| && r == s[..|r|]
    ensures forall k :: |r| <= k < |s| ==> s[k] == c
    ensures r != [] ==> r[|r| - 1] != c
    decreases |s|
  {
    if s != [] && s[|s| - 1] == c then TrimRight(s[..|s| - 1], c) else s
  }

  /** `s.strip(c)` for one character. */
  function Strip(s: string, c: char): string
  {
    TrimRight(TrimLeft(s, c), c)
  }

  // ---------------------------------------------------------------------------
  // split() on whitespace

  /** `c.isspace()`: the characters Python's argument-less `str.split()` breaks on. */
  predicate IsSpace(c: char)
  {
    || '\t' <= c <= '\r'
    || '\U{1C}' <= c <= '\U{1F}'
    || c == ' ' || c == '\U{85}' || c == '\U{A0}' || c == '\U{1680}'
    || '\U{2000}' <= c <= '\U{200A}'
    || c == '\U{2028}' || c == '\U{2029}' || c == '\U{202F}' || c == '\U{205F}' || c == '\U{3000}'
  }

  predicate NoSpace(s: string)
  {
    forall k :: 0 <= k < |s| ==> !IsSpace(s[k])
  }

  /** The longest whitespace-free prefix of `s`. */
  function TakeWord(s: string): (w: string)
    ensures |w| <= |s| && w == s[..|w|]
    ensures NoSpace(w)
    ensures |w| < |s| ==> IsSpace(s[|w|])
    ensures s != [] && !IsSpace(s[0]) ==> w != []
    decreases |s|
  {
    if s == [] || IsSpace(s[0]) then [] else [s[0]] + TakeWord(s[1..])
  }

  /** `s.split()`: the maximal runs of non-whitespace characters, in order. */
  function WhitespaceSplit(s: string): (words: seq<string>)
    ensures forall k :: 0 <= k < |words| ==> words[k] != [] && NoSpace(words[k])
    decreases |s|
  {
    if s == [] then []
    else if IsSpace(s[0]) then WhitespaceSplit(s[1..])
    else
      var w := TakeWord(s);
      [w] + WhitespaceSplit(s[|w|..])
  }

  lemma {:induction false} TakeWordConcat(w: string, t: string)
    requires NoSpace(w)
    requires t == [] || IsSpace(t[0])
    ensures TakeWord(w + t) == w
    decreases |w|
  {
    if w == [] {
      assert w + t == t;
    } else {
      assert (w + t)[0] == w[0] && (w + t)[1..] == w[1..] + t;
      TakeWordConcat(w[1..], t);
      assert w == [w[0]] + w[1..];
    }
  }

  /** A space-joined list of non-empty whitespace-free words splits back into that list. */
  lemma {:induction false} WhitespaceSplitJoin(words: seq<string>)
    requires forall k :: 0 <= k < |words| ==> words[k] != [] && NoSpace(words[k])
    ensures WhitespaceSplit(Join(words, " ")) == words
    decreases |words|
  {
    if |words| > 0 {
      var w := words[0];
      var tail := if |words| == 1 then "" else " " + Join(words[1..], " ");
      var s := w + tail;
      assert Join(words, " ") == s;
      TakeWordConcat(w, tail);
      assert s[..|w|] == w && s[|w|..] == tail;
      if |words| > 1 {
        assert tail[1..] == Join(words[1..], " ");
        WhitespaceSplitJoin(words[1..]);
        assert words == [w] + words[1..];
      }
    }
  }

  /** A non-empty whitespace-free string is one word. */
  lemma WhitespaceSplitWord(w: string)
    requires w != [] && NoSpace(w)
    ensures WhitespaceSplit(w) == [w]
  {
    TakeWordConcat(w, []);
    assert w + [] == w;
    assert w[|w|..] == [];
  }

  /**
   * A whitespace character separates: the words on either side of it are split apart.
   * Together with WhitespaceSplitWord this fixes `split()` on every string.
   */
  lemma {:induction false} WhitespaceSplitSpace(a: string, c: char, b: string)
    requires IsSpace(c)
    ensures WhitespaceSplit(a + [c] + b) == WhitespaceSplit(a) + WhitespaceSplit(b)
    decreases |a|, 1
  {
    if a == [] {
      assert a + [c] + b == [c] + b;
      SpaceHead(c, b);
    } else if IsSpace(a[0]) {
      SpaceStep(a, c, b);
      WhitespaceSplitSpace(a[1..], c, b);
    } else {
      WordSplitSpace(a, c, b);
    }
  }

  /** The case of WhitespaceSplitSpace where `a` starts with a word. */
  lemma {:induction false} WordSplitSpace(a: string, c: char, b: string)
    requires IsSpace(c) && a != [] && !IsSpace(a[0])
    ensures WhitespaceSplit(a + [c] + b) == WhitespaceSplit(a) + WhitespaceSplit(b)
    decreases |a|, 0
  {
    var w := TakeWord(a);
    var tail := a[|w|..];
    WordStep(a, c, b);
    if tail != [] {
      WhitespaceSplitSpace(tail, c, b);
    } else {
      assert tail + [c] + b == [c] + b;
      SpaceHead(c, b);
    }
    assert [w] + (WhitespaceSplit(tail) + WhitespaceSplit(b)) == ([w] + WhitespaceSplit(tail)) + WhitespaceSplit(b);
  }

  /** A leading whitespace character of `a` is dropped on both sides. */
  lemma SpaceStep(a: string, c: char, b: string)
    requires a != [] && IsSpace(a[0])
    ensures WhitespaceSplit(a + [c] + b) == WhitespaceSplit(a[1..] + [c] + b)
    ensures WhitespaceSplit(a) == WhitespaceSplit(a[1..])
  {
    TailShape(a, c, b);
  }

  lemma SpaceHead(c: char, b: string)
    requires IsSpace(c)
    ensures WhitespaceSplit([c] + b) == WhitespaceSplit(b)
  {
    assert ([c] + b)[1..] == b;
  }

  /** One word off the front of `a + [c] + b`, for an `a` that starts with a word. */
  lemma WordStep(a: string, c: char, b: string)
    requires a != [] && !IsSpace(a[0]) && IsSpace(c)
    ensures var w := TakeWord(a);
            && WhitespaceSplit(a + [c] + b) == [w] + WhitespaceSplit(a[|w|..] + [c] + b)
            && WhitespaceSplit(a) == [w] + WhitespaceSplit(a[|w|..])
  {
    var s := a + [c] + b;
    var w := TakeWord(a);
    var tail := a[|w|..];
    WordShape(a, w, c, b);
    TakeWordConcat(w, tail + [c] + b);
    assert TakeWord(s) == w;
  }

  lemma TailShape(a: string, c: char, b: string)
    requires a != []
    ensures (a + [c] + b)[0] == a[0] && (a + [c] + b)[1..] == a[1..] + [c] + b
  {
  }

  lemma WordShape(a: string, w: string, c: char, b: string)
    requires |w| <= |a| && w == a[..|w|]
    ensures a + [c] + b == w + (a[|w|..] + [c] + b)
    ensures (a + [c] + b)[|w|..] == a[|w|..] + [c] + b
  {
    assert a == w + a[|w|..];
  }

  // ---------------------------------------------------------------------------
  // replace(c, repl)

  /** `s.replace(c, repl)` for a one-character pattern. */
  function ReplaceChar(s: string, c: char, repl: string): (r: string)
    decreases |s|
  {
    if s == [] then [] else (if s[0] == c then repl else [s[0]]) + ReplaceChar(s[1..], c, repl)
  }

  /** Every `c` is replaced: a replacement free of `c` leaves no `c` behind. */
  lemma {:induction false} ReplaceCharOmits(s: string, c: char, repl: string)
    requires c !in repl
    ensures c !in ReplaceChar(s, c, repl)
    decreases |s|
  {
    if s != [] {
      ReplaceCharOmits(s[1..], c, repl);
    }
  }

  /** A character other than `c` that `repl` does not contain occurs as often as before. */
  lemma {:induction false} ReplaceCharKeeps(s: string, c: char, repl: string, d: char)
    requires d != c && d !in repl
    ensures multiset(ReplaceChar(s, c, repl))[d] == multiset(s)[d]
    decreases |s|
  {
    if s != [] {
      ReplaceCharKeeps(s[1..], c, repl, d);
      assert s == [s[0]] + s[1..];
    }
  }

  /** `s.replace(c, "")`. */
  function RemoveChar(s: string, c: char): (r: string)
    ensures c !in r
  {
    ReplaceCharOmits(s, c, "");
    ReplaceChar(s, c, "")
  }

  /** Removing a character keeps every other character, in order and number. */
  lemma {:induction false} RemoveCharKeepsOthers(s: string, c: char)
    ensures |RemoveChar(s, c)| == |s| - multiset(s)[c]
    ensures forall d :: d != c ==> multiset(RemoveChar(s, c))[d] == multiset(s)[d]
    decreases |s|
  {
    if s != [] {
      RemoveCharKeepsOthers(s[1..], c);
      assert s == [s[0]] + s[1..];
    }
  }

  /** `replace` works piece by piece: replacing in a concatenation concatenates the results. */
  lemma {:induction false} ReplaceCharConcat(s: string, t: string, c: char, repl: string)
    ensures ReplaceChar(s + t, c, repl) == ReplaceChar(s, c, repl) + ReplaceChar(t, c, repl)
    decreases |s|
  {
    if s == [] {
      assert s + t == t;
    } else {
      assert (s + t)[0] == s[0] && (s + t)[1..] == s[1..] + t;
      ReplaceCharConcat(s[1..], t, c, repl);
    }
  }

  /** Removing a character keeps the order of the rest: it works piece by piece. */
  lemma RemoveCharConcat(s: string, t: string, c: char)
    ensures RemoveChar(s + t, c) == RemoveChar(s, c) + RemoveChar(t, c)
  {
    ReplaceCharConcat(s, t, c, "");
  }

  /**
   * Order is kept: a character other than `c` lands at the position given by the number of
   * characters kept before it.
   */
  lemma RemoveCharOrder(s: string, c: char)
    ensures forall i :: 0 <= i < |s| && s[i] != c ==>
              |RemoveChar(s[..i], c)| < |RemoveChar(s, c)| && RemoveChar(s, c)[|RemoveChar(s[..i], c)|] == s[i]
  {
    forall i | 0 <= i < |s| && s[i] != c
      ensures |RemoveChar(s[..i], c)| < |RemoveChar(s, c)| && RemoveChar(s, c)[|RemoveChar(s[..i], c)|] == s[i]
    {
      assert s == s[..i] + ([s[i]] + s[i + 1..]);
      RemoveCharConcat(s[..i], [s[i]] + s[i + 1..], c);
      RemoveCharConcat([s[i]], s[i + 1..], c);
      assert RemoveChar([s[i]], c) == [s[i]];
    }
  }

  /** A string without `c` is left as it is. */
  lemma {:induction false} RemoveCharAbsent(s: string, c: char)
    requires c !in s
    ensures RemoveChar(s, c) == s
    decreases |s|
  {
    if s != [] {
      RemoveCharAbsent(s[1..], c);
      assert s == [s[0]] + s[1..];
    }
  }

  // ---------------------------------------------------------------------------
  // lower()

  /** Lower-cases A-Z; every other character is kept (see the register-flag test for why that suffices). */
  function LowerChar(c: char): char
  {
    if 'A' <= c <= 'Z' then (c as int + 32) as char else c
  }

  function AsciiLower(s: string): (r: string)
    ensures |r| == |s|
    ensures forall k :: 0 <= k < |s| ==> r[k] == LowerChar(s[k])
  {
    seq(|s|, k requires 0 <= k < |s| => LowerChar(s[k]))
  }

  // ---------------------------------------------------------------------------
  // str(n) for integers

  predicate IsDigits(s: string)
  {
    forall k :: 0 <= k < |s| ==> '0' <= s[k] <= '9'
  }

  function DigitChar(d: nat): char
    requires d < 10
  {
    ('0' as int + d) as char
  }

  /** `str(n)` for `n >= 0`: decimal digits, no leading zero. */
  function NatToDecimal(n: nat): (s: string)
    ensures |s| >= 1 && IsDigits(s)
    ensures s[0] == '0' ==> n == 0
  {
    if n < 10 then [DigitChar(n)] else NatToDecimal(n / 10) + [DigitChar(n % 10)]
  }

  /** `str(n)` for any integer. */
  function IntToDecimal(n: int): (s: string)
    ensures |s| >= 1
  {
    if n < 0 then "-" + NatToDecimal(-n) else NatToDecimal(n)
  }

  /** `int(s)` for a string of decimal digits. */
  function DecimalValue(s: string): nat
    requires IsDigits(s)
    decreases |s|
  {
    if s == [] then 0 else 10 * DecimalValue(s[..|s| - 1]) + (s[|s| - 1] as int - '0' as int)
  }

  /** `int(s)` for an optionally signed string of decimal digits. */
  function IntValue(s: string): int
    requires s != [] && IsDigits(if s[0] == '-' then s[1..] else s)
  {
    if s[0] == '-' then 0 - DecimalValue(s[1..]) else DecimalValue(s) as int
  }

  /** Reading back the decimal text of a natural number gives the number. */
  lemma {:induction false} DecimalRoundTrip(n: nat)
    ensures DecimalValue(NatToDecimal(n)) == n
  {
    if n >= 10 {
      DecimalRoundTrip(n / 10);
      var s := NatToDecimal(n);
      assert s[..|s| - 1] == NatToDecimal(n / 10);
    }
  }

  /** Reading back `str(n)` gives `n`, for negative numbers too. */
  lemma IntRoundTrip(n: int)
    ensures var s := IntToDecimal(n); s != [] && IsDigits(if s[0] == '-' then s[1..] else s) && IntValue(s) == n
  {
    var s := IntToDecimal(n);
    if n < 0 {
      DecimalRoundTrip(-n);
      assert s[1..] == NatToDecimal(-n);
    } else {
      DecimalRoundTrip(n);
    }
  }
}
