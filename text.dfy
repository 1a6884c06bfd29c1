/** The Python string builtins the console and the codec rely on, restricted to ASCII:
    `str.isdigit`, `int(str)`, `str(int)`, `str.strip`, `str.split`, `str.join` and
    `str.replace(old, '', 1)`. */
module Text {

  // ---------------------------------------------------------------------------
  // Character classes
  // ---------------------------------------------------------------------------

  /** The ASCII characters Python treats as whitespace: tab, line feed, vertical tab,
      form feed, carriage return, the four information separators and space. */
  const Whitespace: set<char> :=
    {' ', '\t', '\n', 11 as char, 12 as char, '\r', 28 as char, 29 as char, 30 as char, 31 as char}

  predicate IsSpace(c: char) {
    c in Whitespace
  }

  predicate IsDigit(c: char) {
    '0' <= c <= '9'
  }

  /** Every character is a digit (the empty string included). */
  predicate AllDigits(s: string) {
    forall i :: 0 <= i < |s| ==> IsDigit(s[i])
  }

  /** `s.isdigit()`: non-empty and made of digits only. */
  predicate IsDigits(s: string) {
    |s| > 0 && AllDigits(s)
  }

  lemma AllDigitsConcat(a: string, b: string)
    ensures AllDigits(a + b) <==> AllDigits(a) && AllDigits(b)
  {
    if AllDigits(a + b) {
      forall k | 0 <= k < |a| ensures IsDigit(a[k]) {
        assert a[k] == (a + b)[k];
      }
      forall k | 0 <= k < |b| ensures IsDigit(b[k]) {
        assert b[k] == (a + b)[|a| + k];
      }
    }
  }

  function DigitValue(c: char): (d: nat)
    requires IsDigit(c)
    ensures d < 10
  {
    c as int - '0' as int
  }

  function DigitChar(d: nat): (c: char)
    requires d < 10
    ensures IsDigit(c) && DigitValue(c) == d
  {
    ('0' as int + d) as char
  }

  // ---------------------------------------------------------------------------
  // Decimal numbers
  // ---------------------------------------------------------------------------

  /** `int(s)` for a string of digits (most significant first). */
  function ParseNat(s: string): nat
    requires AllDigits(s)
  {
    if s == [] then 0 else ParseNat(s[..|s| - 1]) * 10 + DigitValue(s[|s| - 1])
  }

  function Pow10(w: nat): (p: nat)
    ensures p > 0
  {
    if w == 0 then 1 else 10 * Pow10(w - 1)
  }

  /** `n` written in exactly `w` digits, with leading zeros (the `%04d` of a formatter). */
  function Pad(n: nat, w: nat): (r: string)
    ensures |r| == w && AllDigits(r)
  {
    if w == 0 then "" else Pad(n / 10, w - 1) + [DigitChar(n % 10)]
  }

  lemma {:induction false} ParsePad(n: nat, w: nat)
    requires n < Pow10(w)
    ensures ParseNat(Pad(n, w)) == n
  {
    if w > 0 {
      DropDigitBound(n, w);
      ParsePad(n / 10, w - 1);
      PadLast(n, w);
    }
  }

  /** Reading `Pad(n, w)` gives `n` once reading its first `w - 1` digits gives `n / 10`. */
  lemma PadLast(n: nat, w: nat)
    requires w > 0 && ParseNat(Pad(n / 10, w - 1)) == n / 10
    ensures ParseNat(Pad(n, w)) == n
  {
    var s := Pad(n, w);
    assert s[..|s| - 1] == Pad(n / 10, w - 1);
    assert ParseNat(s) == (n / 10) * 10 + n % 10;
  }

  /** Dropping the last digit of a number below `10^w` leaves one below `10^(w-1)`. */
  lemma DropDigitBound(n: nat, w: nat)
    requires w > 0 && n < Pow10(w)
    ensures n / 10 < Pow10(w - 1)
  {
  }

  /** `str(n)` for a natural number: the shortest decimal text. */
  function Decimal(n: nat): (r: string)
    ensures IsDigits(r)
    ensures |r| > 1 ==> r[0] != '0'
  {
    if n < 10 then [DigitChar(n)] else Decimal(n / 10) + [DigitChar(n % 10)]
  }

  lemma {:induction false} ParseDecimal(n: nat)
    ensures ParseNat(Decimal(n)) == n
  {
    if n >= 10 {
      ParseDecimal(n / 10);
      var s := Decimal(n);
      assert s[..|s| - 1] == Decimal(n / 10);
    }
  }

  /** `str(i)` for any integer. */
  function IntText(i: int): (r: string)
    ensures i >= 0 ==> r == Decimal(i)
    ensures i < 0 ==> r == "-" + Decimal(-i)
  {
    if i < 0 then "-" + Decimal(-i) else Decimal(i)
  }

  // ---------------------------------------------------------------------------
  // strip
  // ---------------------------------------------------------------------------

  /** `s.lstrip(chars)`: the suffix left after dropping leading characters of `cs`. */
  function TrimLeft(s: string, cs: set<char>): (r: string)
    ensures |r| <= |s| && r == s[|s| - |r|..]
    ensures forall i :: 0 <= i < |s| - |r| ==> s[i] in cs
    ensures r == [] || r[0] !in cs
  {
    if s != [] && s[0] in cs then TrimLeft(s[1..], cs) else s
  }

  /** `s.rstrip(chars)`: the prefix left after dropping trailing characters of `cs`. */
  function TrimRight(s: string, cs: set<char>): (r: string)
    ensures |r| <= |s| && r == s[..|r|]
    ensures forall i :: |r| <= i < |s| ==> s[i] in cs
    ensures r == [] || r[|r| - 1] !in cs
  {
    if s != [] && s[|s| - 1] in cs then TrimRight(s[..|s| - 1], cs) else s
  }

  /** How many characters `s.strip(chars)` drops at the front. */
  function StripStart(s: string, cs: set<char>): nat {
    |s| - |TrimLeft(s, cs)|
  }

  /** `s.strip(chars)`: the middle of `s` once every leading and trailing character of `cs`
      is gone; all that is dropped is in `cs`, and the result neither starts nor ends with a
      character of `cs`. */
  function Strip(s: string, cs: set<char>): (r: string)
    ensures StripStart(s, cs) + |r| <= |s|
    ensures r == s[StripStart(s, cs)..StripStart(s, cs) + |r|]
    ensures forall i :: 0 <= i < StripStart(s, cs) ==> s[i] in cs
    ensures forall i :: StripStart(s, cs) + |r| <= i < |s| ==> s[i] in cs
    ensures r == [] || (r[0] !in cs && r[|r| - 1] !in cs)
  {
    TrimRight(TrimLeft(s, cs), cs)
  }

  /** A character absent from `s` is absent from `s.strip(chars)`. */
  lemma StripAbsent(s: string, cs: set<char>, d: char)
    requires d !in s
    ensures d !in Strip(s, cs)
  {
    var r := Strip(s, cs);
    forall k | 0 <= k < |r|
      ensures r[k] != d
    {
      assert r[k] == s[StripStart(s, cs) + k];
    }
  }

  /** A string with no character of `cs` at either end is left as it is. */
  lemma {:induction false} StripUnchanged(s: string, cs: set<char>)
    requires s == [] || (s[0] !in cs && s[|s| - 1] !in cs)
    ensures Strip(s, cs) == s
  {
  }

  // ---------------------------------------------------------------------------
  // split and join
  // ---------------------------------------------------------------------------

  /** A token of `str.split()`: non-empty and without whitespace. */
  predicate IsWord(w: string) {
    |w| > 0 && forall i :: 0 <= i < |w| ==> !IsSpace(w[i])
  }

  /** The length of the leading run of non-whitespace characters. */
  function WordLen(s: string): (n: nat)
    ensures n <= |s|
    ensures forall i :: 0 <= i < n ==> !IsSpace(s[i])
    ensures n == |s| || IsSpace(s[n])
  {
    if s == [] || IsSpace(s[0]) then 0 else 1 + WordLen(s[1..])
  }

  /** `s.split()`: the maximal runs of non-whitespace characters, in order. */
  function Words(s: string): (ws: seq<string>)
    ensures forall i :: 0 <= i < |ws| ==> IsWord(ws[i])
    decreases |s|
  {
    if s == [] then []
    else if IsSpace(s[0]) then Words(s[1..])
    else [s[..WordLen(s)]] + Words(s[WordLen(s)..])
  }

  /** `sep.join(ws)`. */
  function Join(ws: seq<string>, sep: string): string {
    if |ws| == 0 then "" else if |ws| == 1 then ws[0] else ws[0] + sep + Join(ws[1..], sep)
  }

  lemma {:induction false} JoinSnoc(ws: seq<string>, w: string, sep: string)
    requires |ws| > 0
    ensures Join(ws + [w], sep) == Join(ws, sep) + sep + w
  {
    if |ws| > 1 {
      assert (ws + [w])[1..] == ws[1..] + [w];
      JoinSnoc(ws[1..], w, sep);
    }
  }

  /** A word followed by nothing or by whitespace is exactly one run. */
  lemma {:induction false} WordLenOfWord(w: string, t: string)
    requires IsWord(w)
    requires t == [] || IsSpace(t[0])
    ensures WordLen(w + t) == |w|
  {
    if |w| > 1 {
      assert (w + t)[1..] == w[1..] + t;
      WordLenOfWord(w[1..], t);
    } else {
      assert (w + t)[1..] == t;
    }
  }

  /** Splitting words joined by single spaces gives the words back. */
  lemma {:induction false} WordsOfJoin(ws: seq<string>)
    requires forall i :: 0 <= i < |ws| ==> IsWord(ws[i])
    ensures Words(Join(ws, " ")) == ws
  {
    if |ws| == 1 {
      var w := ws[0];
      WordLenOfWord(w, "");
      assert w + "" == w;
      assert w[|w|..] == [];
    } else if |ws| > 1 {
      var w, rest := ws[0], Join(ws[1..], " ");
      var s := w + " " + rest;
      assert Join(ws, " ") == s;
      WordLenOfWord(w, " " + rest);
      assert s == w + (" " + rest);
      assert s[..|w|] == w;
      assert s[|w|..] == " " + rest;
      assert (" " + rest)[1..] == rest;
      WordsOfJoin(ws[1..]);
      assert ws == [w] + ws[1..];
    }
  }

  /** The first index of `c` in `s`, or `|s|` when `c` does not occur. */
  function IndexOf(s: string, c: char): (i: nat)
    ensures i <= |s|
    ensures i < |s| ==> s[i] == c
    ensures forall k :: 0 <= k < i ==> s[k] != c
  {
    if s == [] || s[0] == c then 0 else 1 + IndexOf(s[1..], c)
  }

  /** `s.split(c)`: never empty, no piece contains `c`. */
  function SplitOn(s: string, c: char): (parts: seq<string>)
    ensures |parts| >= 1
    ensures forall i :: 0 <= i < |parts| ==> c !in parts[i]
    decreases |s|
  {
    var i := IndexOf(s, c);
    if i == |s| then [s] else [s[..i]] + SplitOn(s[i + 1..], c)
  }

  /** A character absent from `s` is absent from every piece of `s.split(c)`. */
  lemma {:induction false} SplitOnAbsent(s: string, c: char, d: char)
    requires d !in s
    ensures forall i :: 0 <= i < |SplitOn(s, c)| ==> d !in SplitOn(s, c)[i]
    decreases |s|
  {
    var i := IndexOf(s, c);
    if i < |s| {
      assert s[..i] + s[i..] == s;
      SplitOnAbsent(s[i + 1..], c, d);
      assert SplitOn(s, c) == [s[..i]] + SplitOn(s[i + 1..], c);
    }
  }

  /** Joining the pieces of `s.split(c)` with `c` gives `s` back. */
  lemma {:induction false} JoinSplitOn(s: string, c: char)
    ensures Join(SplitOn(s, c), [c]) == s
    decreases |s|
  {
    var i := IndexOf(s, c);
    var parts := SplitOn(s, c);
    if i == |s| {
      assert parts == [s];
    } else {
      var rest := SplitOn(s[i + 1..], c);
      assert parts == [s[..i]] + rest;
      assert parts[0] == s[..i] && parts[1..] == rest && |parts| >= 2;
      JoinSplitOn(s[i + 1..], c);
      assert Join(parts, [c]) == s[..i] + [c] + Join(rest, [c]);
      assert s == s[..i] + [c] + s[i + 1..];
    }
  }

  /** The first `c` of `a + [c] + b` is the one after `a` when `a` has none. */
  lemma IndexOfAfter(a: string, c: char, b: string)
    requires c !in a
    ensures IndexOf(a + [c] + b, c) == |a|
  {
    var s := a + [c] + b;
    assert s[|a|] == c;
    assert forall k :: 0 <= k < |a| ==> s[k] == a[k];
  }

  /** Joining two pieces with a `c` that the first piece lacks can be undone. */
  lemma {:induction false} SeparatedInjective(a1: string, b1: string, a2: string, b2: string, c: char)
    requires c !in a1 && c !in a2
    requires a1 + [c] + b1 == a2 + [c] + b2
    ensures a1 == a2 && b1 == b2
  {
    var s := a1 + [c] + b1;
    IndexOfAfter(a1, c, b1);
    IndexOfAfter(a2, c, b2);
    assert a1 == s[..|a1|] == a2;
    assert b1 == s[|a1| + 1..] == b2;
  }

  /** A string without `c` is one piece. */
  lemma SplitOnNone(s: string, c: char)
    requires c !in s
    ensures SplitOn(s, c) == [s]
  {
  }

  /** Splitting `a + [c] + b` on `c` peels off `a` when `a` has no `c`. */
  lemma SplitOnAfter(a: string, c: char, b: string)
    requires c !in a
    ensures SplitOn(a + [c] + b, c) == [a] + SplitOn(b, c)
  {
    var s := a + [c] + b;
    IndexOfAfter(a, c, b);
    assert s[..|a|] == a;
    assert s[|a| + 1..] == b;
  }

  /** A string enclosed in two characters of `cs`, with neither of its own ends in `cs`,
      strips back to itself. */
  lemma StripEnclosed(s: string, open: char, close: char, cs: set<char>)
    requires open in cs && close in cs
    requires s != [] && s[0] !in cs && s[|s| - 1] !in cs
    ensures Strip([open] + s + [close], cs) == s
  {
    var t := [open] + s + [close];
    assert t[1..] == s + [close];
    assert TrimLeft(t, cs) == TrimLeft(s + [close], cs);
    assert (s + [close])[0] == s[0];
    assert TrimLeft(s + [close], cs) == s + [close];
    assert (s + [close])[..|s|] == s;
    assert TrimRight(s + [close], cs) == TrimRight(s, cs) == s;
  }

  /** Characters of `cs` at the right end only are dropped, and nothing else. */
  lemma StripTrailing(s: string, close: char, cs: set<char>)
    requires close in cs
    requires s == [] || (s[0] !in cs && s[|s| - 1] !in cs)
    ensures Strip(s + [close], cs) == s
  {
    var t := s + [close];
    if s == [] {
      assert t == [close];
      assert TrimLeft(t, cs) == TrimLeft([], cs);
    } else {
      assert t[0] == s[0];
      assert TrimLeft(t, cs) == t;
      assert t[..|s|] == s;
      assert TrimRight(t, cs) == TrimRight(s, cs) == s;
    }
  }

  /** `s.split(c, 1)`. */
  function SplitOnce(s: string, c: char): (parts: seq<string>)
    ensures c !in s ==> parts == [s]
    ensures c in s ==> |parts| == 2 && c !in parts[0] && s == parts[0] + [c] + parts[1]
  {
    var i := IndexOf(s, c);
    if i == |s| then [s] else [s[..i], s[i + 1..]]
  }

  /** `s.replace(c, '', 1)`: `s` without the first occurrence of `c`. */
  function RemoveFirst(s: string, c: char): (r: string)
    ensures c !in s ==> r == s
    ensures c in s ==> |r| == |s| - 1 && s == r[..IndexOf(s, c)] + [c] + r[IndexOf(s, c)..]
  {
    var i := IndexOf(s, c);
    if i == |s| then s else s[..i] + s[i + 1..]
  }
}
