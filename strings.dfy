/** The three Python string operations the request assembly relies on:
    `s.split()` (split on runs of whitespace), `sep.join(xs)` and, as the
    server's way of reading a comma list back, `s.split(c)`. */
module Strings {
  import opened Seqs

  /** Python's `str.isspace` for a single character. */
  predicate IsSpace(c: char) {
    || c == ' '
    || '\U{9}' <= c <= '\U{D}'
    || '\U{1C}' <= c <= '\U{1F}'
    || c == '\U{85}' || c == '\U{A0}' || c == '\U{1680}'
    || '\U{2000}' <= c <= '\U{200A}'
    || c == '\U{2028}' || c == '\U{2029}' || c == '\U{202F}' || c == '\U{205F}'
    || c == '\U{3000}'
  }

  predicate NonSpace(c: char) {
    !IsSpace(c)
  }

  /** A piece produced by `split()`: non-empty, no whitespace inside. */
  predicate IsWord(w: string) {
    |w| > 0 && forall i :: 0 <= i < |w| ==> NonSpace(w[i])
  }

  /** `s.split()`: the maximal whitespace-free runs of `s`, in order. */
  function Words(s: string): (ws: seq<string>)
    ensures forall i :: 0 <= i < |ws| ==> IsWord(ws[i])
    ensures forall i, c :: 0 <= i < |ws| && c in ws[i] ==> c in s
    decreases |s|
  {
    if s == [] then []
    else if IsSpace(s[0]) then
      assert forall c :: c in s[1..] ==> c in s;
      Words(s[1..])
    else
      var n := Prefix(s, NonSpace);
      assert forall c :: c in s[..n] || c in s[n..] ==> c in s;
      [s[..n]] + Words(s[n..])
  }

  /** `sep.join(xs)`; nothing at all for no items. */
  function Join(sep: string, xs: seq<string>): (s: string)
    ensures xs == [] ==> s == ""
    decreases |xs|
  {
    if xs == [] then ""
    else if |xs| == 1 then xs[0]
    else xs[0] + sep + Join(sep, xs[1..])
  }

  /** The first item starts `sep.join(xs)` and the last one ends it. */
  lemma {:induction false} JoinEnds(sep: string, xs: seq<string>)
    requires |xs| > 0
    ensures xs[0] <= Join(sep, xs)
    ensures var s, last := Join(sep, xs), xs[|xs| - 1];
      |last| <= |s| && s[|s| - |last|..] == last
    decreases |xs|
  {
    if |xs| > 1 {
      JoinEnds(sep, xs[1..]);
      assert xs[1..][|xs[1..]| - 1] == xs[|xs| - 1];
    }
  }

  function Other(c: char): char -> bool {
    x => x != c
  }

  /** `s.split(c)`: the pieces between occurrences of `c`; always at least one. */
  function SplitOn(c: char, s: string): (parts: seq<string>)
    ensures |parts| >= 1
    ensures forall i :: 0 <= i < |parts| ==> c !in parts[i]
    decreases |s|
  {
    var n := Prefix(s, Other(c));
    if n == |s| then [s] else [s[..n]] + SplitOn(c, s[n + 1..])
  }

  /** Splitting a space-joined list of words gives the words back. */
  lemma {:induction false} WordsOfJoin(ws: seq<string>)
    requires forall i :: 0 <= i < |ws| ==> IsWord(ws[i])
    ensures Words(Join(" ", ws)) == ws
    decreases |ws|
  {
    if ws == [] {
    } else {
      var w := ws[0];
      var s := Join(" ", ws);
      if |ws| == 1 {
        PrefixExact(s, NonSpace, |w|);
        assert s[..|w|] == w && s[|w|..] == [];
      } else {
        var rest := Join(" ", ws[1..]);
        assert s == w + " " + rest;
        assert s[|w|] == ' ';
        PrefixExact(s, NonSpace, |w|);
        assert s[..|w|] == w;
        assert s[|w|..][1..] == rest;
        WordsOfJoin(ws[1..]);
        assert [w] + ws[1..] == ws;
      }
    }
  }

  /** Splitting a `c`-joined non-empty list whose items contain no `c`
      gives the items back. */
  lemma {:induction false} SplitOnJoin(c: char, xs: seq<string>)
    requires |xs| >= 1
    requires forall i :: 0 <= i < |xs| ==> c !in xs[i]
    ensures SplitOn(c, Join([c], xs)) == xs
    decreases |xs|
  {
    var x := xs[0];
    var s := Join([c], xs);
    if |xs| == 1 {
      PrefixExact(s, Other(c), |x|);
    } else {
      var rest := Join([c], xs[1..]);
      assert s == x + [c] + rest;
      PrefixExact(s, Other(c), |x|);
      assert s[..|x|] == x && s[|x| + 1..] == rest;
      SplitOnJoin(c, xs[1..]);
      assert [x] + xs[1..] == xs;
    }
  }

  predicate IsDigit(c: char) {
    '0' <= c <= '9'
  }

  /** The value of a string of decimal digits, most significant first. */
  function DigitsValue(s: string): nat
    requires forall i :: 0 <= i < |s| ==> IsDigit(s[i])
  {
    if s == [] then 0
    else
      var last := s[|s| - 1];
      assert IsDigit(last);
      10 * DigitsValue(s[..|s| - 1]) + (last as int - '0' as int)
  }

  /** `str(n)` for an integer: a minus sign for a negative number, then the
      digits of its magnitude with no leading zero. */
  function DecimalString(n: int): (s: string)
    ensures n >= 0 ==> |s| > 0 && forall i :: 0 <= i < |s| ==> IsDigit(s[i])
    ensures n > 0 ==> s[0] != '0'
    ensures n < 0 ==> |s| > 1 && s[0] == '-' && s[1] != '0' && forall i :: 1 <= i < |s| ==> IsDigit(s[i])
    decreases if n < 0 then 1 - n else n
  {
    if n < 0 then "-" + DecimalString(-n)
    else if n < 10 then ["0123456789"[n]]
    else DecimalString(n / 10) + ["0123456789"[n % 10]]
  }

  /** Reading the digits of `str(n)` back gives n. */
  lemma {:induction false} DecimalStringRoundTrip(n: nat)
    ensures DigitsValue(DecimalString(n)) == n
  {
    var s := DecimalString(n);
    if n >= 10 {
      var a := DecimalString(n / 10);
      DecimalStringRoundTrip(n / 10);
      assert s[..|s| - 1] == a;
    }
  }
}
