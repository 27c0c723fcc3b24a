/** Text helpers for the wire format: decimal numbers, comma-separated
    keyword lists and CRLF-terminated command lines. */
module Text {

  const CRLF: string := "\r\n"

  predicate IsDigit(c: char) { '0' <= c <= '9' }

  predicate AllDigits(s: string) { forall i :: 0 <= i < |s| ==> IsDigit(s[i]) }

  /** True when `s` holds neither a carriage return nor a line feed. */
  predicate NoLineBreak(s: string) { forall i :: 0 <= i < |s| ==> s[i] != '\r' && s[i] != '\n' }

  function DigitChar(d: nat): (c: char)
    requires d < 10
    ensures IsDigit(c) && (c as int) - ('0' as int) == d
  {
    (('0' as int) + d) as char
  }

  /** Decimal rendering of a natural number, without leading zeros. */
  function NatToString(n: nat): (s: string)
    ensures |s| > 0 && AllDigits(s)
    ensures |s| > 1 ==> s[0] != '0'
    decreases n
  {
    if n < 10 then [DigitChar(n)] else NatToString(n / 10) + [DigitChar(n % 10)]
  }

  /** The value of a string of decimal digits. */
  function ParseNat(s: string): nat
    requires AllDigits(s)
    decreases |s|
  {
    if s == [] then 0
    else ParseNat(s[..|s| - 1]) * 10 + ((s[|s| - 1] as int) - ('0' as int))
  }

  lemma {:induction false} ParseNatToString(n: nat)
    ensures ParseNat(NatToString(n)) == n
    decreases n
  {
    var s := NatToString(n);
    if n >= 10 {
      ParseNatToString(n / 10);
      assert s[..|s| - 1] == NatToString(n / 10);
    }
  }

  /** Position of the first `c` in `s`, or |s| when there is none. */
  function IndexOf(s: string, c: char): (i: nat)
    ensures i <= |s|
    ensures i < |s| ==> s[i] == c
    ensures forall j :: 0 <= j < i ==> s[j] != c
    decreases |s|
  {
    if s == [] then 0 else if s[0] == c then 0 else 1 + IndexOf(s[1..], c)
  }

  lemma IndexOfPrefix(x: string, c: char, rest: string)
    requires c !in x
    ensures IndexOf(x + [c] + rest, c) == |x|
  {
    var s := x + [c] + rest;
    assert forall j :: 0 <= j < |x| ==> s[j] == x[j];
    assert s[|x|] == c;
  }

  /** Keywords joined by a separator, as in `SUCCESS,FAILURE,DELAY`. */
  function Join(xs: seq<string>, sep: char): string
    decreases |xs|
  {
    if |xs| == 0 then "" else if |xs| == 1 then xs[0] else xs[0] + [sep] + Join(xs[1..], sep)
  }

  /** Splits at every separator; the inverse of Join for separator-free parts. */
  function Split(s: string, sep: char): (r: seq<string>)
    ensures |r| > 0
    decreases |s|
  {
    var i := IndexOf(s, sep);
    if i == |s| then [s] else [s[..i]] + Split(s[i + 1..], sep)
  }

  /** Splitting a separator-free part, the separator and more text cuts off
      exactly that part. */
  lemma SplitFirst(x: string, sep: char, rest: string)
    requires sep !in x
    ensures Split(x + [sep] + rest, sep) == [x] + Split(rest, sep)
  {
    var s := x + [sep] + rest;
    IndexOfPrefix(x, sep, rest);
    assert s[..|x|] == x;
    assert s[|x| + 1..] == rest;
  }

  lemma {:induction false} SplitJoin(xs: seq<string>, sep: char)
    requires |xs| > 0
    requires forall k :: 0 <= k < |xs| ==> sep !in xs[k]
    ensures Split(Join(xs, sep), sep) == xs
    decreases |xs|
  {
    if |xs| == 1 {
      assert Join(xs, sep) == xs[0];
      assert IndexOf(xs[0], sep) == |xs[0]|;
    } else {
      var rest := Join(xs[1..], sep);
      assert Join(xs, sep) == xs[0] + [sep] + rest;
      SplitFirst(xs[0], sep, rest);
      SplitJoin(xs[1..], sep);
      assert xs == [xs[0]] + xs[1..];
    }
  }

  /** One protocol line: text without line breaks, then CRLF. */
  predicate IsCommandLine(c: string) {
    |c| >= 2 && c[|c| - 2..] == CRLF && NoLineBreak(c[..|c| - 2])
  }

  lemma CommandLineOf(text: string)
    requires NoLineBreak(text)
    ensures IsCommandLine(text + CRLF)
  {
    var c := text + CRLF;
    assert c[..|c| - 2] == text;
    assert c[|c| - 2..] == CRLF;
  }

  /** Concatenation of lines, as they go out in one pipelined write. */
  function Concat(lines: seq<string>): string
    decreases |lines|
  {
    if lines == [] then "" else lines[0] + Concat(lines[1..])
  }

  /** Cuts a byte stream after every line feed, the way a server reads
      pipelined commands back one at a time. */
  function SplitLines(s: string): seq<string>
    decreases |s|
  {
    if s == [] then []
    else
      var i := IndexOf(s, '\n');
      if i == |s| then [s] else [s[..i + 1]] + SplitLines(s[i + 1..])
  }

  /** IndexOf finds the first occurrence. */
  lemma IndexOfFirst(s: string, c: char, k: nat)
    requires k < |s| && s[k] == c
    requires forall j :: 0 <= j < k ==> s[j] != c
    ensures IndexOf(s, c) == k
  {
    var i := IndexOf(s, c);
    assert i <= k by { assert s[k] == c; }
  }

  /** A command line ends in its only line feed. */
  lemma CommandLineEnds(c: string)
    requires IsCommandLine(c)
    ensures c[|c| - 1] == '\n'
    ensures forall j :: 0 <= j < |c| - 1 ==> c[j] != '\n'
  {
    var n := |c|;
    assert c[n - 2] == '\r' && c[n - 1] == '\n' by {
      assert c[n - 2..][0] == c[n - 2] && c[n - 2..][1] == c[n - 1];
    }
    var body := c[..n - 2];
    forall j | 0 <= j < n - 1 ensures c[j] != '\n' {
      if j < n - 2 {
        assert body[j] == c[j];
      }
    }
  }

  lemma NoLineFeedInCommandBody(c: string)
    requires IsCommandLine(c)
    ensures IndexOf(c, '\n') == |c| - 1
  {
    CommandLineEnds(c);
    IndexOfFirst(c, '\n', |c| - 1);
  }

  /** A batch of command lines written at once is read back as the same
      lines in the same order. */
  lemma {:induction false} SplitLinesConcat(lines: seq<string>)
    requires forall k :: 0 <= k < |lines| ==> IsCommandLine(lines[k])
    ensures SplitLines(Concat(lines)) == lines
    decreases |lines|
  {
    if lines != [] {
      var c := lines[0];
      var rest := Concat(lines[1..]);
      var s := c + rest;
      assert Concat(lines) == s;
      NoLineFeedInCommandBody(c);
      var i := IndexOf(s, '\n');
      assert s[|c| - 1] == c[|c| - 1];
      assert forall j :: 0 <= j < |c| - 1 ==> s[j] == c[j];
      assert i == |c| - 1;
      assert s[..i + 1] == c;
      assert s[i + 1..] == rest;
      SplitLinesConcat(lines[1..]);
      assert lines == [c] + lines[1..];
    }
  }
}
