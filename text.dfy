/** String helpers shared by the main process and the editor: the JavaScript
    whitespace class `\s`, global single-character replacement, `substring(0, n)`,
    and the word count `text.split(/\s+/).filter(w => w).length`. */
module Text {

  /** The characters JavaScript's regular-expression class `\s` matches. */
  predicate IsSpace(c: char) {
    || c == '\t' || c == '\n' || c == '\U{000B}' || c == '\U{000C}' || c == '\r' || c == ' '
    || c == '\U{00A0}' || c == '\U{1680}' || ('\U{2000}' <= c <= '\U{200A}')
    || c == '\U{2028}' || c == '\U{2029}' || c == '\U{202F}' || c == '\U{205F}'
    || c == '\U{3000}' || c == '\U{FEFF}'
  }

  function Min(a: int, b: int): int {
    if a < b then a else b
  }

  /** `s.replace(/[targets]/g, sub)`: every character of `targets` becomes `sub`. */
  function ReplaceAny(s: string, targets: set<char>, sub: char): (r: string)
    ensures |r| == |s|
    ensures forall i :: 0 <= i < |s| ==> r[i] == (if s[i] in targets then sub else s[i])
  {
    if s == [] then []
    else [if s[0] in targets then sub else s[0]] + ReplaceAny(s[1..], targets, sub)
  }

  /** `s.substring(0, n)`: the first `n` characters, or all of them when there are fewer. */
  function Prefix(s: string, n: nat): (r: string)
    ensures |r| == Min(|s|, n)
    ensures r <= s
  {
    if |s| <= n then s else s[..n]
  }

  /** The input with its leading run of whitespace removed. */
  function DropSpaces(s: string): (r: string)
    ensures |r| <= |s| && r == s[|s| - |r|..]
    ensures r == [] || !IsSpace(r[0])
    ensures forall i :: 0 <= i < |s| - |r| ==> IsSpace(s[i])
  {
    if s != [] && IsSpace(s[0]) then DropSpaces(s[1..]) else s
  }

  /** `s.split(/\s+/)`: the pieces between maximal runs of whitespace. A leading
      or trailing run yields an empty first or last piece, and the empty string
      splits into one empty piece. */
  function Split(s: string): (r: seq<string>)
    ensures |r| >= 1
    ensures r[0] == [] <==> (s == [] || IsSpace(s[0]))
    ensures forall k, j :: 0 <= k < |r| && 0 <= j < |r[k]| ==> !IsSpace(r[k][j])
    decreases |s|
  {
    if s == [] then [[]]
    else if IsSpace(s[0]) then [[]] + Split(DropSpaces(s[1..]))
    else
      var rest := Split(s[1..]);
      [[s[0]] + rest[0]] + rest[1..]
  }

  /** `.filter(w => w)`: the non-empty strings, in order. */
  function NonEmpty(ts: seq<string>): (r: seq<string>)
    ensures |r| <= |ts|
    ensures forall k :: 0 <= k < |r| ==> r[k] != [] && r[k] in ts
  {
    if ts == [] then []
    else if ts[0] == [] then NonEmpty(ts[1..])
    else [ts[0]] + NonEmpty(ts[1..])
  }

  /** The words of a text, as the source computes them. */
  function Words(s: string): (r: seq<string>)
    ensures forall k :: 0 <= k < |r| ==> r[k] != []
    ensures forall k, j :: 0 <= k < |r| && 0 <= j < |r[k]| ==> !IsSpace(r[k][j])
  {
    var ws := NonEmpty(Split(s));
    assert forall k :: 0 <= k < |ws| ==> ws[k] in Split(s);
    ws
  }

  function WordCount(s: string): nat {
    |Words(s)|
  }

  /** Independent reference for the word count: scanning left to right, count the
      non-whitespace characters that follow whitespace or the start of the text. */
  function RunsFrom(s: string, afterSpace: bool): nat {
    if s == [] then 0
    else (if afterSpace && !IsSpace(s[0]) then 1 else 0) + RunsFrom(s[1..], IsSpace(s[0]))
  }

  function RunCount(s: string): nat {
    RunsFrom(s, true)
  }

  lemma RunsAfterWord(s: string)
    ensures RunsFrom(s, false) + (if s != [] && !IsSpace(s[0]) then 1 else 0) == RunsFrom(s, true)
  {
  }

  lemma {:induction false} RunsSkipSpaces(s: string)
    ensures RunsFrom(DropSpaces(s), true) == RunsFrom(s, true)
  {
    if s != [] && IsSpace(s[0]) {
      RunsSkipSpaces(s[1..]);
    }
  }

  lemma NonEmptyCons(t: string, ts: seq<string>)
    ensures |NonEmpty([t] + ts)| == (if t == [] then 0 else 1) + |NonEmpty(ts)|
  {
    assert ([t] + ts)[0] == t && ([t] + ts)[1..] == ts;
  }

  /** The source's word count is the number of maximal runs of non-whitespace. */
  lemma {:induction false} WordCountIsRunCount(s: string)
    ensures WordCount(s) == RunCount(s)
    decreases |s|
  {
    if s == [] {
    } else if IsSpace(s[0]) {
      var d := DropSpaces(s[1..]);
      NonEmptyCons([], Split(d));
      WordCountIsRunCount(d);
      RunsSkipSpaces(s[1..]);
    } else {
      var rest := Split(s[1..]);
      assert Split(s) == [[s[0]] + rest[0]] + rest[1..];
      NonEmptyCons([s[0]] + rest[0], rest[1..]);
      assert rest == [rest[0]] + rest[1..];
      NonEmptyCons(rest[0], rest[1..]);
      WordCountIsRunCount(s[1..]);
      RunsAfterWord(s[1..]);
    }
  }

  lemma {:induction false} RunsZeroIff(s: string)
    ensures RunsFrom(s, true) == 0 <==> forall i :: 0 <= i < |s| ==> IsSpace(s[i])
  {
    if s != [] {
      RunsZeroIff(s[1..]);
      assert forall i :: 1 <= i < |s| ==> s[i] == s[1..][i - 1];
    }
  }

  /** A text has no words exactly when it is empty or all whitespace. */
  lemma WordCountZeroIff(s: string)
    ensures WordCount(s) == 0 <==> forall i :: 0 <= i < |s| ==> IsSpace(s[i])
  {
    WordCountIsRunCount(s);
    RunsZeroIff(s);
  }

  lemma {:induction false} RunsAppendSpace(a: string, sp: char, b: string, afterSpace: bool)
    requires IsSpace(sp)
    ensures RunsFrom(a + [sp] + b, afterSpace) == RunsFrom(a, afterSpace) + RunsFrom(b, true)
  {
    if a == [] {
      assert a + [sp] + b == [sp] + b;
      assert ([sp] + b)[1..] == b;
    } else {
      assert (a + [sp] + b)[1..] == a[1..] + [sp] + b;
      RunsAppendSpace(a[1..], sp, b, IsSpace(a[0]));
    }
  }

  /** Joining two texts with a whitespace character adds their word counts. */
  lemma WordCountJoin(a: string, sp: char, b: string)
    requires IsSpace(sp)
    ensures WordCount(a + [sp] + b) == WordCount(a) + WordCount(b)
  {
    WordCountIsRunCount(a + [sp] + b);
    WordCountIsRunCount(a);
    WordCountIsRunCount(b);
    RunsAppendSpace(a, sp, b, true);
  }

  function DigitChar(d: nat): (c: char)
    requires d < 10
    ensures '0' <= c <= '9'
  {
    ['0', '1', '2', '3', '4', '5', '6', '7', '8', '9'][d]
  }

  /** JavaScript's decimal rendering of a non-negative integer in a template string. */
  function NatToString(n: nat): (r: string)
    ensures |r| >= 1
    ensures forall i :: 0 <= i < |r| ==> '0' <= r[i] <= '9'
    ensures n >= 10 ==> r[0] != '0'
  {
    if n < 10 then [DigitChar(n)] else NatToString(n / 10) + [DigitChar(n % 10)]
  }

  /** Reads a string of decimal digits back as a number. */
  function ParseDecimal(s: string): nat
    requires forall i :: 0 <= i < |s| ==> '0' <= s[i] <= '9'
  {
    if s == [] then 0 else 10 * ParseDecimal(s[..|s| - 1]) + (s[|s| - 1] as int - '0' as int)
  }

  lemma {:induction false} NatToStringRoundTrip(n: nat)
    ensures ParseDecimal(NatToString(n)) == n
  {
    if n >= 10 {
      var r := NatToString(n);
      assert r[..|r| - 1] == NatToString(n / 10);
      NatToStringRoundTrip(n / 10);
    }
  }
}
