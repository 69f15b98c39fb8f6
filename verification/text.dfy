/** The JavaScript string operations the program relies on, with their
    ECMAScript meaning: `split` with a string separator, `join`, `endsWith`,
    the `\s` character class, emptiness after `trim()`, and the
    whitespace-run word split `split(/\s+/).filter(w => w.length > 0)`.
    A string is a sequence of characters. */
module Text {

  /** A character matched by `\s` in a JavaScript regular expression; the same
      set is what `String.prototype.trim` strips from both ends. */
  predicate IsWhitespace(c: char) {
    || c == ' ' || c == '\t' || c == '\n' || c == '\r'
    || c == '\U{000B}' || c == '\U{000C}' || c == '\U{00A0}' || c == '\U{1680}'
    || ('\U{2000}' <= c <= '\U{200A}')
    || c == '\U{2028}' || c == '\U{2029}' || c == '\U{202F}' || c == '\U{205F}'
    || c == '\U{3000}' || c == '\U{FEFF}'
  }

  /** A line terminator: a character that `.` in a regular expression does not match. */
  predicate IsLineTerminator(c: char) {
    c == '\n' || c == '\r' || c == '\U{2028}' || c == '\U{2029}'
  }

  predicate HasNoWhitespace(w: string) {
    forall i :: 0 <= i < |w| ==> !IsWhitespace(w[i])
  }

  /** `s.trim()` is the empty string, i.e. falsy, exactly when this holds. */
  predicate IsBlank(s: string) {
    forall i :: 0 <= i < |s| ==> IsWhitespace(s[i])
  }

  predicate StartsWith(s: string, prefix: string) {
    |prefix| <= |s| && s[..|prefix|] == prefix
  }

  /** `s.endsWith(suffix)` */
  predicate EndsWith(s: string, suffix: string) {
    |suffix| <= |s| && s[|s| - |suffix|..] == suffix
  }

  /** `sub` occurs somewhere in `s`. */
  predicate Contains(s: string, sub: string) {
    exists i :: 0 <= i <= |s| && StartsWith(s[i..], sub)
  }

  lemma ContainsInfix(a: string, sub: string, b: string)
    ensures Contains(a + sub + b, sub)
  {
    var s := a + sub + b;
    assert s[|a|..][..|sub|] == sub;
  }

  // ---------------------------------------------------------------------------
  // `s.split(sep)` for a non-empty string separator
  // ---------------------------------------------------------------------------

  /** Number of non-overlapping occurrences of `sep` in `s`, found left to right
      the way `split` consumes them. */
  function Occurrences(s: string, sep: string): nat
    requires |sep| > 0
    decreases |s|
  {
    if |s| < |sep| then 0
    else if s[..|sep|] == sep then 1 + Occurrences(s[|sep|..], sep)
    else Occurrences(s[1..], sep)
  }

  /** `s.split(sep)`: the pieces between the leftmost non-overlapping
      occurrences of `sep`. There is always at least one piece: the empty
      string splits into `[""]`. */
  function Split(s: string, sep: string): (pieces: seq<string>)
    requires |sep| > 0
    ensures |pieces| == Occurrences(s, sep) + 1
    decreases |s|
  {
    if |s| < |sep| then [s]
    else if s[..|sep|] == sep then [""] + Split(s[|sep|..], sep)
    else
      var rest := Split(s[1..], sep);
      [[s[0]] + rest[0]] + rest[1..]
  }

  /** `pieces.join(sep)` */
  function Join(pieces: seq<string>, sep: string): string
    requires |pieces| > 0
  {
    if |pieces| == 1 then pieces[0] else pieces[0] + sep + Join(pieces[1..], sep)
  }

  lemma {:induction false} JoinPrepend(c: char, pieces: seq<string>, sep: string)
    requires |pieces| > 0
    ensures Join([[c] + pieces[0]] + pieces[1..], sep) == [c] + Join(pieces, sep)
  {
    var p := [[c] + pieces[0]] + pieces[1..];
    assert p[1..] == pieces[1..];
  }

  /** Splitting and joining again with the same separator gives back the text. */
  lemma {:induction false} JoinSplit(s: string, sep: string)
    requires |sep| > 0
    ensures Join(Split(s, sep), sep) == s
    decreases |s|
  {
    if |s| < |sep| {
    } else if s[..|sep|] == sep {
      var rest := Split(s[|sep|..], sep);
      JoinSplit(s[|sep|..], sep);
      assert ([""] + rest)[1..] == rest;
      calc {
        Join([""] + rest, sep);
        "" + sep + Join(rest, sep);
        sep + s[|sep|..];
        { assert s == s[..|sep|] + s[|sep|..]; }
        s;
      }
    } else {
      var rest := Split(s[1..], sep);
      JoinSplit(s[1..], sep);
      JoinPrepend(s[0], rest, sep);
      assert [s[0]] + s[1..] == s;
    }
  }

  // ---------------------------------------------------------------------------
  // `s.split(/\s+/).filter(w => w.length > 0)`
  // ---------------------------------------------------------------------------

  /** Length of the longest whitespace-free prefix of `s`. */
  function RunLength(s: string): (n: nat)
    ensures n <= |s|
    ensures forall i :: 0 <= i < n ==> !IsWhitespace(s[i])
    ensures n < |s| ==> IsWhitespace(s[n])
  {
    if |s| == 0 || IsWhitespace(s[0]) then 0 else 1 + RunLength(s[1..])
  }

  /** The maximal whitespace-free runs of `s`, in order: exactly the non-empty
      pieces of `s.split(/\s+/)`. */
  function Words(s: string): (words: seq<string>)
    ensures |words| <= |s|
    ensures |words| == 0 <==> IsBlank(s)
    ensures forall k :: 0 <= k < |words| ==> |words[k]| > 0 && HasNoWhitespace(words[k])
    decreases |s|
  {
    if |s| == 0 then []
    else if IsWhitespace(s[0]) then
      assert forall i :: 1 <= i < |s| ==> s[i] == s[1..][i - 1];
      Words(s[1..])
    else
      var n := RunLength(s);
      [s[..n]] + Words(s[n..])
  }

  lemma WordsSkipSpace(s: string, i: nat)
    requires i < |s| && IsWhitespace(s[i])
    ensures Words(s[i..]) == Words(s[i + 1..])
  {
  }

  lemma WordsTakeRun(s: string, i: nat, j: nat)
    requires i < j <= |s|
    requires forall k :: i <= k < j ==> !IsWhitespace(s[k])
    requires j == |s| || IsWhitespace(s[j])
    ensures |Words(s[i..])| == 1 + |Words(s[j..])|
  {
  }

  /** The word count, computed in one pass the way the split-and-filter does. */
  method CountWords(s: string) returns (count: nat)
    ensures count == |Words(s)|
  {
    count := 0;
    var i := 0;
    while i < |s|
      invariant 0 <= i <= |s|
      invariant count + |Words(s[i..])| == |Words(s)|
    {
      if IsWhitespace(s[i]) {
        WordsSkipSpace(s, i);
        i := i + 1;
      } else {
        var j := i + 1;
        while j < |s| && !IsWhitespace(s[j])
          invariant i < j <= |s|
          invariant forall k :: i <= k < j ==> !IsWhitespace(s[k])
        {
          j := j + 1;
        }
        WordsTakeRun(s, i, j);
        count := count + 1;
        i := j;
      }
    }
  }
}
