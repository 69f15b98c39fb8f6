/** The markdown-like rewrite `TestGenerator` applies to each generated
    question before rendering it as HTML: three global regular-expression
    replacements, `**x**` to `<strong>x</strong>`, then `*x*` to `<em>x</em>`,
    then every newline to `<br />`.

    A global replace of `D(.*?)D` scans left to right; at each position it
    tries to match the delimiter `D`, then the SHORTEST run of characters
    other than line terminators (`.` does not match them) followed by `D`.
    On a match it emits the replacement and resumes after the closing
    delimiter; otherwise it copies one character and moves on. */
module Markup {
  import opened Wrappers
  import opened Text

  /** Position `k` closes a span whose content starts at `start`: the
      delimiter occurs at `k` and no line terminator lies in between. */
  predicate IsClose(s: string, start: nat, k: nat, delim: string) {
    && start <= k && k + |delim| <= |s| && s[k..k + |delim|] == delim
    && forall m :: start <= m < k ==> !IsLineTerminator(s[m])
  }

  /** The lazy `(.*?)` followed by the closing delimiter: the first closing
      position at or after `j`, given that none lies between `start` and `j`. */
  function FindClose(s: string, start: nat, j: nat, delim: string): (r: Option<nat>)
    requires |delim| > 0 && start <= j <= |s|
    requires forall m :: start <= m < j ==> !IsLineTerminator(s[m])
    requires forall k :: start <= k < j ==> !IsClose(s, start, k, delim)
    ensures r.Some? ==> IsClose(s, start, r.value, delim)
    ensures r.Some? ==> forall k :: start <= k < r.value ==> !IsClose(s, start, k, delim)
    ensures r.None? ==> forall k :: !IsClose(s, start, k, delim)
    decreases |s| - j
  {
    if j + |delim| > |s| then None
    else if s[j..j + |delim|] == delim then Some(j)
    else if IsLineTerminator(s[j]) then None
    else FindClose(s, start, j + 1, delim)
  }

  /** `s.replace(/D(.*?)D/g, open + '$1' + close)` for the delimiter `D`.
      A text in which the delimiter starts nowhere is left as it is. */
  function ReplaceSpans(s: string, delim: string, open: string, close: string): (r: string)
    requires |delim| > 0
    ensures (forall i :: 0 <= i < |s| ==> s[i] != delim[0]) ==> r == s
    decreases |s|
  {
    if |s| == 0 then ""
    else if StartsWith(s, delim) then
      assert s[..|delim|][0] == s[0];
      match FindClose(s, |delim|, |delim|, delim)
      case Some(k) => open + s[|delim|..k] + close + ReplaceSpans(s[k + |delim|..], delim, open, close)
      case None => [s[0]] + ReplaceSpans(s[1..], delim, open, close)
    else [s[0]] + ReplaceSpans(s[1..], delim, open, close)
  }

  /** A character other than the delimiter's first is copied. */
  lemma ReplaceSpansSkip(s: string, delim: string, open: string, close: string)
    requires |delim| > 0 && |s| > 0 && s[0] != delim[0]
    ensures ReplaceSpans(s, delim, open, close) == [s[0]] + ReplaceSpans(s[1..], delim, open, close)
  {
    assert |delim| <= |s| ==> s[..|delim|][0] == s[0];
  }

  /** A prefix in which the delimiter's first character does not occur is
      copied as it is: no span can open inside it. */
  lemma {:induction false} ReplaceSpansCopies(a: string, t: string, delim: string,
                                              open: string, close: string)
    requires |delim| > 0
    requires forall i :: 0 <= i < |a| ==> a[i] != delim[0]
    ensures ReplaceSpans(a + t, delim, open, close) == a + ReplaceSpans(t, delim, open, close)
    decreases |a|
  {
    if |a| == 0 {
      assert a + t == t;
    } else {
      var s := a + t;
      var rest := a[1..] + t;
      assert s[0] == a[0] && s[1..] == rest;
      ReplaceSpansSkip(s, delim, open, close);
      ReplaceSpansCopies(a[1..], t, delim, open, close);
      assert a == [a[0]] + a[1..];
    }
  }

  /** A span at the start: `D x D` with a one-line `x` free of the
      delimiter's first character becomes `open x close`, and the replace
      carries on after the closing delimiter. */
  lemma SpanAtStart(x: string, b: string, delim: string, open: string, close: string)
    requires |delim| > 0
    requires forall i :: 0 <= i < |x| ==> x[i] != delim[0] && !IsLineTerminator(x[i])
    ensures ReplaceSpans(delim + x + delim + b, delim, open, close)
            == open + x + close + ReplaceSpans(b, delim, open, close)
  {
    var s := delim + x + delim + b;
    var d := |delim|;
    var k := d + |x|;
    assert s[..d] == delim;
    assert s[k..k + d] == delim;
    assert IsClose(s, d, k, delim);
    forall j | d <= j < k
      ensures !IsClose(s, d, j, delim)
    {
      assert s[j] == x[j - d];
      if j + d <= |s| {
        assert s[j..j + d][0] == s[j];
      }
    }
    assert FindClose(s, d, d, delim) == Some(k);
    assert s[d..k] == x;
    assert s[k + d..] == b;
  }

  /** The leftmost span: when the delimiter's first character occurs neither
      in `a` nor in the one-line `x`, the replace copies `a`, turns `D x D`
      into `open x close`, and carries on with `b`. */
  lemma ReplaceSpansLeftmost(a: string, x: string, b: string, delim: string,
                             open: string, close: string)
    requires |delim| > 0
    requires forall i :: 0 <= i < |a| ==> a[i] != delim[0]
    requires forall i :: 0 <= i < |x| ==> x[i] != delim[0] && !IsLineTerminator(x[i])
    ensures ReplaceSpans(a + (delim + x + delim + b), delim, open, close)
            == a + (open + x + close + ReplaceSpans(b, delim, open, close))
  {
    ReplaceSpansCopies(a, delim + x + delim + b, delim, open, close);
    SpanAtStart(x, b, delim, open, close);
  }

  /** `s.replace(/\n/g, '<br />')` */
  function ReplaceNewlines(s: string): (r: string)
    ensures forall i :: 0 <= i < |r| ==> r[i] != '\n'
    ensures (forall i :: 0 <= i < |s| ==> s[i] != '\n') ==> r == s
  {
    if |s| == 0 then ""
    else (if s[0] == '\n' then "<br />" else [s[0]]) + ReplaceNewlines(s[1..])
  }

  /** Every newline becomes `<br />`: the replace is
      `s.split('\n').join('<br />')`. */
  lemma {:induction false} ReplaceNewlinesSplitJoin(s: string)
    ensures ReplaceNewlines(s) == Join(Split(s, "\n"), "<br />")
    decreases |s|
  {
    if |s| > 0 {
      ReplaceNewlinesSplitJoin(s[1..]);
      var rest := Split(s[1..], "\n");
      if s[0] == '\n' {
        assert s[..1] == "\n";
        assert ([""] + rest)[1..] == rest;
      } else {
        assert s[..1] != "\n";
        JoinPrepend(s[0], rest, "<br />");
      }
    }
  }

  /** The three rewrites, strong before emphasis before line breaks. */
  function FormatBlock(block: string): (html: string)
    ensures forall i :: 0 <= i < |html| ==> html[i] != '\n'
  {
    var strong := ReplaceSpans(block, "**", "<strong>", "</strong>");
    var emphasised := ReplaceSpans(strong, "*", "<em>", "</em>");
    ReplaceNewlines(emphasised)
  }

  /** `**x**`, with `x` on one line and free of asterisks, becomes
      `<strong>x</strong>`: the strong rewrite runs first and leaves no
      asterisk for the emphasis rewrite to pair up. */
  lemma StrongSpan(x: string)
    requires forall i :: 0 <= i < |x| ==> x[i] != '*' && !IsLineTerminator(x[i])
    ensures FormatBlock("**" + x + "**") == "<strong>" + x + "</strong>"
  {
    var strong := "<strong>" + x + "</strong>";
    SpanAtStart(x, "", "**", "<strong>", "</strong>");
    assert "**" + x + "**" + "" == "**" + x + "**";
    assert strong + "" == strong;
    assert forall i :: 0 <= i < |strong| ==> strong[i] != '*' && strong[i] != '\n';
  }
}
