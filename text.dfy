/**
  Strings as the descriptor model sees them: the whitespace rules behind the
  name and description checks, joining with a separator, and splitting a
  rendering back into space-separated words.
 */
module Text {
  import opened Wrappers

  /** Java's Character.isWhitespace: the space, line and paragraph separators
      except the non-breaking ones, and the control characters U+0009..U+000D,
      U+001C..U+001F. */
  predicate IsWhitespace(c: char) {
    || ('\t' <= c <= '\r')
    || ('\U{1C}' <= c <= '\U{1F}')
    || c == ' '
    || c == '\U{1680}'
    || ('\U{2000}' <= c <= '\U{2006}')
    || ('\U{2008}' <= c <= '\U{200A}')
    || c == '\U{2028}' || c == '\U{2029}'
    || c == '\U{205F}' || c == '\U{3000}'
  }

  /** The STRING_NON_WHITESPACED check: a non-empty string without any
      whitespace character. */
  predicate NonWhitespaced(s: string) {
    |s| > 0 && forall i :: 0 <= i < |s| ==> !IsWhitespace(s[i])
  }

  /** The STRING_NON_BLANK check: at least one character is not whitespace. */
  predicate NonBlank(s: string) {
    exists i :: 0 <= i < |s| && !IsWhitespace(s[i])
  }

  /** No space character at all (what splitting into words relies on). */
  predicate NoSpace(s: string) {
    forall i :: 0 <= i < |s| ==> s[i] != ' '
  }

  lemma NonWhitespacedHasNoSpace(s: string)
    requires NonWhitespaced(s)
    ensures NoSpace(s) && NonBlank(s)
  {
    assert !IsWhitespace(s[0]);
  }

  /** Appending to a buffer's text one piece at a time. */
  lemma AppendAssoc(a: string, b: string, c: string)
    ensures a + (b + c) == (a + b) + c
  {
  }

  /** The parts, in order, with `sep` between each two neighbours. */
  function Join(parts: seq<string>, sep: string): string
  {
    if |parts| == 0 then ""
    else if |parts| == 1 then parts[0]
    else parts[0] + sep + Join(parts[1..], sep)
  }

  /** The position of the first space, or |s| when there is none. */
  function IndexOfSpace(s: string): (i: nat)
    ensures i <= |s|
  {
    if |s| == 0 || s[0] == ' ' then 0 else 1 + IndexOfSpace(s[1..])
  }

  /** IndexOfSpace finds the first space: there is a space at the index it
      returns, unless it returns |s|, and none before it. The facts are kept
      out of the function's contract so that they are only brought in where a
      proof needs them. */
  lemma {:induction false} IndexOfSpaceFinds(s: string)
    ensures IndexOfSpace(s) < |s| ==> s[IndexOfSpace(s)] == ' '
    ensures forall j :: 0 <= j < IndexOfSpace(s) ==> s[j] != ' '
  {
    if |s| > 0 && s[0] != ' ' {
      IndexOfSpaceFinds(s[1..]);
      assert forall j :: 1 <= j < IndexOfSpace(s) ==> s[j] == s[1..][j - 1];
    }
  }

  /** The contract of IndexOfSpace determines it. */
  lemma {:induction false} IndexOfSpaceIs(s: string, i: nat)
    requires i <= |s| && (i < |s| ==> s[i] == ' ')
    requires forall j :: 0 <= j < i ==> s[j] != ' '
    ensures IndexOfSpace(s) == i
  {
    if |s| > 0 && s[0] != ' ' {
      IndexOfSpaceIs(s[1..], i - 1);
    }
  }

  /** Splits at every single space; empty words are kept, so `Words` is the
      inverse of joining spaceless words with " " (see WordsOfJoin). */
  function Words(s: string): (ws: seq<string>)
    ensures |ws| > 0
    decreases |s|
  {
    var i := IndexOfSpace(s);
    if i == |s| then [s] else [s[..i]] + Words(s[i + 1..])
  }

  lemma WordsOfSpaceless(s: string)
    requires NoSpace(s)
    ensures Words(s) == [s]
  {
    IndexOfSpaceIs(s, |s|);
  }

  /** The first word of a string with a space ends at that space. */
  lemma WordsAtSpace(s: string, i: nat)
    requires i < |s| && s[i] == ' '
    requires forall j :: 0 <= j < i ==> s[j] != ' '
    ensures Words(s) == [s[..i]] + Words(s[i + 1..])
  {
    IndexOfSpaceIs(s, i);
  }

  /** Splitting distributes over a join at one space. */
  lemma WordsAppend(a: string, b: string)
    ensures Words(a + " " + b) == Words(a) + Words(b)
  {
    assert Words(" " + b) == [""] + Words(b) by {
      WordsAtSpace(" " + b, 0);
      assert (" " + b)[1..] == b;
    }
    assert a + " " + b == a + (" " + b);
    WordsConcat(a, " " + b);
    GlueAfterSpace(Words(a), Words(" " + b));
  }

  /** Splitting a space-join of spaceless words gives the words back. */
  lemma {:induction false} WordsOfJoin(ws: seq<string>)
    requires |ws| > 0
    requires forall k :: 0 <= k < |ws| ==> NoSpace(ws[k])
    ensures Words(Join(ws, " ")) == ws
  {
    WordsOfSpaceless(ws[0]);
    if |ws| > 1 {
      WordsAppend(ws[0], Join(ws[1..], " "));
      WordsOfJoin(ws[1..]);
    }
  }

  /** Joining one more part appends the separator and the part. */
  lemma {:induction false} JoinSnoc(parts: seq<string>, x: string, sep: string)
    requires |parts| > 0
    ensures Join(parts + [x], sep) == Join(parts, sep) + sep + x
  {
    if |parts| > 1 {
      assert (parts + [x])[1..] == parts[1..] + [x];
      JoinSnoc(parts[1..], x, sep);
    }
  }

  /** Text glued in front of a string lands in its first word. */
  lemma {:induction false} WordsPrefix(c: string, s: string)
    requires NoSpace(c)
    ensures Words(c + s) == [c + Words(s)[0]] + Words(s)[1..]
  {
    var i := IndexOfSpace(s);
    IndexOfSpaceFinds(s);
    IndexOfSpaceIs(c + s, |c| + i);
    if i < |s| {
      assert (c + s)[..|c| + i] == c + s[..i];
      assert (c + s)[|c| + i + 1..] == s[i + 1..];
    }
  }

  /** Text glued behind a string lands in its last word. */
  lemma {:induction false} WordsSuffix(s: string, c: string)
    requires NoSpace(c)
    ensures var ws := Words(s); Words(s + c) == ws[..|ws| - 1] + [ws[|ws| - 1] + c]
    decreases |s|
  {
    var i := IndexOfSpace(s);
    IndexOfSpaceFinds(s);
    if i == |s| {
      IndexOfSpaceIs(s + c, |s + c|);
    } else {
      IndexOfSpaceIs(s + c, i);
      assert (s + c)[..i] == s[..i];
      assert (s + c)[i + 1..] == s[i + 1..] + c;
      WordsSuffix(s[i + 1..], c);
    }
  }

  /** The words between which a " | " separator stands, with "|" as a word
      of its own in between. */
  function Barred(parts: seq<string>): (ws: seq<string>)
    ensures |parts| > 0 ==> |ws| == 2 * |parts| - 1
  {
    if |parts| <= 1 then parts else [parts[0], "|"] + Barred(parts[1..])
  }

  /** A " | "-join of spaceless parts splits into the parts and the bars. */
  lemma {:induction false} WordsOfBarJoin(parts: seq<string>)
    requires |parts| > 0
    requires forall k :: 0 <= k < |parts| ==> NoSpace(parts[k])
    ensures Words(Join(parts, " | ")) == Barred(parts)
  {
    WordsOfSpaceless(parts[0]);
    if |parts| > 1 {
      BarStep(parts[0], Join(parts[1..], " | "));
      WordsOfBarJoin(parts[1..]);
    }
  }

  lemma BarStep(x: string, rest: string)
    requires NoSpace(x)
    ensures Words(x + " | " + rest) == [x, "|"] + Words(rest)
  {
    var bar := "|";
    assert x + " | " + rest == x + " " + (bar + " " + rest);
    WordsAppend(x, bar + " " + rest);
    WordsAppend(bar, rest);
    WordsOfSpaceless(x);
    WordsOfSpaceless(bar);
  }

  lemma NoSpaceConcat(a: string, b: string)
    requires NoSpace(a) && NoSpace(b)
    ensures NoSpace(a + b)
  {
    assert forall i :: 0 <= i < |a + b| ==> (a + b)[i] == if i < |a| then a[i] else b[i - |a|];
  }

  /** Words once a bracket is glued in front and a tail behind. */
  function Wrap(ws: seq<string>, tail: string): seq<string>
    requires |ws| > 0
  {
    if |ws| == 1 then ["(" + ws[0] + tail]
    else ["(" + ws[0]] + ws[1..|ws| - 1] + [ws[|ws| - 1] + tail]
  }

  /** Takes the bracket and the tail off again. */
  function Unwrap(ws: seq<string>, tail: string): Option<seq<string>> {
    if |ws| == 0 then None
    else if |ws| == 1 then
      var w := ws[0];
      if |w| >= 1 + |tail| && w[0] == '(' && w[|w| - |tail|..] == tail
      then Some([w[1..|w| - |tail|]]) else None
    else
      var first, last := ws[0], ws[|ws| - 1];
      if |first| >= 1 && first[0] == '(' && |last| >= |tail| && last[|last| - |tail|..] == tail
      then Some([first[1..]] + ws[1..|ws| - 1] + [last[..|last| - |tail|]]) else None
  }

  lemma UnwrapWrap(ws: seq<string>, tail: string)
    requires |ws| > 0
    ensures Unwrap(Wrap(ws, tail), tail) == Some(ws)
  {
    var w := Wrap(ws, tail);
    if |ws| == 1 {
      var x := "(" + ws[0] + tail;
      assert w == [x];
      assert x[0] == '(';
      assert x[|x| - |tail|..] == tail;
      assert x[1..|x| - |tail|] == ws[0];
      assert |x| >= 1 + |tail|;
      assert Unwrap([x], tail) == Some([x[1..|x| - |tail|]]);
      assert ws == [ws[0]];
    } else {
      assert w[0][1..] == ws[0];
      var last := w[|w| - 1];
      assert last[..|last| - |tail|] == ws[|ws| - 1];
      assert w[1..|w| - 1] == ws[1..|ws| - 1];
      assert w[0][0] == '(' && last[|last| - |tail|..] == tail;
      assert [ws[0]] + ws[1..|ws| - 1] + [ws[|ws| - 1]] == ws;
    }
  }

  /** Splitting a bracketed text splits what is inside the brackets. */
  lemma WordsWrapped(s: string, tail: string)
    requires NoSpace(tail)
    ensures Words("(" + s + tail) == Wrap(Words(s), tail)
  {
    var ws := Words(s);
    WordsPrefix("(", s);
    var vs := Words("(" + s);
    assert vs == ["(" + ws[0]] + ws[1..];
    WordsSuffix("(" + s, tail);
    assert Words("(" + s + tail) == vs[..|vs| - 1] + [vs[|vs| - 1] + tail];
    if |ws| == 1 {
      assert vs == ["(" + ws[0]];
    } else {
      assert vs[..|vs| - 1] == ["(" + ws[0]] + ws[1..|ws| - 1];
      assert vs[|vs| - 1] == ws[|ws| - 1];
    }
  }

  /** The words of a concatenation: the last word of the first part and the
      first word of the second part merge. */
  function Glue(u: seq<string>, v: seq<string>): seq<string>
    requires |u| > 0 && |v| > 0
  {
    u[..|u| - 1] + [u[|u| - 1] + v[0]] + v[1..]
  }

  lemma {:induction false} WordsConcat(a: string, b: string)
    ensures Words(a + b) == Glue(Words(a), Words(b))
    decreases |a|
  {
    var i := IndexOfSpace(a);
    IndexOfSpaceFinds(a);
    if i == |a| {
      assert Words(a) == [a] by { WordsOfSpaceless(a); }
      WordsPrefix(a, b);
      assert Glue([a], Words(b)) == [a + Words(b)[0]] + Words(b)[1..];
    } else {
      var first, rest := a[..i], a[i + 1..];
      assert Words(a) == [first] + Words(rest) by {
        WordsAtSpace(a, i);
      }
      assert Words(a + b) == [first] + Words(rest + b) by {
        WordsAtSpace(a + b, i);
        assert (a + b)[..i] == first;
        assert (a + b)[i + 1..] == rest + b;
      }
      WordsConcat(rest, b);
      GlueCons(first, Words(rest), Words(b));
    }
  }

  lemma GlueCons(x: string, u: seq<string>, v: seq<string>)
    requires |u| > 0 && |v| > 0
    ensures Glue([x] + u, v) == [x] + Glue(u, v)
  {
    assert ([x] + u)[..|u|] == [x] + u[..|u| - 1];
  }

  /** A spaced separator such as " | " or " = (": an empty word, the
      separator's own word, and what follows it. */
  lemma WordsOfSpaced(w: string, x: string)
    requires NoSpace(w) && NoSpace(x)
    ensures Words(" " + w + " " + x) == ["", w, x]
  {
    var empty := "";
    assert " " + w + " " + x == empty + " " + (w + " " + x);
    WordsAppend(empty, w + " " + x);
    WordsAppend(w, x);
    WordsOfSpaceless(empty);
    WordsOfSpaceless(w);
    WordsOfSpaceless(x);
  }

  /** Text that starts with a space adds words without touching the last one. */
  lemma GlueAfterSpace(u: seq<string>, v: seq<string>)
    requires |u| > 0 && |v| > 0 && v[0] == ""
    ensures Glue(u, v) == u + v[1..]
  {
    assert u[|u| - 1] + v[0] == u[|u| - 1];
    assert u[..|u| - 1] + [u[|u| - 1]] == u;
  }

  /** After text that ends with a space, the next text starts a new word. */
  lemma GlueOntoEmpty(u: seq<string>, v: seq<string>)
    requires |u| > 0 && |v| > 0 && u[|u| - 1] == ""
    ensures Glue(u, v) == u[..|u| - 1] + v
  {
    assert u[|u| - 1] + v[0] == v[0];
    assert [v[0]] + v[1..] == v;
  }

  /** Each text preceded by a space. */
  function Spaced(ts: seq<string>): string {
    if |ts| == 0 then "" else Spaced(ts[..|ts| - 1]) + " " + ts[|ts| - 1]
  }

  /** The words of each text, one text after another. */
  function WordsOfAll(ts: seq<string>): seq<string> {
    if |ts| == 0 then [] else WordsOfAll(ts[..|ts| - 1]) + Words(ts[|ts| - 1])
  }

  /** Texts that each start after a space never merge into what precedes
      them. */
  lemma {:induction false} WordsAfterSpaced(x: string, ts: seq<string>)
    ensures Words(x + Spaced(ts)) == Words(x) + WordsOfAll(ts)
  {
    if |ts| > 0 {
      var init, last := ts[..|ts| - 1], ts[|ts| - 1];
      var before := Spaced(init);
      calc {
        Words(x + Spaced(ts));
        { AppendAssoc(x, before + " ", last);
          AppendAssoc(x, before, " "); }
        Words((x + before) + " " + last);
        { WordsAppend(x + before, last); }
        Words(x + before) + Words(last);
        { WordsAfterSpaced(x, init); }
        Words(x) + WordsOfAll(init) + Words(last);
      }
    } else {
      assert x + Spaced(ts) == x;
    }
  }
}
