/**
 * The JavaScript string operations the page extractor relies on: `trim`,
 * `replace(/\s+/g, " ")`, `split(" ")`, `startsWith` and `includes`.
 * Strings are sequences of characters; JavaScript counts UTF-16 code units.
 */
module JsText {

  /** A character of JavaScript's `\s` class, the same set `String.prototype.trim`
      strips (the WhiteSpace and LineTerminator productions of ECMA-262). */
  predicate IsJsSpace(c: char) {
    || c == ' ' || c == '\t' || c == '\n' || c == '\r'
    || c == '\U{000B}' || c == '\U{000C}' || c == '\U{00A0}' || c == '\U{1680}'
    || ('\U{2000}' <= c <= '\U{200A}')
    || c == '\U{2028}' || c == '\U{2029}' || c == '\U{202F}' || c == '\U{205F}'
    || c == '\U{3000}' || c == '\U{FEFF}'
  }

  predicate AllSpace(s: string) {
    forall i :: 0 <= i < |s| ==> IsJsSpace(s[i])
  }

  /** `s.startsWith(prefix)` */
  predicate StartsWith(s: string, prefix: string) {
    |prefix| <= |s| && s[..|prefix|] == prefix
  }

  /** `s.includes(t)`, searching from the front. */
  predicate Contains(s: string, t: string)
    decreases |s|
  {
    StartsWith(s, t) || (s != [] && Contains(s[1..], t))
  }

  /** `t` occurs in `s` at position `i`. */
  predicate OccursAt(s: string, t: string, i: int) {
    0 <= i <= |s| - |t| && s[i..i + |t|] == t
  }

  /** `includes` holds exactly when `t` occurs at some position of `s`. */
  lemma {:induction false} ContainsIff(s: string, t: string)
    ensures Contains(s, t) <==> exists i :: OccursAt(s, t, i)
    decreases |s|
  {
    if StartsWith(s, t) {
      assert OccursAt(s, t, 0);
    } else if s == [] {
      assert forall i :: !OccursAt(s, t, i);
    } else {
      ContainsIff(s[1..], t);
      forall i | OccursAt(s, t, i) ensures OccursAt(s[1..], t, i - 1) {
        assert i != 0;
        assert s[1..][i - 1..i - 1 + |t|] == s[i..i + |t|];
      }
      forall i | OccursAt(s[1..], t, i) ensures OccursAt(s, t, i + 1) {
        assert s[1..][i..i + |t|] == s[i + 1..i + 1 + |t|];
      }
    }
  }

  /** `s.trimStart()` */
  function TrimStart(s: string): (r: string)
    ensures |r| <= |s| && r == s[|s| - |r|..]
    ensures AllSpace(s[..|s| - |r|])
    ensures r == [] || !IsJsSpace(r[0])
    ensures s != [] && IsJsSpace(s[0]) ==> |r| < |s|
  {
    if s != [] && IsJsSpace(s[0]) then TrimStart(s[1..]) else s
  }

  /** The first index at or after `i` that is not white space, or `|s|`. */
  function SkipSpaces(s: string, i: nat): (j: nat)
    requires i <= |s|
    ensures i <= j <= |s|
    ensures forall m :: i <= m < j ==> IsJsSpace(s[m])
    ensures j < |s| ==> !IsJsSpace(s[j])
    decreases |s| - i
  {
    if i < |s| && IsJsSpace(s[i]) then SkipSpaces(s, i + 1) else i
  }

  /** The end of `s[lo..hi]` once its trailing white space is dropped. */
  function SkipSpacesBack(s: string, lo: nat, hi: nat): (j: nat)
    requires lo <= hi <= |s|
    ensures lo <= j <= hi
    ensures forall m :: j <= m < hi ==> IsJsSpace(s[m])
    ensures j > lo ==> !IsJsSpace(s[j - 1])
    decreases hi - lo
  {
    if lo < hi && IsJsSpace(s[hi - 1]) then SkipSpacesBack(s, lo, hi - 1) else hi
  }

  /** `s.trim()`: the result is `s` with a white-space prefix and suffix removed,
      and it neither starts nor ends with white space. */
  function Trim(s: string): (r: string)
    ensures var k := SkipSpaces(s, 0);
      k + |r| <= |s| && r == s[k..k + |r|] && AllSpace(s[..k]) && AllSpace(s[k + |r|..])
    ensures r == [] || (!IsJsSpace(r[0]) && !IsJsSpace(r[|r| - 1]))
  {
    var k := SkipSpaces(s, 0);
    var e := SkipSpacesBack(s, k, |s|);
    s[k..e]
  }

  /** The non-white-space characters of `s`, in order. */
  function NonSpace(s: string): string {
    if s == [] then [] else (if IsJsSpace(s[0]) then [] else [s[0]]) + NonSpace(s[1..])
  }

  lemma {:induction false} NonSpaceConcat(a: string, b: string)
    ensures NonSpace(a + b) == NonSpace(a) + NonSpace(b)
  {
    if a == [] {
      assert a + b == b;
    } else {
      var head := if IsJsSpace(a[0]) then [] else [a[0]];
      assert (a + b)[0] == a[0] && (a + b)[1..] == a[1..] + b;
      NonSpaceConcat(a[1..], b);
      calc {
        NonSpace(a + b);
        head + NonSpace(a[1..] + b);
        head + (NonSpace(a[1..]) + NonSpace(b));
        (head + NonSpace(a[1..])) + NonSpace(b);
      }
    }
  }

  lemma {:induction false} NonSpaceOfSpaces(s: string)
    requires AllSpace(s)
    ensures NonSpace(s) == []
  {
    if s != [] {
      NonSpaceOfSpaces(s[1..]);
    }
  }

  /** Trimming removes white space only. */
  lemma TrimKeepsContent(s: string)
    ensures NonSpace(Trim(s)) == NonSpace(s)
  {
    var r := Trim(s);
    var k := SkipSpaces(s, 0);
    assert s == s[..k] + r + s[k + |r|..];
    NonSpaceConcat(s[..k] + r, s[k + |r|..]);
    NonSpaceConcat(s[..k], r);
    NonSpaceOfSpaces(s[..k]);
    NonSpaceOfSpaces(s[k + |r|..]);
  }

  /** The only white space is the plain space, and no two spaces are adjacent. */
  ghost predicate IsCollapsed(s: string) {
    && (forall i :: 0 <= i < |s| && IsJsSpace(s[i]) ==> s[i] == ' ')
    && (forall i, j :: 0 <= i < j < |s| && j == i + 1 ==> !(s[i] == ' ' && s[j] == ' '))
  }

  /** Collapsed and without a leading or trailing space. */
  ghost predicate IsNormalized(s: string) {
    IsCollapsed(s) && (s == [] || (s[0] != ' ' && s[|s| - 1] != ' '))
  }

  lemma CollapsedCons(c: char, t: string)
    requires IsCollapsed(t)
    requires IsJsSpace(c) ==> c == ' '
    requires t != [] && c == ' ' ==> t[0] != ' '
    ensures IsCollapsed([c] + t)
  {
    var r := [c] + t;
    assert forall i :: 1 <= i < |r| ==> r[i] == t[i - 1];
  }

  /** A piece of a collapsed string is collapsed. */
  lemma CollapsedSlice(s: string, a: nat, b: nat)
    requires IsCollapsed(s) && a <= b <= |s|
    ensures IsCollapsed(s[a..b])
  {
    var r := s[a..b];
    assert forall i :: 0 <= i < |r| ==> r[i] == s[a + i];
  }

  /** `s.replace(/\s+/g, " ")`: every maximal run of white space becomes one space. */
  function CollapseSpaces(s: string): (r: string)
    ensures IsCollapsed(r)
    ensures r == [] <==> s == []
    ensures s != [] ==> r[0] == if IsJsSpace(s[0]) then ' ' else s[0]
    ensures s != [] ==> r[|r| - 1] == if IsJsSpace(s[|s| - 1]) then ' ' else s[|s| - 1]
    decreases |s|
  {
    if s == [] then []
    else if IsJsSpace(s[0]) then
      var t := TrimStart(s);
      assert t != [] ==> t[|t| - 1] == s[|s| - 1];
      var rest := CollapseSpaces(t);
      CollapsedCons(' ', rest);
      [' '] + rest
    else
      var rest := CollapseSpaces(s[1..]);
      CollapsedCons(s[0], rest);
      [s[0]] + rest
  }

  /** Collapsing runs of white space keeps every other character, in order. */
  lemma {:induction false} CollapseKeepsContent(s: string)
    ensures NonSpace(CollapseSpaces(s)) == NonSpace(s)
    decreases |s|
  {
    if s != [] {
      if IsJsSpace(s[0]) {
        var t := TrimStart(s);
        CollapseKeepsContent(t);
        NonSpaceConcat([' '], CollapseSpaces(t));
        assert s == s[..|s| - |t|] + t;
        NonSpaceConcat(s[..|s| - |t|], t);
        NonSpaceOfSpaces(s[..|s| - |t|]);
        assert NonSpace([' ']) == [];
      } else {
        CollapseKeepsContent(s[1..]);
        NonSpaceConcat([s[0]], CollapseSpaces(s[1..]));
        assert NonSpace([s[0]]) == [s[0]];
      }
    }
  }

  /** `s.replace(/\s+/g, " ").trim()`, the body-text normalisation. */
  function NormalizeSpaces(s: string): string {
    Trim(CollapseSpaces(s))
  }

  /** The normalised body text is collapsed and has no space at either end. */
  lemma NormalizeSpacesIsNormalized(s: string)
    ensures IsNormalized(NormalizeSpaces(s))
  {
    TrimCollapsed(CollapseSpaces(s));
  }

  lemma TrimCollapsed(c: string)
    requires IsCollapsed(c)
    ensures IsNormalized(Trim(c))
  {
    var r := Trim(c);
    var k := SkipSpaces(c, 0);
    CollapsedSlice(c, k, k + |r|);
  }

  /** Normalising changes white space only: the other characters stay, in order. */
  lemma NormalizeSpacesKeepsContent(s: string)
    ensures NonSpace(NormalizeSpaces(s)) == NonSpace(s)
  {
    CollapseKeepsContent(s);
    TrimKeepsContent(CollapseSpaces(s));
  }

  function CountSpaces(s: string): nat {
    if s == [] then 0 else (if s[0] == ' ' then 1 else 0) + CountSpaces(s[1..])
  }

  /** JavaScript's `s.split(" ")`: the pieces between the spaces, so always at least one. */
  function SplitOnSpace(s: string): (r: seq<string>)
    ensures |r| >= 1
  {
    if s == [] then [""]
    else if s[0] == ' ' then [""] + SplitOnSpace(s[1..])
    else
      var rest := SplitOnSpace(s[1..]);
      [[s[0]] + rest[0]] + rest[1..]
  }

  /** `pieces.join(" ")` */
  function JoinWithSpace(pieces: seq<string>): string
    requires |pieces| >= 1
  {
    if |pieces| == 1 then pieces[0] else pieces[0] + " " + JoinWithSpace(pieces[1..])
  }

  /** Splitting then joining with the separator gives the string back;
      there is one piece more than there are spaces, and no piece holds a space. */
  lemma {:induction false} SplitOnSpaceFacts(s: string)
    ensures JoinWithSpace(SplitOnSpace(s)) == s
    ensures |SplitOnSpace(s)| == CountSpaces(s) + 1
    ensures forall w :: w in SplitOnSpace(s) ==> ' ' !in w
  {
    if s != [] {
      var rest := SplitOnSpace(s[1..]);
      SplitOnSpaceFacts(s[1..]);
      if s[0] == ' ' {
        assert SplitOnSpace(s)[1..] == rest;
        assert JoinWithSpace(SplitOnSpace(s)) == "" + " " + JoinWithSpace(rest);
        assert s == [' '] + s[1..];
      } else {
        var r := SplitOnSpace(s);
        assert r[0] == [s[0]] + rest[0] && r[1..] == rest[1..];
        if |rest| == 1 {
          assert JoinWithSpace(r) == [s[0]] + rest[0];
        } else {
          assert JoinWithSpace(rest) == rest[0] + " " + JoinWithSpace(rest[1..]);
          assert JoinWithSpace(r) == ([s[0]] + rest[0]) + " " + JoinWithSpace(rest[1..]);
        }
        assert s == [s[0]] + s[1..];
        assert ' ' !in [s[0]] + rest[0] by {
          assert rest[0] in rest;
        }
        forall w | w in r ensures ' ' !in w {
          if w != r[0] {
            assert w in rest[1..];
          }
        }
      }
    }
  }

  /** On normalised non-empty text every piece of `split(" ")` is a non-empty word. */
  lemma {:induction false} SplitNormalizedIntoWords(s: string)
    requires IsNormalized(s) && s != []
    ensures forall w :: w in SplitOnSpace(s) ==> w != ""
    decreases |s|
  {
    var rest := SplitOnSpace(s[1..]);
    var r := SplitOnSpace(s);
    if |s| > 1 {
      if s[1] == ' ' {
        var t := s[2..];
        assert s[1..][1..] == t;
        assert IsNormalized(t) && t != [] by {
          assert forall i :: 0 <= i < |t| ==> t[i] == s[i + 2];
          assert s[|s| - 1] != ' ';
        }
        SplitNormalizedIntoWords(t);
        assert s[1..] != [] && s[1..][0] == ' ';
        assert rest == [""] + SplitOnSpace(t);
        assert rest[0] == "" && rest[1..] == SplitOnSpace(t);
        assert [s[0]] + "" == [s[0]];
        assert r == [[s[0]]] + SplitOnSpace(t);
      } else {
        var t := s[1..];
        assert IsNormalized(t) && t != [] by {
          assert forall i :: 0 <= i < |t| ==> t[i] == s[i + 1];
        }
        SplitNormalizedIntoWords(t);
        forall w | w in r ensures w != "" {
          if w != r[0] {
            assert w in rest[1..];
            assert w in rest;
          }
        }
      }
    } else {
      assert s[1..] == [];
      assert rest == [""];
      assert [s[0]] + "" == [s[0]];
      assert r == [[s[0]]];
    }
  }

  /** The words of `s`: its maximal runs of characters that are not white space, in order. */
  function Words(s: string): (r: seq<string>)
    ensures s != [] && !IsJsSpace(s[0]) ==> r != []
    ensures forall w :: w in r ==> w != [] && forall i :: 0 <= i < |w| ==> !IsJsSpace(w[i])
    decreases |s|
  {
    if s == [] then []
    else
      var rest := Words(s[1..]);
      if IsJsSpace(s[0]) then rest
      else if |s| > 1 && !IsJsSpace(s[1]) then
        assert rest[0] in rest;
        assert forall w :: w in rest[1..] ==> w in rest;
        [[s[0]] + rest[0]] + rest[1..]
      else [[s[0]]] + rest
  }

  /** White space in front of a text adds no word. */
  lemma {:induction false} WordsAfterSpaces(sp: string, t: string)
    requires AllSpace(sp)
    ensures Words(sp + t) == Words(t)
    decreases |sp|
  {
    if sp != [] {
      assert (sp + t)[1..] == sp[1..] + t;
      WordsAfterSpaces(sp[1..], t);
    } else {
      assert sp + t == t;
    }
  }

  /** White space after a text adds no word. */
  lemma {:induction false} WordsBeforeSpaces(x: string, sp: string)
    requires AllSpace(sp)
    ensures Words(x + sp) == Words(x)
    decreases |x|
  {
    if x == [] {
      assert x + sp == sp;
      WordsAfterSpaces(sp, []);
      assert sp + [] == sp;
    } else {
      assert (x + sp)[1..] == x[1..] + sp;
      WordsBeforeSpaces(x[1..], sp);
      if |x| == 1 {
        assert x[1..] == [];
      } else {
        assert (x + sp)[1] == x[1];
      }
    }
  }

  /** Collapsing runs of white space keeps the words. */
  lemma {:induction false} CollapseKeepsWords(s: string)
    ensures Words(CollapseSpaces(s)) == Words(s)
    decreases |s|
  {
    if s != [] {
      var c := CollapseSpaces(s);
      if IsJsSpace(s[0]) {
        var t := TrimStart(s);
        CollapseKeepsWords(t);
        assert c[1..] == CollapseSpaces(t);
        assert s == s[..|s| - |t|] + t;
        WordsAfterSpaces(s[..|s| - |t|], t);
      } else {
        CollapseKeepsWords(s[1..]);
        assert c[1..] == CollapseSpaces(s[1..]);
        if |s| > 1 {
          assert s[1..][0] == s[1];
        }
      }
    }
  }

  /** Trimming keeps the words. */
  lemma TrimKeepsWords(s: string)
    ensures Words(Trim(s)) == Words(s)
  {
    var r := Trim(s);
    var k := SkipSpaces(s, 0);
    assert s == s[..k] + (r + s[k + |r|..]);
    WordsAfterSpaces(s[..k], r + s[k + |r|..]);
    WordsBeforeSpaces(r, s[k + |r|..]);
  }

  /** Normalising the body text keeps its words. */
  lemma NormalizeKeepsWords(s: string)
    ensures Words(NormalizeSpaces(s)) == Words(s)
  {
    CollapseKeepsWords(s);
    TrimKeepsWords(CollapseSpaces(s));
  }

  lemma CollapsedNonSpace(s: string, i: nat)
    requires IsCollapsed(s) && i < |s| && s[i] != ' '
    ensures !IsJsSpace(s[i])
  {
  }

  /** On a collapsed text without a trailing space, `split(" ")` gives the words,
      preceded by one empty piece when the text is empty or starts with a space. */
  lemma {:induction false} SplitCollapsedWords(s: string)
    requires IsCollapsed(s) && (s == [] || s[|s| - 1] != ' ')
    ensures SplitOnSpace(s) == (if s == [] || s[0] == ' ' then [""] else []) + Words(s)
    decreases |s|
  {
    if s != [] {
      var t := s[1..];
      CollapsedSlice(s, 1, |s|);
      assert t == [] || t[|t| - 1] == s[|s| - 1];
      SplitCollapsedWords(t);
      if s[0] != ' ' {
        CollapsedNonSpace(s, 0);
        var rest := SplitOnSpace(t);
        assert SplitOnSpace(s) == [[s[0]] + rest[0]] + rest[1..];
        if t == [] {
          assert rest == [""] && Words(t) == [];
          assert [s[0]] + "" == [s[0]];
          assert Words(s) == [[s[0]]];
        } else if t[0] == ' ' {
          assert s[1] == t[0];
          assert rest == [""] + Words(t);
          assert rest[0] == "" && rest[1..] == Words(t);
          assert [s[0]] + "" == [s[0]];
          assert Words(s) == [[s[0]]] + Words(t);
        } else {
          assert s[1] == t[0];
          CollapsedNonSpace(t, 0);
          assert rest == Words(t);
          assert Words(s) == [[s[0]] + Words(t)[0]] + Words(t)[1..];
        }
      } else {
        assert t != [] && t[0] == s[1];
        assert !(s[0] == ' ' && s[1] == ' ');
        assert SplitOnSpace(t) == Words(t);
        assert SplitOnSpace(s) == [""] + SplitOnSpace(t);
        assert Words(s) == Words(t);
      }
    }
  }

  /** `text.replace(/\s+/g, " ").trim().split(" ")` is the list of the text's words
      whenever it has one; a text without words gives the single piece `""`. */
  lemma NormalizedSplitIsWords(s: string)
    ensures Words(s) != [] ==> SplitOnSpace(NormalizeSpaces(s)) == Words(s)
    ensures Words(s) == [] ==> SplitOnSpace(NormalizeSpaces(s)) == [""]
  {
    var n := NormalizeSpaces(s);
    NormalizeSpacesIsNormalized(s);
    NormalizeKeepsWords(s);
    SplitCollapsedWords(n);
    if n != [] {
      CollapsedNonSpace(n, 0);
    }
  }
}
