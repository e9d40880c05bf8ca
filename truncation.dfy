/** The preview helper of the saved-questions list: put the text on one
    line, and if it is longer than `n` cut it, preferably at a word
    boundary, and mark the cut with an ellipsis. */
module Truncation {
  import opened Text

  /** `trimStart`: drops the leading run of whitespace. */
  function TrimStart(s: string): (r: string)
    ensures |r| <= |s| && r == s[|s| - |r|..]
    ensures r == [] || !IsSpace(r[0])
    ensures forall i :: 0 <= i < |s| - |r| ==> IsSpace(s[i])
    ensures s != [] && IsSpace(s[0]) ==> |r| < |s|
  {
    if s != [] && IsSpace(s[0]) then TrimStart(s[1..]) else s
  }

  /** `trimEnd`: drops the trailing run of whitespace. */
  function TrimEnd(s: string): (r: string)
    ensures r <= s
    ensures r == [] || !IsSpace(r[|r| - 1])
    ensures forall i :: |r| <= i < |s| ==> IsSpace(s[i])
  {
    if s != [] && IsSpace(s[|s| - 1]) then TrimEnd(s[..|s| - 1]) else s
  }

  /** `trim`. */
  function Trim(s: string): string {
    TrimEnd(TrimStart(s))
  }

  /** The only whitespace is the plain space, and never two in a row. */
  predicate SingleSpaced(s: string) {
    && (forall i :: 0 <= i < |s| && IsSpace(s[i]) ==> s[i] == ' ')
    && (forall i :: 0 < i < |s| && s[i] == ' ' ==> s[i - 1] != ' ')
  }

  /** The shape of `text.replace(/\s+/g, ' ').trim()`: single spaces between
      words and none at either end. */
  predicate OneLine(s: string) {
    SingleSpaced(s) && (s != [] ==> !IsSpace(s[0]) && !IsSpace(s[|s| - 1]))
  }

  /** `replace(/\s+/g, ' ')`: each maximal run of whitespace becomes one space. */
  function CollapseWhitespace(s: string): (r: string)
    ensures |r| <= |s|
    ensures SingleSpaced(r)
    ensures s != [] ==> r != [] && r[0] == (if IsSpace(s[0]) then ' ' else s[0])
    decreases |s|
  {
    if s == [] then []
    else if IsSpace(s[0]) then " " + CollapseWhitespace(TrimStart(s))
    else [s[0]] + CollapseWhitespace(s[1..])
  }

  /** The non-whitespace characters of `s`, in order. */
  function Visible(s: string): string {
    if s == [] then [] else (if IsSpace(s[0]) then [] else [s[0]]) + Visible(s[1..])
  }

  lemma {:induction false} VisibleAppend(a: string, b: string)
    ensures Visible(a + b) == Visible(a) + Visible(b)
  {
    if a == [] {
      assert a + b == b;
    } else {
      var head := if IsSpace(a[0]) then [] else [a[0]];
      assert (a + b)[0] == a[0] && (a + b)[1..] == a[1..] + b;
      assert Visible(a + b) == head + Visible(a[1..] + b);
      VisibleAppend(a[1..], b);
      assert Visible(a) == head + Visible(a[1..]);
    }
  }

  lemma {:induction false} VisibleTrimStart(s: string)
    ensures Visible(TrimStart(s)) == Visible(s)
  {
    if s != [] && IsSpace(s[0]) {
      VisibleTrimStart(s[1..]);
    }
  }

  lemma {:induction false} VisibleTrimEnd(s: string)
    ensures Visible(TrimEnd(s)) == Visible(s)
  {
    if s != [] && IsSpace(s[|s| - 1]) {
      var init := s[..|s| - 1];
      VisibleTrimEnd(init);
      assert s == init + [s[|s| - 1]];
      VisibleAppend(init, [s[|s| - 1]]);
    }
  }

  lemma {:induction false} VisibleCollapse(s: string)
    ensures Visible(CollapseWhitespace(s)) == Visible(s)
    decreases |s|
  {
    if s != [] {
      if IsSpace(s[0]) {
        var rest := TrimStart(s);
        VisibleCollapse(rest);
        assert (" " + CollapseWhitespace(rest))[1..] == CollapseWhitespace(rest);
        VisibleTrimStart(s);
      } else {
        VisibleCollapse(s[1..]);
        assert ([s[0]] + CollapseWhitespace(s[1..]))[1..] == CollapseWhitespace(s[1..]);
      }
    }
  }

  /** Trimming a string that already starts with a non-space only drops
      trailing whitespace, so the result is a prefix. */
  lemma TrimOfUnindented(s: string)
    requires s == [] || !IsSpace(s[0])
    ensures Trim(s) == TrimEnd(s)
  {
  }

  /** `text.replace(/\s+/g, ' ').trim()`: the same words, on one line. */
  function Normalize(s: string): (r: string)
    ensures OneLine(r)
    ensures Visible(r) == Visible(s)
    ensures |r| <= |s|
  {
    var c := CollapseWhitespace(s);
    var t := TrimStart(c);
    VisibleCollapse(s);
    VisibleTrimStart(c);
    VisibleTrimEnd(t);
    SuffixSingleSpaced(c, |c| - |t|);
    TrimEndOneLine(t);
    TrimEnd(t)
  }

  /** Normalizing a string that is already on one line changes nothing. */
  lemma {:induction false} CollapseOneLine(s: string)
    requires SingleSpaced(s)
    ensures CollapseWhitespace(s) == s
    decreases |s|
  {
    if s != [] {
      SuffixSingleSpaced(s, 1);
      CollapseOneLine(s[1..]);
      if IsSpace(s[0]) {
        assert s[0] == ' ';
        if |s| > 1 {
          assert s[1] != ' ';
          assert !IsSpace(s[1]);
        }
        LoneSpace(s);
        CollapseSpaceHead(s);
      } else {
        CollapseWordHead(s);
      }
      assert s == [s[0]] + s[1..];
    }
  }

  /** A single space in front of a word is all that `trimStart` drops. */
  lemma LoneSpace(s: string)
    requires s != [] && IsSpace(s[0]) && (|s| == 1 || !IsSpace(s[1]))
    ensures TrimStart(s) == s[1..]
  {
    assert s[1..] == [] || !IsSpace(s[1..][0]);
  }

  lemma NormalizeIdempotent(s: string)
    ensures Normalize(Normalize(s)) == Normalize(s)
  {
    var r := Normalize(s);
    CollapseOneLine(r);
  }

  /** A string made of whitespace only. */
  predicate AllSpace(w: string) {
    forall i :: 0 <= i < |w| ==> IsSpace(w[i])
  }

  /** A whitespace run in front of a word is dropped whole by `trimStart`. */
  lemma {:induction false} TrimStartRun(w: string, b: string)
    requires AllSpace(w) && (b == [] || !IsSpace(b[0]))
    ensures TrimStart(w + b) == b
  {
    if w == [] {
      assert w + b == b;
    } else {
      assert (w + b)[0] == w[0];
      assert (w + b)[1..] == w[1..] + b;
      TrimStartRun(w[1..], b);
    }
  }

  /** `trimStart` on a string that still holds a word does not reach the
      text appended after it. */
  lemma {:induction false} TrimStartAppend(a: string, c: string)
    requires a != [] && !IsSpace(a[|a| - 1])
    ensures TrimStart(a + c) == TrimStart(a) + c
  {
    if IsSpace(a[0]) {
      assert (a + c)[0] == a[0];
      assert (a + c)[1..] == a[1..] + c;
      TrimStartAppend(a[1..], c);
    } else {
      assert (a + c)[0] == a[0];
    }
  }

  lemma CollapseSpaceHead(s: string)
    requires s != [] && IsSpace(s[0])
    ensures CollapseWhitespace(s) == " " + CollapseWhitespace(TrimStart(s))
  {
  }

  lemma CollapseWordHead(s: string)
    requires s != [] && !IsSpace(s[0])
    ensures CollapseWhitespace(s) == [s[0]] + CollapseWhitespace(s[1..])
  {
  }

  lemma Regroup(x: string, y: string, z: string, u: string)
    ensures x + (y + z + u) == x + y + z + u
  {
  }

  /** Collapsing text that ends in a word, followed by text that starts
      with whitespace: the two sides meet at one space. */
  lemma {:induction false} CollapseBeforeSpace(a: string, t: string)
    requires a == [] || !IsSpace(a[|a| - 1])
    requires t != [] && IsSpace(t[0])
    ensures CollapseWhitespace(a + t) == CollapseWhitespace(a) + " " + CollapseWhitespace(TrimStart(t))
    decreases |a|, 1
  {
    if a == [] {
      assert a + t == t;
      CollapseSpaceHead(t);
    } else if IsSpace(a[0]) {
      BeforeSpaceAfterRun(a, t);
    } else {
      BeforeSpaceAfterWord(a, t);
    }
  }

  lemma {:induction false} BeforeSpaceAfterRun(a: string, t: string)
    requires a != [] && IsSpace(a[0]) && !IsSpace(a[|a| - 1])
    requires t != [] && IsSpace(t[0])
    ensures CollapseWhitespace(a + t) == CollapseWhitespace(a) + " " + CollapseWhitespace(TrimStart(t))
    decreases |a|, 0
  {
    var rest := TrimStart(a);
    EndsInWord(a);
    CollapseBeforeSpace(rest, t);
    SpaceHeadStep(a, rest, t);
  }

  lemma {:induction false} BeforeSpaceAfterWord(a: string, t: string)
    requires a != [] && !IsSpace(a[0]) && !IsSpace(a[|a| - 1])
    requires t != [] && IsSpace(t[0])
    ensures CollapseWhitespace(a + t) == CollapseWhitespace(a) + " " + CollapseWhitespace(TrimStart(t))
    decreases |a|, 0
  {
    assert a[1..] == [] || a[1..][|a[1..]| - 1] == a[|a| - 1];
    CollapseBeforeSpace(a[1..], t);
    WordHeadStep(a, t);
  }

  /** `trimStart` leaves a word-ending string non-empty, still ending in the
      same character. */
  lemma EndsInWord(a: string)
    requires a != [] && !IsSpace(a[|a| - 1])
    ensures var rest := TrimStart(a); rest != [] && rest[|rest| - 1] == a[|a| - 1]
  {
    var rest := TrimStart(a);
    assert !(|a| - 1 < |a| - |rest|);
  }

  lemma SpaceHeadStep(a: string, rest: string, t: string)
    requires a != [] && IsSpace(a[0]) && !IsSpace(a[|a| - 1]) && rest == TrimStart(a)
    requires CollapseWhitespace(rest + t) == CollapseWhitespace(rest) + " " + CollapseWhitespace(TrimStart(t))
    ensures CollapseWhitespace(a + t) == CollapseWhitespace(a) + " " + CollapseWhitespace(TrimStart(t))
  {
    var x, tail := CollapseWhitespace(rest), CollapseWhitespace(TrimStart(t));
    TrimStartAppend(a, t);
    ConsAppend(a, t);
    CollapseSpaceHead(a + t);
    assert CollapseWhitespace(a + t) == " " + (x + " " + tail);
    CollapseSpaceHead(a);
    Regroup(" ", x, " ", tail);
  }

  lemma WordHeadStep(a: string, t: string)
    requires a != [] && !IsSpace(a[0])
    requires CollapseWhitespace(a[1..] + t) == CollapseWhitespace(a[1..]) + " " + CollapseWhitespace(TrimStart(t))
    ensures CollapseWhitespace(a + t) == CollapseWhitespace(a) + " " + CollapseWhitespace(TrimStart(t))
  {
    var x, tail := CollapseWhitespace(a[1..]), CollapseWhitespace(TrimStart(t));
    ConsAppend(a, t);
    CollapseWordHead(a + t);
    assert CollapseWhitespace(a + t) == [a[0]] + (x + " " + tail);
    CollapseWordHead(a);
    Regroup([a[0]], x, " ", tail);
  }

  lemma ConsAppend(a: string, t: string)
    requires a != []
    ensures (a + t)[0] == a[0] && (a + t)[1..] == a[1..] + t
  {
  }

  /** The rule `replace(/\s+/g, ' ')` between two words: the whole
      whitespace run `w` becomes exactly one space, and each side is
      collapsed on its own. */
  lemma CollapseBetweenWords(a: string, w: string, b: string)
    requires a == [] || !IsSpace(a[|a| - 1])
    requires w != [] && AllSpace(w)
    requires b == [] || !IsSpace(b[0])
    ensures CollapseWhitespace(a + w + b) == CollapseWhitespace(a) + " " + CollapseWhitespace(b)
  {
    SplitRun(a, w, b);
    CollapseBeforeSpace(a, w + b);
  }

  lemma SplitRun(a: string, w: string, b: string)
    requires w != [] && AllSpace(w)
    requires b == [] || !IsSpace(b[0])
    ensures a + w + b == a + (w + b)
    ensures w + b != [] && IsSpace((w + b)[0]) && TrimStart(w + b) == b
  {
    TrimStartRun(w, b);
    assert (w + b)[0] == w[0];
  }

  /** The collapsed text ends in a space exactly when the input ends in
      whitespace, and otherwise in the input's last character. */
  lemma {:induction false} CollapseLast(s: string)
    requires s != []
    ensures var c := CollapseWhitespace(s);
      c[|c| - 1] == if IsSpace(s[|s| - 1]) then ' ' else s[|s| - 1]
    decreases |s|
  {
    if IsSpace(s[0]) {
      var rest := TrimStart(s);
      if rest == [] {
        SpacesOnly(s);
      } else {
        CollapseLast(rest);
        SpaceLastStep(s, rest);
      }
    } else if |s| == 1 {
      assert CollapseWhitespace(s) == [s[0]];
    } else {
      CollapseLast(s[1..]);
      WordLastStep(s);
    }
  }

  lemma SpacesOnly(s: string)
    requires s != [] && IsSpace(s[0]) && TrimStart(s) == []
    ensures CollapseWhitespace(s) == " " && IsSpace(s[|s| - 1])
  {
    CollapseSpaceHead(s);
    assert |s| - 1 < |s| - |TrimStart(s)|;
  }

  lemma SpaceLastStep(s: string, rest: string)
    requires s != [] && IsSpace(s[0]) && rest == TrimStart(s) && rest != []
    requires var c := CollapseWhitespace(rest);
      c[|c| - 1] == if IsSpace(rest[|rest| - 1]) then ' ' else rest[|rest| - 1]
    ensures var c := CollapseWhitespace(s);
      c[|c| - 1] == if IsSpace(s[|s| - 1]) then ' ' else s[|s| - 1]
  {
    var x := CollapseWhitespace(rest);
    CollapseSpaceHead(s);
    assert CollapseWhitespace(s) == " " + x;
    assert x != [];
    LastOfAppend(" ", x);
    assert rest == s[|s| - |rest|..];
    assert rest[|rest| - 1] == s[|s| - 1];
  }

  lemma WordLastStep(s: string)
    requires |s| > 1 && !IsSpace(s[0])
    requires var c := CollapseWhitespace(s[1..]);
      c[|c| - 1] == if IsSpace(s[|s| - 1]) then ' ' else s[|s| - 1]
    ensures var c := CollapseWhitespace(s);
      c[|c| - 1] == if IsSpace(s[|s| - 1]) then ' ' else s[|s| - 1]
  {
    var x := CollapseWhitespace(s[1..]);
    CollapseWordHead(s);
    LastOfAppend([s[0]], x);
  }

  lemma LastOfAppend(x: string, y: string)
    requires y != []
    ensures (x + y)[|x + y| - 1] == y[|y| - 1]
  {
  }

  /** For a piece of text that starts and ends with a word, normalizing
      only collapses whitespace. */
  lemma NormalizeOfWords(a: string)
    requires a != [] && !IsSpace(a[0]) && !IsSpace(a[|a| - 1])
    ensures Normalize(a) == CollapseWhitespace(a)
  {
    CollapseLast(a);
    TrimOfCut(CollapseWhitespace(a));
  }

  /** Two pieces of text that start and end with a word, joined by any run
      of whitespace, normalize to the two normalized pieces with a single
      space between them. */
  lemma NormalizeJoin(a: string, w: string, b: string)
    requires a != [] && !IsSpace(a[0]) && !IsSpace(a[|a| - 1])
    requires w != [] && AllSpace(w)
    requires b != [] && !IsSpace(b[0]) && !IsSpace(b[|b| - 1])
    ensures Normalize(a + w + b) == Normalize(a) + " " + Normalize(b)
  {
    JoinEnds(a, w, b);
    NormalizeOfWords(a + w + b);
    CollapseBetweenWords(a, w, b);
    NormalizeOfWords(a);
    NormalizeOfWords(b);
  }

  lemma JoinEnds(a: string, w: string, b: string)
    requires a != [] && b != []
    ensures (a + w + b)[0] == a[0] && (a + w + b)[|a + w + b| - 1] == b[|b| - 1]
  {
  }

  lemma PrefixSingleSpaced(s: string, k: nat)
    requires SingleSpaced(s) && k <= |s|
    ensures SingleSpaced(s[..k])
  {
    assert forall i :: 0 <= i < k ==> s[..k][i] == s[i];
  }

  lemma SuffixSingleSpaced(s: string, k: nat)
    requires SingleSpaced(s) && k <= |s|
    ensures SingleSpaced(s[k..])
  {
    assert forall i :: 0 <= i < |s| - k ==> s[k..][i] == s[k + i];
  }

  /** Trimming the end of a single-spaced string that starts with a word
      leaves a string on one line. */
  lemma TrimEndOneLine(s: string)
    requires SingleSpaced(s) && (s == [] || !IsSpace(s[0]))
    ensures OneLine(TrimEnd(s))
  {
    PrefixSingleSpaced(s, |TrimEnd(s)|);
  }

  /** The cut that `truncate` makes in a line longer than `n`. */
  function CutLine(line: string, n: nat): (body: string)
    requires OneLine(line) && |line| > n
    ensures body <= line[..n]
    ensures OneLine(body)
  {
    var cut := line[..n];
    var lastSpace := LastIndexOf(cut, ' ');
    var kept := if lastSpace > (3 * n) / 5 then cut[..lastSpace] else cut;
    assert kept == line[..|kept|];
    PrefixSingleSpaced(line, |kept|);
    TrimOfUnindented(kept);
    TrimEndOneLine(kept);
    Trim(kept)
  }

  /** The preview of `text` in at most `n` characters plus an ellipsis
      (the list calls it with `n = 120`). `Math.floor(n * 0.6)` is written
      `(3 * n) / 5`. */
  function Truncate(text: string, n: nat): (r: string)
    ensures text == [] ==> r == []
    ensures |Normalize(text)| <= n ==> r == Normalize(text)
    ensures |Normalize(text)| > n ==>
      && |r| >= 3 && r[|r| - 3..] == "..."
      && r[..|r| - 3] <= Normalize(text)[..n]
      && OneLine(r[..|r| - 3])
      && |r| <= n + 3
  {
    if text == [] then []
    else
      var line := Normalize(text);
      if |line| <= n then line
      else
        var body := CutLine(line, n);
        assert (body + "...")[..|body| + 3 - 3] == body;
        body + "..."
  }

  lemma CutAtWordBoundary(line: string, n: nat)
    requires OneLine(line) && |line| > n
    requires LastIndexOf(line[..n], ' ') > (3 * n) / 5
    ensures var k := LastIndexOf(line[..n], ' ');
      line[k] == ' ' && CutLine(line, n) == line[..k]
  {
    var k := LastIndexOf(line[..n], ' ');
    assert line[k] == ' ';
    assert !IsSpace(line[k - 1]);
    var kept := line[..n][..k];
    assert kept == line[..k];
    assert TrimStart(kept) == kept;
    assert TrimEnd(kept) == kept;
  }

  /** Trimming a string that starts with a word and ends either in a word
      or in one space after a word drops at most that space. */
  lemma TrimOfCut(cut: string)
    requires cut == [] || !IsSpace(cut[0])
    requires cut == [] || cut[|cut| - 1] == ' ' || !IsSpace(cut[|cut| - 1])
    requires |cut| < 2 || cut[|cut| - 1] != ' ' || !IsSpace(cut[|cut| - 2])
    ensures Trim(cut) == if cut != [] && cut[|cut| - 1] == ' ' then cut[..|cut| - 1] else cut
  {
    assert TrimStart(cut) == cut;
    if cut != [] && cut[|cut| - 1] == ' ' {
      var init := cut[..|cut| - 1];
      assert TrimEnd(cut) == TrimEnd(init);
      assert init == [] || !IsSpace(init[|init| - 1]);
    }
  }

  lemma HardCut(line: string, n: nat)
    requires OneLine(line) && |line| > n
    requires LastIndexOf(line[..n], ' ') <= (3 * n) / 5
    ensures CutLine(line, n) == if n > 0 && line[n - 1] == ' ' then line[..n - 1] else line[..n]
  {
    var cut := line[..n];
    assert CutLine(line, n) == Trim(cut);
    CutEnds(line, n);
    TrimOfCut(cut);
  }

  /** Any prefix of a line starts with a word and ends in a word or in
      one space after a word. */
  lemma CutEnds(line: string, n: nat)
    requires OneLine(line) && |line| > n
    ensures var cut := line[..n];
      && (cut == [] || !IsSpace(cut[0]))
      && (cut == [] || cut[|cut| - 1] == ' ' || !IsSpace(cut[|cut| - 1]))
      && (|cut| < 2 || cut[|cut| - 1] != ' ' || !IsSpace(cut[|cut| - 2]))
  {
    if n > 0 {
      assert IsSpace(line[n - 1]) ==> line[n - 1] == ' ';
    }
    if n > 1 {
      assert line[n - 1] != ' ' || line[n - 2] != ' ';
      assert IsSpace(line[n - 2]) ==> line[n - 2] == ' ';
    }
  }

  /** When the last space of the first `n` characters lies past 60% of
      `n`, the preview stops exactly at that space: a whole number of words. */
  lemma TruncateAtWordBoundary(text: string, n: nat)
    requires |Normalize(text)| > n
    requires LastIndexOf(Normalize(text)[..n], ' ') > (3 * n) / 5
    ensures var k := LastIndexOf(Normalize(text)[..n], ' ');
      && Normalize(text)[k] == ' '
      && Truncate(text, n) == Normalize(text)[..k] + "..."
  {
    CutAtWordBoundary(Normalize(text), n);
  }

  /** Otherwise the preview is the first `n` characters, less a trailing
      space if the cut fell just after a word. */
  lemma TruncateHardCut(text: string, n: nat)
    requires |Normalize(text)| > n
    requires LastIndexOf(Normalize(text)[..n], ' ') <= (3 * n) / 5
    ensures var line := Normalize(text);
      Truncate(text, n) ==
        (if n > 0 && line[n - 1] == ' ' then line[..n - 1] else line[..n]) + "..."
  {
    HardCut(Normalize(text), n);
  }
}
