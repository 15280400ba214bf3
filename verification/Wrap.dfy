// Breaking text into printed lines. A string is a sequence of runes.
module Wrap {
  const DefaultWidth: nat := 32

  function EffectiveWidth(width: int): (w: nat)
    ensures w >= 1
  {
    if width <= 0 then DefaultWidth else width
  }

  // strings.TrimRight(s, " ")
  function TrimRight(s: string): (t: string)
    ensures |t| <= |s|
  {
    if s != "" && s[|s| - 1] == ' ' then TrimRight(s[..|s| - 1]) else s
  }

  function TrimLeft(s: string): (t: string)
    ensures |t| <= |s| && (t != "" ==> t[0] != ' ')
  {
    if s != "" && s[0] == ' ' then TrimLeft(s[1..]) else s
  }

  // The last space at or before position i, not counting position 0; `otherwise` if there is none.
  function LastSpace(s: string, i: nat, otherwise: nat): (cut: nat)
    requires i < |s|
    ensures cut == otherwise || (1 <= cut <= i && s[cut] == ' ')
  {
    if i == 0 then otherwise else if s[i] == ' ' then i else LastSpace(s, i - 1, otherwise)
  }

  // The lines of one paragraph.
  function WrapParagraph(s: string, width: nat): seq<string>
    requires width >= 1
    decreases |s|
  {
    if s == "" then []
    else if |s| <= width then [s]
    else
      var cut := LastSpace(s, width, width);
      [TrimRight(s[..cut])] + WrapParagraph(TrimLeft(s[cut..]), width)
  }

  // strings.Split(s, "\n")
  function Paragraphs(s: string): (ps: seq<string>)
    ensures |ps| >= 1
    decreases |s|
  {
    var n := LineLength(s);
    if n == |s| then [s] else [s[..n]] + Paragraphs(s[n + 1..])
  }

  function LineLength(s: string): (n: nat)
    ensures n <= |s| && (n < |s| ==> s[n] == '\n') && forall i | 0 <= i < n :: s[i] != '\n'
  {
    if s == "" || s[0] == '\n' then 0 else 1 + LineLength(s[1..])
  }

  function ParagraphLines(p: string, width: nat): (lines: seq<string>)
    requires width >= 1
    ensures |lines| >= 1
  {
    if p == "" then [""] else WrapParagraph(p, width)
  }

  function WrapAll(ps: seq<string>, width: nat): seq<string>
    requires width >= 1
  {
    if ps == [] then [] else ParagraphLines(ps[0], width) + WrapAll(ps[1..], width)
  }

  function WrapLines(s: string, width: int): seq<string> {
    WrapAll(Paragraphs(s), EffectiveWidth(width))
  }

  // ---- the loops ----

  // wrap's inner loop over one paragraph.
  method WrapOne(para: string, width: nat) returns (lines: seq<string>)
    requires width >= 1
    ensures lines == ParagraphLines(para, width)
  {
    if para == "" {
      return [""];
    }
    lines := [];
    var runes := para;
    while |runes| > 0
      invariant lines + WrapParagraph(runes, width) == WrapParagraph(para, width)
      decreases |runes|
    {
      if |runes| <= width {
        lines := lines + [runes];
        return;
      }
      var cut := FindCut(runes, width);
      var rest := SkipSpaces(runes[cut..]);
      ghost var before := lines;
      lines := lines + [TrimRight(runes[..cut])];
      assert before + ([TrimRight(runes[..cut])] + WrapParagraph(rest, width)) == lines + WrapParagraph(rest, width);
      runes := rest;
    }
  }

  method FindCut(runes: string, width: nat) returns (cut: nat)
    requires 1 <= width < |runes|
    ensures cut == LastSpace(runes, width, width)
  {
    cut := width;
    var i := width;
    while i > 0
      invariant i <= width && cut == width
      invariant LastSpace(runes, width, width) == LastSpace(runes, i, width)
    {
      if runes[i] == ' ' {
        return i;
      }
      i := i - 1;
    }
  }

  method SkipSpaces(runes: string) returns (rest: string)
    ensures rest == TrimLeft(runes)
  {
    rest := runes;
    while |rest| > 0 && rest[0] == ' '
      invariant TrimLeft(rest) == TrimLeft(runes)
      decreases |rest|
    {
      rest := rest[1..];
    }
  }

  method WrapText(s: string, width: int) returns (lines: seq<string>)
    ensures lines == WrapLines(s, width) && |lines| >= 1
  {
    var w := if width <= 0 then DefaultWidth else width;
    var ps := Paragraphs(s);
    hide WrapAll, ParagraphLines, Paragraphs;
    lines := [];
    assert ps[0..] == ps;
    for i := 0 to |ps|
      invariant lines + WrapAll(ps[i..], w) == WrapAll(ps, w)
      invariant i > 0 ==> |lines| >= 1
    {
      var more := WrapOne(ps[i], w);
      WrapAllStep(ps, i, w);
      Regroup(lines, more, WrapAll(ps[i + 1..], w));
      lines := lines + more;
    }
    WrapAllDone(ps, w);
  }

  lemma WrapAllStep(ps: seq<string>, i: nat, width: nat)
    requires width >= 1 && i < |ps|
    ensures WrapAll(ps[i..], width) == ParagraphLines(ps[i], width) + WrapAll(ps[i + 1..], width)
  {
    assert ps[i..][1..] == ps[i + 1..];
  }

  lemma WrapAllDone(ps: seq<string>, width: nat)
    requires width >= 1
    ensures WrapAll(ps[|ps|..], width) == []
  {
  }

  // ---- how long lines are ----

  lemma {:induction false} ParagraphFits(s: string, width: nat)
    requires width >= 1
    ensures forall l | l in WrapParagraph(s, width) :: |l| <= width
    decreases |s|
  {
    if |s| > width {
      ParagraphFits(TrimLeft(s[LastSpace(s, width, width)..]), width);
    }
  }

  lemma {:induction false} AllFit(ps: seq<string>, width: nat)
    requires width >= 1
    ensures forall l | l in WrapAll(ps, width) :: |l| <= width
    ensures |WrapAll(ps, width)| >= |ps|
  {
    if ps != [] {
      ParagraphFits(ps[0], width);
      AllFit(ps[1..], width);
    }
  }

  // Every text has a line, no line is longer than the width, and a text has at least as many
  // lines as paragraphs.
  lemma LinesFit(s: string, width: int)
    ensures |WrapLines(s, width)| >= |Paragraphs(s)| >= 1
    ensures forall l | l in WrapLines(s, width) :: |l| <= if width <= 0 then 32 else width
  {
    AllFit(Paragraphs(s), EffectiveWidth(width));
  }

  lemma Regroup<T>(a: seq<T>, b: seq<T>, c: seq<T>)
    ensures a + (b + c) == a + b + c
  {
  }

  // ---- nothing but spaces is lost ----

  function Ink(s: string): string {
    if s == "" then "" else Ink(s[..|s| - 1]) + if s[|s| - 1] in {' ', '\n'} then "" else [s[|s| - 1]]
  }

  function InkOf(lines: seq<string>): string {
    if lines == [] then "" else Ink(lines[0]) + InkOf(lines[1..])
  }

  lemma {:induction false} InkConcat(a: string, b: string)
    ensures Ink(a + b) == Ink(a) + Ink(b)
  {
    if b == "" {
      assert a + b == a;
    } else {
      InkConcat(a, b[..|b| - 1]);
      assert (a + b)[..|a + b| - 1] == a + b[..|b| - 1];
    }
  }

  lemma {:induction false} InkOfConcat(a: seq<string>, b: seq<string>)
    ensures InkOf(a + b) == InkOf(a) + InkOf(b)
  {
    if a == [] {
      assert a + b == b;
    } else {
      InkOfConcat(a[1..], b);
      assert (a + b)[1..] == a[1..] + b && (a + b)[0] == a[0];
      Regroup(Ink(a[0]), InkOf(a[1..]), InkOf(b));
    }
  }

  lemma {:induction false} InkTrimRight(s: string)
    ensures Ink(TrimRight(s)) == Ink(s)
  {
    if s != "" && s[|s| - 1] == ' ' {
      InkTrimRight(s[..|s| - 1]);
    }
  }

  lemma {:induction false} InkTrimLeft(s: string)
    ensures Ink(TrimLeft(s)) == Ink(s)
  {
    if s != "" && s[0] == ' ' {
      InkTrimLeft(s[1..]);
      InkConcat(s[..1], s[1..]);
      assert s == s[..1] + s[1..];
      assert s[..1][..0] == "";
    }
  }

  lemma {:induction false} ParagraphKeepsInk(s: string, width: nat)
    requires width >= 1
    ensures InkOf(WrapParagraph(s, width)) == Ink(s)
    decreases |s|
  {
    if s == "" {
    } else if |s| <= width {
      assert InkOf([s]) == Ink(s) + InkOf([]);
    } else {
      var cut := LastSpace(s, width, width);
      ParagraphKeepsInk(TrimLeft(s[cut..]), width);
      InkTrimRight(s[..cut]);
      InkTrimLeft(s[cut..]);
      InkConcat(s[..cut], s[cut..]);
      assert s == s[..cut] + s[cut..];
    }
  }

  lemma {:induction false} WrapAllKeepsInk(ps: seq<string>, width: nat)
    requires width >= 1
    ensures InkOf(WrapAll(ps, width)) == InkOf(ps)
  {
    if ps != [] {
      ParagraphKeepsInk(ps[0], width);
      WrapAllKeepsInk(ps[1..], width);
      InkOfConcat(ParagraphLines(ps[0], width), WrapAll(ps[1..], width));
      assert ps[0] == "" ==> InkOf([""]) == Ink("") + InkOf([]);
    }
  }

  lemma InkOfCons(l: string, rest: seq<string>)
    ensures InkOf([l] + rest) == Ink(l) + InkOf(rest)
  {
    assert ([l] + rest)[1..] == rest;
  }

  lemma InkOfBreak(a: string, b: string)
    ensures Ink(a + "\n" + b) == Ink(a) + Ink(b)
  {
    InkConcat(a + "\n", b);
    assert (a + "\n")[..|a|] == a;
  }

  lemma {:induction false} ParagraphsKeepInk(s: string)
    ensures InkOf(Paragraphs(s)) == Ink(s)
    decreases |s|
  {
    hide Ink, InkOf;
    var n := LineLength(s);
    if n == |s| {
      InkOfCons(s, []);
      assert [s] + [] == [s];
      InkOfNothing();
    } else {
      ParagraphsKeepInk(s[n + 1..]);
      InkOfCons(s[..n], Paragraphs(s[n + 1..]));
      assert s == s[..n] + "\n" + s[n + 1..];
      InkOfBreak(s[..n], s[n + 1..]);
    }
  }

  lemma InkOfNothing()
    ensures InkOf([]) == ""
  {
  }

  // The printed lines hold the same characters in the same order, spaces and line breaks aside.
  lemma WrapKeepsInk(s: string, width: int)
    ensures InkOf(WrapLines(s, width)) == Ink(s)
  {
    WrapAllKeepsInk(Paragraphs(s), EffectiveWidth(width));
    ParagraphsKeepInk(s);
  }

  // Joined by line breaks.
  function Joined(ps: seq<string>): string {
    if ps == [] then "" else if |ps| == 1 then ps[0] else ps[0] + "\n" + Joined(ps[1..])
  }

  // The paragraphs are the text between its line breaks, the empty ones included.
  lemma {:induction false} ParagraphsJoin(s: string)
    ensures Joined(Paragraphs(s)) == s && forall p | p in Paragraphs(s) :: '\n' !in p
    decreases |s|
  {
    hide LineLength;
    var n := LineLength(s);
    if n < |s| {
      var rest := Paragraphs(s[n + 1..]);
      ParagraphsJoin(s[n + 1..]);
      assert Paragraphs(s)[1..] == rest && Paragraphs(s)[0] == s[..n];
      assert s == s[..n] + "\n" + s[n + 1..];
    }
  }

  // ---- words ----

  function WordLength(s: string): (n: nat)
    ensures n <= |s| && (n < |s| ==> s[n] == ' ') && forall i | 0 <= i < n :: s[i] != ' '
  {
    if s == "" || s[0] == ' ' then 0 else 1 + WordLength(s[1..])
  }

  // The words of a line, separated by spaces.
  function Words(s: string): seq<string>
    decreases |s|
  {
    if s == "" then []
    else if s[0] == ' ' then Words(s[1..])
    else
      var n := WordLength(s);
      [s[..n]] + Words(s[n..])
  }

  function WordsOf(lines: seq<string>): seq<string> {
    if lines == [] then [] else Words(lines[0]) + WordsOf(lines[1..])
  }

  // A word as it has to be printed: whole if it fits, otherwise in pieces of the full width.
  function Chop(w: string, width: nat): seq<string>
    requires width >= 1
    decreases |w|
  {
    if |w| <= width then [w] else [w[..width]] + Chop(w[width..], width)
  }

  function ChopAll(ws: seq<string>, width: nat): seq<string>
    requires width >= 1
  {
    if ws == [] then [] else Chop(ws[0], width) + ChopAll(ws[1..], width)
  }

  lemma {:induction false} ChopAllConcat(a: seq<string>, b: seq<string>, width: nat)
    requires width >= 1
    ensures ChopAll(a + b, width) == ChopAll(a, width) + ChopAll(b, width)
  {
    if a == [] {
      assert a + b == b;
    } else {
      ChopAllConcat(a[1..], b, width);
      assert (a + b)[1..] == a[1..] + b && (a + b)[0] == a[0];
      Regroup(Chop(a[0], width), ChopAll(a[1..], width), ChopAll(b, width));
    }
  }

  // Words are short in a short line, so nothing in it is chopped.
  lemma {:induction false} ShortWords(s: string, width: nat)
    requires width >= 1 && |s| <= width
    ensures ChopAll(Words(s), width) == Words(s)
    decreases |s|
  {
    if s == "" {
    } else if s[0] == ' ' {
      ShortWords(s[1..], width);
    } else {
      var n := WordLength(s);
      ShortWords(s[n..], width);
      assert ([s[..n]] + Words(s[n..]))[1..] == Words(s[n..]);
    }
  }

  ghost predicate Solid(w: string) {
    w != "" && forall i | 0 <= i < |w| :: w[i] != ' '
  }

  ghost predicate Apart(b: string) {
    b == "" || b[0] == ' '
  }

  // A word and what follows it after a space.
  lemma WordsCons(w: string, rest: string)
    requires Solid(w) && Apart(rest)
    ensures Words(w + rest) == [w] + Words(rest)
  {
    WordLengthIs(w + rest, |w|);
    assert (w + rest)[..|w|] == w && (w + rest)[|w|..] == rest;
  }

  lemma FirstWord(s: string) returns (w: string, rest: string)
    requires s != "" && s[0] != ' '
    ensures s == w + rest && |w| == WordLength(s) && Solid(w) && Apart(rest) && Words(s) == [w] + Words(rest)
  {
    var n := WordLength(s);
    w, rest := s[..n], s[n..];
  }

  // A space separates words, so the words of both sides are the words of the whole.
  lemma {:induction false} WordsConcat(a: string, b: string)
    requires Apart(b)
    ensures Words(a + b) == Words(a) + Words(b)
    decreases |a|
  {
    if a == "" {
      assert a + b == b;
    } else if a[0] == ' ' {
      WordsConcat(a[1..], b);
      assert (a + b)[1..] == a[1..] + b;
    } else {
      var w, rest := FirstWord(a);
      hide Words, Solid, WordLength;
      WordsConcat(rest, b);
      assert Apart(rest + b);
      WordsCons(w, rest + b);
      Regroup(w, rest, b);
      Regroup([w], Words(rest), Words(b));
    }
  }

  lemma {:induction false} WordsTrimRight(s: string)
    ensures Words(TrimRight(s)) == Words(s)
  {
    if s != "" && s[|s| - 1] == ' ' {
      var n := |s| - 1;
      WordsTrimRight(s[..n]);
      assert s == s[..n] + s[n..] && s[n..][1..] == "";
      WordsConcat(s[..n], s[n..]);
    }
  }

  lemma {:induction false} WordsTrimLeft(s: string)
    ensures Words(TrimLeft(s)) == Words(s)
  {
    if s != "" && s[0] == ' ' {
      WordsTrimLeft(s[1..]);
    }
  }

  lemma WordAtLeast(s: string, n: nat)
    requires n <= |s| && forall i | 0 <= i < n :: s[i] != ' '
    ensures WordLength(s) >= n
  {
  }

  // The first line, cut at a space.
  lemma CutAtSpace(s: string, cut: nat, width: nat)
    requires 1 <= cut <= width < |s| && s[cut] == ' '
    ensures ChopAll(Words(s), width) == Words(TrimRight(s[..cut])) + ChopAll(Words(TrimLeft(s[cut..])), width)
  {
    assert s == s[..cut] + s[cut..];
    WordsConcat(s[..cut], s[cut..]);
    ChopAllConcat(Words(s[..cut]), Words(s[cut..]), width);
    ShortWords(s[..cut], width);
    WordsTrimRight(s[..cut]);
    WordsTrimLeft(s[cut..]);
  }

  // The first line, cut inside a word longer than the width.
  lemma CutInWord(s: string, width: nat)
    requires 1 <= width < |s| && forall i | 0 <= i <= width :: s[i] != ' '
    ensures ChopAll(Words(s), width) == Words(TrimRight(s[..width])) + ChopAll(Words(TrimLeft(s[width..])), width)
  {
    var w, tail := LongWord(s, width);
    assert s[width..][0] == s[width];
    assert TrimLeft(s[width..]) == s[width..];
    assert s[..width] == w[..width];
    WordLengthIs(s[..width], width);
    OneWord(s[..width]);
    hide Words, TrimLeft, TrimRight;
    ChopCons(w, tail, width);
    ChopCons(w[width..], tail, width);
    Regroup([w[..width]], Chop(w[width..], width), ChopAll(tail, width));
  }

  lemma ChopCons(w: string, tail: seq<string>, width: nat)
    requires width >= 1
    ensures ChopAll([w] + tail, width) == Chop(w, width) + ChopAll(tail, width)
  {
    assert ([w] + tail)[1..] == tail;
  }

  // A word that goes on past the width: what stays of it and of the rest of the text.
  lemma LongWord(s: string, width: nat) returns (w: string, tail: seq<string>)
    requires 1 <= width < |s| && forall i | 0 <= i <= width :: s[i] != ' '
    ensures |w| > width && s[..width] == w[..width]
    ensures Words(s) == [w] + tail && Words(s[width..]) == [w[width..]] + tail
  {
    WordAtLeast(s, width + 1);
    var rest: string;
    w, rest := FirstWord(s);
    tail := Words(rest);
    assert s[width..] == w[width..] + rest;
    hide Words, WordLength;
    WordsCons(w[width..], rest);
  }

  lemma WordLengthIs(s: string, n: nat)
    requires n <= |s| && (forall i | 0 <= i < n :: s[i] != ' ') && (n < |s| ==> s[n] == ' ')
    ensures WordLength(s) == n
  {
  }

  lemma OneWord(s: string)
    requires s != "" && WordLength(s) == |s|
    ensures Words(s) == [s] && TrimRight(s) == s
  {
    assert s[..|s|] == s && s[|s|..] == "";
  }

  // ---- which words are split ----

  // A paragraph that starts with a space and then has no other within reach of the first line:
  // its first word is cut one rune early.
  predicate Sheared(s: string, width: nat) {
    |s| > width >= 2 && s[0] == ' ' && forall i | 1 <= i <= width :: s[i] != ' '
  }

  lemma {:induction false} WordsAreChopped(s: string, width: nat)
    requires width >= 1 && !Sheared(s, width)
    ensures WordsOf(WrapParagraph(s, width)) == ChopAll(Words(s), width)
    decreases |s|
  {
    if s == "" {
    } else if |s| <= width {
      ShortWords(s, width);
      assert WordsOf([s]) == Words(s) + WordsOf([]);
    } else {
      var cut := LastSpace(s, width, width);
      WordsAreChopped(TrimLeft(s[cut..]), width);
      if s[cut] == ' ' {
        CutAtSpace(s, cut, width);
      } else {
        NoSpaceWithin(s, width);
        if s[0] == ' ' {
          assert width == 1 && s[..1] == " " && TrimRight(" ") == "";
          WordsTrimLeft(s[1..]);
        } else {
          CutInWord(s, width);
        }
      }
    }
  }

  lemma {:induction false} NoSpaceFrom(s: string, i: nat, otherwise: nat)
    requires i < |s| && i <= otherwise < |s| && s[LastSpace(s, i, otherwise)] != ' '
    ensures LastSpace(s, i, otherwise) == otherwise && forall j | 1 <= j <= i :: s[j] != ' '
  {
    if i > 0 {
      NoSpaceFrom(s, i - 1, otherwise);
    }
  }

  lemma NoSpaceWithin(s: string, width: nat)
    requires 1 <= width < |s| && s[LastSpace(s, width, width)] != ' '
    ensures LastSpace(s, width, width) == width && forall j | 1 <= j <= width :: s[j] != ' '
  {
    NoSpaceFrom(s, width, width);
  }

  lemma {:induction false} NoSpaceMeansWidth(s: string, i: nat, otherwise: nat)
    requires i < |s| && forall j | 1 <= j <= i :: s[j] != ' '
    ensures LastSpace(s, i, otherwise) == otherwise
  {
    if i > 0 {
      NoSpaceMeansWidth(s, i - 1, otherwise);
    }
  }

  lemma FirstWordSheared(s: string, width: nat)
    requires Sheared(s, width)
    ensures WordsOf(WrapParagraph(s, width)) != ChopAll(Words(s), width)
  {
    NoSpaceMeansWidth(s, width, width);
    var first := s[..width];
    var w := s[1..];
    var n := WordLength(w);
    WordAtLeast(w, width);
    assert Words(s) == [w[..n]] + Words(w[n..]);
    assert |ChopAll(Words(s), width)[0]| == width;
    EndsInWord(first);
    assert first[1..] != "" && first[1..][0] != ' ';
    WordLengthIs(first[1..], width - 1);
    OneWord(first[1..]);
    assert Words(first) == [first[1..]];
    assert WordsOf(WrapParagraph(s, width))[0] == first[1..];
  }

  lemma EndsInWord(s: string)
    requires s != "" && s[|s| - 1] != ' '
    ensures TrimRight(s) == s
  {
  }

  // The words on the printed lines are the words of the paragraph, each whole if it fits in a
  // line and otherwise in full-width pieces - exactly when the paragraph is not sheared, so in
  // particular when it does not start with a space.
  lemma WordsKeptExactly(s: string, width: nat)
    requires width >= 1
    ensures WordsOf(WrapParagraph(s, width)) == ChopAll(Words(s), width) <==> !Sheared(s, width)
  {
    if Sheared(s, width) {
      FirstWordSheared(s, width);
    } else {
      WordsAreChopped(s, width);
    }
  }

  // " abcd" at width 4 is printed as " abc" and "d".
  lemma LeadingSpaceSplitsWord()
    ensures Sheared(" abcd", 4) && Words(" abcd") == ["abcd"]
    ensures WrapParagraph(" abcd", 4) == [" abc", "d"]
  {
    var s := " abcd";
    NoSpaceMeansWidth(s, 4, 4);
    assert s[..4] == " abc" && s[4..] == "d";
    EndsInWord(" abc");
    WordLengthIs("abcd", 4);
    OneWord("abcd");
    assert s[1..] == "abcd";
  }

  lemma {:induction false} WholeLine(s: string)
    requires '\n' !in s
    ensures LineLength(s) == |s|
  {
    if s != "" {
      assert s[0] in s;
      WholeLine(s[1..]);
    }
  }

  // A text that fits in one line and has no line break is that line.
  lemma OneLine(s: string, width: int)
    requires |s| <= (if width <= 0 then 32 else width) && '\n' !in s
    ensures WrapLines(s, width) == [s]
  {
    WholeLine(s);
    assert Paragraphs(s) == [s];
    assert ParagraphLines(s, EffectiveWidth(width)) == [s];
    assert WrapAll([s], EffectiveWidth(width)) == [s] + WrapAll([], EffectiveWidth(width));
  }

  lemma {:induction false} NoBreakInParagraphs(s: string)
    ensures forall p | p in Paragraphs(s) :: '\n' !in p
    decreases |s|
  {
    var n := LineLength(s);
    if n < |s| {
      NoBreakInParagraphs(s[n + 1..]);
    }
  }

  lemma {:induction false} NoBreakInLines(s: string, width: nat)
    requires width >= 1 && '\n' !in s
    ensures forall l | l in WrapParagraph(s, width) :: '\n' !in l
    decreases |s|
  {
    if |s| > width {
      var cut := LastSpace(s, width, width);
      TrimRightPrefix(s[..cut]);
      TrimLeftSuffix(s[cut..]);
      assert forall c | c in s[cut..] :: c in s;
      NoBreakInLines(TrimLeft(s[cut..]), width);
    }
  }

  lemma {:induction false} TrimRightPrefix(s: string)
    ensures forall c | c in TrimRight(s) :: c in s
  {
    if s != "" && s[|s| - 1] == ' ' {
      TrimRightPrefix(s[..|s| - 1]);
    }
  }

  lemma {:induction false} TrimLeftSuffix(s: string)
    ensures forall c | c in TrimLeft(s) :: c in s
  {
    if s != "" && s[0] == ' ' {
      TrimLeftSuffix(s[1..]);
    }
  }

  lemma {:induction false} WrappedHasNoBreak(ps: seq<string>, width: nat)
    requires width >= 1 && forall p | p in ps :: '\n' !in p
    ensures forall l | l in WrapAll(ps, width) :: '\n' !in l
  {
    if ps != [] {
      assert ps[0] in ps;
      NoBreakInLines(ps[0], width);
      WrappedHasNoBreak(ps[1..], width);
    }
  }

  lemma LinesHaveNoBreak(s: string, width: int)
    ensures forall l | l in WrapLines(s, width) :: '\n' !in l
  {
    NoBreakInParagraphs(s);
    WrappedHasNoBreak(Paragraphs(s), EffectiveWidth(width));
  }

  // ---- where lines break ----

  ghost predicate Blank(s: string) {
    forall i | 0 <= i < |s| :: s[i] == ' '
  }

  lemma {:induction false} LastSpaceIsLast(s: string, i: nat, otherwise: nat)
    requires i < |s|
    ensures var cut := LastSpace(s, i, otherwise);
            if exists j :: 1 <= j <= i && s[j] == ' '
            then 1 <= cut <= i && s[cut] == ' ' && forall j | cut < j <= i :: s[j] != ' '
            else cut == otherwise
  {
    if i > 0 && s[i] != ' ' {
      LastSpaceIsLast(s, i - 1, otherwise);
    }
  }

  lemma TrimStep(s: string)
    requires s != "" && s[|s| - 1] == ' '
    ensures TrimRight(s) == TrimRight(s[..|s| - 1])
  {
  }

  lemma TrimStop(s: string)
    requires s == "" || s[|s| - 1] != ' '
    ensures TrimRight(s) == s
  {
  }

  lemma LastApart(s: string)
    requires s != ""
    ensures s == s[..|s| - 1] + [s[|s| - 1]]
  {
  }

  lemma {:induction false} TrimsRight(s: string) returns (gap: string)
    ensures s == TrimRight(s) + gap && Blank(gap)
    ensures TrimRight(s) != "" ==> TrimRight(s)[|TrimRight(s)| - 1] != ' '
  {
    hide TrimRight;
    if s != "" && s[|s| - 1] == ' ' {
      var n := |s| - 1;
      var less := TrimsRight(s[..n]);
      gap := less + [' '];
      TrimStep(s);
      LastApart(s);
      Regroup(TrimRight(s[..n]), less, [' ']);
    } else {
      gap := [];
      TrimStop(s);
    }
  }

  lemma {:induction false} TrimsLeft(s: string) returns (skip: string)
    ensures s == skip + TrimLeft(s) && Blank(skip)
    ensures skip == "" <==> s == "" || s[0] != ' '
  {
    if s != "" && s[0] == ' ' {
      var less := TrimsLeft(s[1..]);
      skip := " " + less;
      Regroup(" ", less, TrimLeft(s[1..]));
      assert s == " " + s[1..];
    } else {
      skip := "";
    }
  }

  // What a break looks like: the line, the spaces trimmed from its end, the spaces dropped before
  // the next line, and the text t that goes on there. Where spaces were dropped the next word would
  // not have fitted behind the line and one space; where none was, the line is full and has no space
  // after its first rune.
  ghost predicate Forced(line: string, gap: string, skip: string, t: string, width: nat) {
    && Blank(gap) && Blank(skip) && t != "" && t[0] != ' ' && |line| + |gap| <= width
    && (line != "" ==> line[|line| - 1] != ' ')
    && if skip != "" then |line| + |gap| + 1 + WordLength(t) > width
       else |line| + |gap| == width && forall j | 1 <= j < width :: (line + gap)[j] != ' '
  }

  lemma FirstBreak(s: string, width: nat) returns (gap: string, skip: string)
    requires 1 <= width < |s|
    ensures var t := TrimLeft(s[LastSpace(s, width, width)..]);
            && WrapParagraph(s, width) == [WrapParagraph(s, width)[0]] + WrapParagraph(t, width)
            && s == WrapParagraph(s, width)[0] + gap + skip + t
            && (t != "" ==> Forced(WrapParagraph(s, width)[0], gap, skip, t, width))
  {
    hide WordLength, TrimRight, TrimLeft;
    var cut := LastSpace(s, width, width);
    LastSpaceIsLast(s, width, width);
    gap := TrimsRight(s[..cut]);
    skip := TrimsLeft(s[cut..]);
    var t := TrimLeft(s[cut..]);
    assert s == s[..cut] + s[cut..];
    Regroup(s[..cut], skip, t);
    if t != "" && skip != "" && cut < width {
      SpacesEnd(s, cut, skip, t);
      WordReaches(s, cut + 1, width);
    }
    assert s[cut..][0] == s[cut];
  }

  // A single space before a rune that is none.
  lemma SpacesEnd(s: string, cut: nat, skip: string, t: string)
    requires cut + 1 < |s| && s[cut..] == skip + t && skip != "" && Blank(skip) && s[cut + 1] != ' '
    ensures |skip| == 1 && t == s[cut + 1..]
  {
    assert (skip + t)[1] == s[cut + 1];
    assert s[cut..][1..] == s[cut + 1..] && |skip| == 1 ==> (skip + t)[1..] == t;
  }

  lemma WordReaches(s: string, from: nat, width: nat)
    requires from <= width < |s| && forall j | from <= j <= width :: s[j] != ' '
    ensures WordLength(s[from..]) > width - from
  {
    WordAtLeast(s[from..], width - from + 1);
  }

  // No line of a paragraph breaks early: after each line but the last the text goes on, past spaces
  // only, with the next line, and the break was forced.
  lemma {:induction false} BreaksAreForced(s: string, width: nat, i: nat)
    returns (before: string, gap: string, skip: string, t: string)
    requires width >= 1 && i + 1 < |WrapParagraph(s, width)|
    ensures var lines := WrapParagraph(s, width);
            && s == before + (lines[i] + gap + skip + t)
            && lines[i + 1..] == WrapParagraph(t, width)
            && Forced(lines[i], gap, skip, t, width)
    decreases i
  {
    hide Forced, TrimRight, TrimLeft, WordLength, LastSpace;
    var lines := WrapParagraph(s, width);
    t := TrimLeft(s[LastSpace(s, width, width)..]);
    gap, skip := FirstBreak(s, width);
    assert lines[1..] == WrapParagraph(t, width);
    before := "";
    if i > 0 {
      var rest, start := t, lines[0] + gap + skip;
      assert s == start + rest;
      before, gap, skip, t := BreaksAreForced(rest, width, i - 1);
      Regroup(start, before, WrapParagraph(rest, width)[i - 1] + gap + skip + t);
      before := start + before;
      hide WrapParagraph;
      assert lines[i] == lines[1..][i - 1] && lines[i + 1..] == lines[1..][i..];
    }
  }
}
