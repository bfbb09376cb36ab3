// What becomes of the words: cleaning a line takes its tags and keeps all of
// its text, and the conversion of roll-up captions shows every line that a cue
// introduces.
module WebVttWords {
  import opened Base
  import opened Text
  import opened WebVtt
  import opened WebVttFile

  // ---------------------------------------------------------------------
  // A line as text and tags
  // ---------------------------------------------------------------------

  // text <tag> text <tag> ... text
  function Tagged(texts: seq<string>, tags: seq<string>): string
    requires |texts| == |tags| + 1
  {
    if tags == [] then texts[0] else texts[0] + "<" + tags[0] + ">" + Tagged(texts[1..], tags[1..])
  }

  function Concat(texts: seq<string>): string {
    if texts == [] then "" else texts[0] + Concat(texts[1..])
  }

  // No tag opens in a text, none closes inside a tag, and the last text holds
  // no whole tag.
  predicate Parted(texts: seq<string>, tags: seq<string>) {
    && |texts| == |tags| + 1 && !Angled(texts[|tags|])
    && forall i :: 0 <= i < |tags| ==> Free(texts[i], '<') && Free(tags[i], '>')
  }

  lemma PartedRest(texts: seq<string>, tags: seq<string>)
    requires Parted(texts, tags) && tags != []
    ensures Parted(texts[1..], tags[1..]) && Free(texts[0], '<') && Free(tags[0], '>')
  {
    assert texts[1..][|tags| - 1] == texts[|tags|];
  }

  lemma UnangledTail(s: string)
    requires s != "" && !Angled(s)
    ensures !Angled(s[1..]) && (s[0] == '<' ==> Free(s, '>'))
  {
    var r := s[1..];
    forall i, j | 0 <= i < j < |r| ensures !(r[i] == '<' && r[j] == '>') {
      assert s[i + 1] == r[i] && s[j + 1] == r[j];
    }
    assert forall j :: 0 < j < |s| ==> !(s[0] == '<' && s[j] == '>');
  }

  lemma {:induction false} StripsNothing(s: string)
    requires !Angled(s)
    ensures StripTags(s) == s
    decreases |s|
  {
    if s != "" {
      UnangledTail(s);
      StripsNothing(s[1..]);
      assert s == [s[0]] + s[1..];
    }
  }

  lemma {:induction false} StripsBehind(a: string, b: string)
    requires Free(a, '<')
    ensures StripTags(a + b) == a + StripTags(b)
    decreases |a|
  {
    if a == "" {
      assert a + b == b;
    } else {
      assert a == [a[0]] + a[1..] && a[0] in a;
      FreeParts([a[0]], a[1..], '<');
      StripsBehind(a[1..], b);
      assert (a + b)[1..] == a[1..] + b;
    }
  }

  lemma StripsTag(tag: string, rest: string)
    requires Free(tag, '>')
    ensures StripTags("<" + tag + ">" + rest) == StripTags(rest)
  {
    FreeParts("<", tag, '>');
    CutAt("<" + tag, '>', rest);
    assert "<" + tag + ">" + rest == "<" + tag + ['>'] + rest;
  }

  lemma {:induction false} StripsTags(texts: seq<string>, tags: seq<string>)
    requires Parted(texts, tags)
    ensures StripTags(Tagged(texts, tags)) == Concat(texts)
    decreases |tags|
  {
    hide StripTags, Angled;
    if tags == [] {
      StripsNothing(texts[0]);
      assert texts[1..] == [] && texts[0] + "" == texts[0];
    } else {
      var rest := Tagged(texts[1..], tags[1..]);
      PartedRest(texts, tags);
      StripsTags(texts[1..], tags[1..]);
      StripsTag(tags[0], rest);
      StripsBehind(texts[0], "<" + tags[0] + ">" + rest);
      assert Tagged(texts, tags) == texts[0] + ("<" + tags[0] + ">" + rest);
    }
  }

  lemma MoreParts(text: string, tag: string, texts: seq<string>, tags: seq<string>)
    requires Parted(texts, tags) && Free(text, '<') && Free(tag, '>')
    ensures Parted([text] + texts, [tag] + tags)
    ensures Tagged([text] + texts, [tag] + tags) == text + "<" + tag + ">" + Tagged(texts, tags)
  {
    hide Angled, Free;
    assert ([text] + texts)[1..] == texts && ([tag] + tags)[1..] == tags;
    assert ([text] + texts)[|tags| + 1] == texts[|tags|];
  }

  // Every line is made of text and tags.
  lemma {:induction false} LineIsParted(s: string) returns (texts: seq<string>, tags: seq<string>)
    ensures Parted(texts, tags) && Tagged(texts, tags) == s
    decreases |s|
  {
    hide Angled, Free;
    var open := Cut(s, '<');
    if open.None? {
      texts, tags := [s], [];
      NothingOpened(s);
    } else {
      var a, b := open.value.0, open.value.1;
      var close := Cut(b, '>');
      if close.None? {
        texts, tags := [s], [];
        NothingCloses(a, b);
      } else {
        var more, others := LineIsParted(close.value.1);
        texts, tags := [a] + more, [close.value.0] + others;
        MoreParts(a, close.value.0, more, others);
        assert s == a + "<" + close.value.0 + ">" + close.value.1;
      }
    }
  }

  lemma NothingOpened(s: string)
    requires Free(s, '<')
    ensures !Angled(s)
  {
    assert forall i :: 0 <= i < |s| ==> s[i] in s;
  }

  lemma NothingCloses(a: string, b: string)
    requires Free(a, '<') && Free(b, '>')
    ensures !Angled(a + ['<'] + b)
  {
    var s := a + ['<'] + b;
    forall i, j | 0 <= i < j < |s| ensures !(s[i] == '<' && s[j] == '>') {
      if i < |a| {
        assert s[i] == a[i] && a[i] in a;
      } else {
        assert s[j] == b[j - |a| - 1] && b[j - |a| - 1] in b;
      }
    }
  }

  // ---------------------------------------------------------------------
  // Nothing but tags and white space goes
  // ---------------------------------------------------------------------

  // The text without its white space.
  function Ink(s: string): string {
    if s == "" then ""
    else if IsSpace(s[|s| - 1]) then Ink(s[..|s| - 1])
    else Ink(s[..|s| - 1]) + [s[|s| - 1]]
  }

  lemma {:induction false} InkSum(a: string, b: string)
    ensures Ink(a + b) == Ink(a) + Ink(b)
    decreases |b|
  {
    hide IsSpace;
    if b == "" {
      assert a + b == a;
    } else {
      InkSum(a, b[..|b| - 1]);
      assert (a + b)[..|a + b| - 1] == a + b[..|b| - 1];
    }
  }

  lemma {:induction false} BlankHasNoInk(s: string)
    requires Blank(s)
    ensures Ink(s) == ""
  {
    if s != "" {
      assert s == s[..|s| - 1] + [s[|s| - 1]];
      assert s[|s| - 1] in s;
      BlankHasNoInk(s[..|s| - 1]);
    }
  }

  lemma {:induction false} HeadTrimmedOff(s: string)
    ensures Blank(s[..|s| - |TrimStart(s)|])
  {
    if s != "" && IsSpace(s[0]) {
      HeadTrimmedOff(s[1..]);
      var n := |s| - |TrimStart(s)|;
      assert s[..n] == [s[0]] + s[1..][..n - 1];
    }
  }

  lemma TrimKeepsInk(s: string)
    ensures Ink(TrimSpace(s)) == Ink(s)
  {
    hide Ink, Blank, IsSpace;
    var e := TrimEnd(s);
    var r := TrimStart(e);
    TrimmedOff(s);
    HeadTrimmedOff(e);
    BlankHasNoInk(s[|e|..]);
    BlankHasNoInk(e[..|e| - |r|]);
    assert s == e + s[|e|..] && e == e[..|e| - |r|] + r;
    InkSum(e, s[|e|..]);
    InkSum(e[..|e| - |r|], r);
  }

  lemma GapIsSpace(c: char)
    ensures (IsGap(c) ==> IsSpace(c)) && IsSpace(' ')
  {
  }

  lemma {:induction false} SqueezeKeepsInk(s: string)
    ensures Ink(Squeezed(s)) == Ink(s)
  {
    hide IsGap, IsSpace;
    if s != "" {
      var front, c := s[..|s| - 1], s[|s| - 1];
      GapIsSpace(c);
      SqueezeKeepsInk(front);
      InkSum(Squeezed(front), [c]);
      InkSum(Squeezed(front), " ");
      assert [c][..0] == "" && " "[..0] == "";
      assert Ink(" ") == "" && Ink([c]) == if IsSpace(c) then "" else [c];
    }
  }

  // Every line keeps its text, all of it and in order; only what is in a tag
  // goes.
  lemma CleanKeepsText(texts: seq<string>, tags: seq<string>)
    requires Parted(texts, tags)
    ensures Ink(Clean(Tagged(texts, tags))) == Ink(Concat(texts))
  {
    hide Ink, StripTags, Squeezed, TrimSpace;
    StripsTags(texts, tags);
    SqueezeKeepsInk(Concat(texts));
    TrimKeepsInk(Squeezed(Concat(texts)));
  }

  // ---------------------------------------------------------------------
  // And the words stay apart
  // ---------------------------------------------------------------------

  // Without other kinds of white space than the ones that are squeezed.
  predicate PlainGaps(s: string) { forall c :: c in s && IsSpace(c) ==> IsGap(c) }

  function Lead(s: string): string { if s != "" && IsGap(s[0]) then " " else "" }

  function Trail(s: string): string { if Fields(s) != [] && s != "" && IsGap(s[|s| - 1]) then " " else "" }

  lemma {:induction false} SqueezedWords(s: string)
    requires PlainGaps(s)
    ensures Spelled(s)
  {
    if s != "" {
      var front, c := s[..|s| - 1], s[|s| - 1];
      assert s == front + [c] && c in s;
      SqueezedWords(front);
      SqueezedStep(front, c);
    } else {
      FieldsOfNothing();
    }
  }

  lemma WordMore(ws: seq<string>, w: string)
    ensures JoinWords(ws + [w]) == if ws == [] then w else JoinWords(ws) + " " + w
  {
    if ws != [] {
      assert (ws + [w])[..|ws|] == ws;
      JoinedLast(ws + [w]);
    } else {
      assert ws + [w] == [w];
    }
  }

  lemma WordLonger(ws: seq<string>, c: char)
    requires ws != []
    ensures JoinWords(ws[|ws| - 1 := ws[|ws| - 1] + [c]]) == JoinWords(ws) + [c]
  {
    var front, w := ws[..|ws| - 1], ws[|ws| - 1];
    assert ws == front + [w] && ws[|ws| - 1 := w + [c]] == front + [w + [c]];
    WordMore(front, w);
    WordMore(front, w + [c]);
  }

  // What squeezing makes of the words of s.
  predicate Spelled(s: string) { Squeezed(s) == Lead(s) + JoinWords(Fields(s)) + Trail(s) }

  lemma SqueezedStep(front: string, c: char)
    requires Spelled(front)
    requires IsSpace(c) ==> IsGap(c)
    requires front != "" && IsSpace(front[|front| - 1]) ==> IsGap(front[|front| - 1])
    ensures Spelled(front + [c])
  {
    hide IsGap, IsSpace, Spelled;
    GapIsSpace(c);
    if front == "" {
      FirstStep(c);
    } else {
      GapIsSpace(front[|front| - 1]);
      if IsGap(c) {
        GapStep(front, c);
      } else if IsGap(front[|front| - 1]) {
        WordStarts(front, c);
      } else {
        WordGoesOn(front, c);
      }
    }
  }

  lemma GapStep(front: string, c: char)
    requires Spelled(front) && front != "" && IsGap(c) && IsSpace(c)
    requires IsSpace(front[|front| - 1]) <==> IsGap(front[|front| - 1])
    ensures Spelled(front + [c])
  {
    hide Fields, JoinWords, IsSpace, IsGap, Squeezed, Lead, Trail;
    var s, last := front + [c], front[|front| - 1];
    FieldsStep(front, c);
    SqueezeStep(front, c);
    Ends(front);
    Ends(s);
    assert s[0] == front[0] && s[|s| - 1] == c;
    var j := Lead(front) + JoinWords(Fields(front));
    assert j + "" == j;
    if !IsGap(last) {
      LastWord(front);
    }
  }

  lemma WordStarts(front: string, c: char)
    requires Spelled(front) && front != "" && !IsGap(c) && !IsSpace(c)
    requires IsSpace(front[|front| - 1]) && IsGap(front[|front| - 1])
    ensures Spelled(front + [c])
  {
    hide Fields, JoinWords, IsSpace, IsGap, Squeezed, Lead, Trail;
    var s, ws := front + [c], Fields(front);
    FieldsOfNothing();
    FieldsStep(front, c);
    SqueezeStep(front, c);
    Ends(front);
    Ends(s);
    assert s[0] == front[0] && s[|s| - 1] == c;
    WordMore(ws, [c]);
    Regrouped(Lead(front), JoinWords(ws), [c]);
    assert Lead(s) + JoinWords(Fields(s)) + "" == Lead(s) + JoinWords(Fields(s));
    assert Lead(front) + "" + "" + [c] == Lead(front) + [c];
  }

  lemma WordGoesOn(front: string, c: char)
    requires Spelled(front) && front != "" && !IsGap(c) && !IsSpace(c)
    requires !IsSpace(front[|front| - 1]) && !IsGap(front[|front| - 1])
    ensures Spelled(front + [c])
  {
    hide Fields, JoinWords, IsSpace, IsGap, Squeezed, Lead, Trail;
    var s, ws := front + [c], Fields(front);
    FieldsStep(front, c);
    SqueezeStep(front, c);
    Ends(front);
    Ends(s);
    assert s[0] == front[0] && s[|s| - 1] == c;
    LastWord(front);
    WordLonger(ws, c);
    var l, j := Lead(front), JoinWords(ws);
    assert l + j + "" == l + j && l + j + [c] == l + (j + [c]);
    assert l + (j + [c]) + "" == l + (j + [c]);
  }

  lemma Regrouped(l: string, j: string, c: string)
    ensures l + j + " " + c == l + (j + " " + c) && l + "" + c == l + c
  {
    assert l + "" == l;
    assert l + j + " " + c == l + (j + " " + c);
  }

  lemma SqueezeStep(front: string, c: char)
    ensures Squeezed(front + [c]) ==
      if !IsGap(c) then Squeezed(front) + [c]
      else if front != "" && IsGap(front[|front| - 1]) then Squeezed(front)
      else Squeezed(front) + " "
  {
    assert (front + [c])[..|front|] == front;
  }

  lemma Ends(s: string)
    requires s != ""
    ensures Lead(s) == if IsGap(s[0]) then " " else ""
    ensures Trail(s) == if Fields(s) != [] && IsGap(s[|s| - 1]) then " " else ""
  {
  }

  lemma LastWord(s: string)
    requires s != "" && !IsSpace(s[|s| - 1])
    ensures Fields(s) != []
  {
  }

  lemma FirstStep(c: char)
    requires IsSpace(c) ==> IsGap(c)
    ensures Spelled("" + [c])
  {
    var s := "" + [c];
    assert s == [c] && s[..0] == "";
    GapIsSpace(c);
    FieldsStep("", c);
    FieldsOfNothing();
    WordMore([], [c]);
    assert [] + [[c]] == [[c]];
    SqueezeStep("", c);
  }

  lemma {:induction false} JoinedEnds(ws: seq<string>)
    requires ws != [] && forall w :: w in ws ==> Word(w)
    ensures var j := JoinWords(ws); j != "" && !IsSpace(j[0]) && !IsSpace(j[|j| - 1])
  {
    hide IsSpace;
    var front, w := ws[..|ws| - 1], ws[|ws| - 1];
    assert ws == front + [w] && w in ws;
    WordMore(front, w);
    assert w[0] in w && w[|w| - 1] in w;
    if front != [] {
      JoinedEnds(front);
    }
  }

  lemma TrimPadded(lead: string, j: string, trail: string)
    requires Blank(lead) && Blank(trail) && (j != "" ==> !IsSpace(j[0]) && !IsSpace(j[|j| - 1]))
    ensures TrimSpace(lead + j + trail) == j
  {
    hide IsSpace;
    TrimEndSum(lead + j, trail);
    if j == "" {
      assert lead + j == lead;
    } else {
      assert TrimEnd(lead + j) == lead + j;
      TrimStartSum(lead, j);
    }
  }

  lemma {:induction false} TrimStartSum(lead: string, j: string)
    requires Blank(lead) && j != "" && !IsSpace(j[0])
    ensures TrimStart(lead + j) == j
    decreases |lead|
  {
    if lead == "" {
      assert lead + j == j;
    } else {
      assert lead == [lead[0]] + lead[1..] && lead[0] in lead;
      TrimStartSum(lead[1..], j);
      assert (lead + j)[1..] == lead[1..] + j;
    }
  }

  // A cleaned line is the words of its text, one space apart.
  lemma CleanIsItsWords(texts: seq<string>, tags: seq<string>)
    requires Parted(texts, tags) && PlainGaps(Concat(texts))
    ensures Clean(Tagged(texts, tags)) == JoinWords(Fields(Concat(texts)))
    ensures Fields(Clean(Tagged(texts, tags))) == Fields(Concat(texts))
  {
    hide StripTags, Squeezed, TrimSpace, Fields, JoinWords, IsSpace, PlainGaps;
    var t := Concat(texts);
    StripsTags(texts, tags);
    SqueezedWords(t);
    FieldsAreWords(t);
    FieldsOfNothing();
    if Fields(t) != [] {
      JoinedEnds(Fields(t));
    }
    assert Blank(Lead(t)) && Blank(Trail(t));
    TrimPadded(Lead(t), JoinWords(Fields(t)), Trail(t));
    FieldsOfWords(Fields(t));
  }

  // ---------------------------------------------------------------------
  // Inline time stamps
  // ---------------------------------------------------------------------

  predicate Numeral(s: string) { forall i :: 0 <= i < |s| ==> '0' <= s[i] <= '9' }

  // <m:ss.ttt> or <h:mm:ss.ttt>, the first number with one digit or two.
  datatype InlineStamp = InlineStamp(first: string, rest: seq<string>, millis: string)

  predicate StampDigits(x: InlineStamp) {
    && Numeral(x.first) && 1 <= |x.first| <= 2 && Numeral(x.millis) && |x.millis| == 3
    && 1 <= |x.rest| <= 2 && forall i :: 0 <= i < |x.rest| ==> Numeral(x.rest[i]) && |x.rest[i]| == 2
  }

  function StampText(x: InlineStamp): string
    requires 1 <= |x.rest| <= 2
  {
    "<" + x.first + ":" + x.rest[0] + (if |x.rest| == 2 then ":" + x.rest[1] else "") + "." + x.millis + ">"
  }

  function ShapeOf(x: InlineStamp): nat { (if |x.first| == 2 then 1 else 0) + if |x.rest| == 2 then 2 else 0 }

  lemma StampHasShape(x: InlineStamp)
    requires StampDigits(x)
    ensures ShapedAt(StampText(x), 0, SHAPES[ShapeOf(x)]) && |StampText(x)| == |SHAPES[ShapeOf(x)]|
  {
  }

  lemma ShapedInside(a: string, x: string, b: string, shape: string)
    requires ShapedAt(x, 0, shape)
    ensures ShapedAt(a + x + b, |a|, shape)
  {
    var s := a + x + b;
    forall k | 0 <= k < |shape| ensures s[|a| + k] == x[k] {
    }
  }

  // A line with a stamp anywhere in it is one with an inline time stamp.
  lemma StampIsInline(a: string, x: InlineStamp, b: string)
    requires StampDigits(x)
    ensures HasInline(a + StampText(x) + b)
  {
    hide StampText;
    StampHasShape(x);
    ShapedInside(a, StampText(x), b, SHAPES[ShapeOf(x)]);
    assert StampText(x) != "";
  }

  // And there is no other such line.
  lemma InlineIsStamp(s: string) returns (a: string, x: InlineStamp, b: string)
    requires HasInline(s)
    ensures StampDigits(x) && s == a + StampText(x) + b
  {
    var i, k :| 0 <= i < |s| && 0 <= k < |SHAPES| && ShapedAt(s, i, SHAPES[k]);
    var n := |SHAPES[k]|;
    var t := s[i..i + n];
    a, b := s[..i], s[i + n..];
    assert s == a + t + b;
    forall j | 0 <= j < n
      ensures if SHAPES[k][j] == 'd' then '0' <= t[j] <= '9' else t[j] == SHAPES[k][j]
    {
      assert t[j] == s[i + j];
    }
    x := ReadStamp(t, k);
  }

  predicate TwoDigits(t: string, i: nat) { i + 2 <= |t| && '0' <= t[i] <= '9' && '0' <= t[i + 1] <= '9' }

  // <m:ss.ttt>, where m ends at n.
  predicate ShortStamp(t: string, n: nat) {
    && 2 <= n <= 3 && |t| == n + 8 && t[0] == '<' && '0' <= t[1] <= '9' && '0' <= t[n - 1] <= '9'
    && t[n] == ':' && TwoDigits(t, n + 1) && t[n + 3] == '.' && TwoDigits(t, n + 4) && '0' <= t[n + 6] <= '9' && t[n + 7] == '>'
  }

  // <h:mm:ss.ttt>, where h ends at n.
  predicate LongStamp(t: string, n: nat) {
    && 2 <= n <= 3 && |t| == n + 11 && t[0] == '<' && '0' <= t[1] <= '9' && '0' <= t[n - 1] <= '9'
    && t[n] == ':' && TwoDigits(t, n + 1) && t[n + 3] == ':' && TwoDigits(t, n + 4)
    && t[n + 6] == '.' && TwoDigits(t, n + 7) && '0' <= t[n + 9] <= '9' && t[n + 10] == '>'
  }

  lemma ReadShort(t: string, n: nat) returns (x: InlineStamp)
    requires ShortStamp(t, n)
    ensures StampDigits(x) && StampText(x) == t
  {
    x := InlineStamp(t[1..n], [t[n + 1..n + 3]], t[n + 4..n + 7]);
    assert t == "<" + t[1..n] + ":" + t[n + 1..n + 3] + "." + t[n + 4..n + 7] + ">";
    assert "<" + t[1..n] + ":" + t[n + 1..n + 3] + "" == "<" + t[1..n] + ":" + t[n + 1..n + 3];
  }

  lemma ReadLong(t: string, n: nat) returns (x: InlineStamp)
    requires LongStamp(t, n)
    ensures StampDigits(x) && StampText(x) == t
  {
    x := InlineStamp(t[1..n], [t[n + 1..n + 3], t[n + 4..n + 6]], t[n + 7..n + 10]);
    assert t == "<" + t[1..n] + ":" + t[n + 1..n + 3] + (":" + t[n + 4..n + 6]) + "." + t[n + 7..n + 10] + ">";
  }

  lemma ReadStamp(t: string, k: nat) returns (x: InlineStamp)
    requires k < |SHAPES| && |t| == |SHAPES[k]| && ShapedAt(t, 0, SHAPES[k])
    ensures StampDigits(x) && StampText(x) == t
  {
    hide StampDigits, StampText;
    var shape := SHAPES[k];
    forall j | 0 <= j < |t| ensures if shape[j] == 'd' then '0' <= t[j] <= '9' else t[j] == shape[j] {
      assert t[0 + j] == t[j];
    }
    if k == 0 {
      x := ReadShort(t, 2);
    } else if k == 1 {
      x := ReadShort(t, 3);
    } else if k == 2 {
      x := ReadLong(t, 2);
    } else {
      x := ReadLong(t, 3);
    }
  }

  // ---------------------------------------------------------------------
  // What the conversion shows
  // ---------------------------------------------------------------------

  // The line that the cue introduces: its last one with an inline stamp.
  predicate LastInline(lines: seq<string>, i: int) {
    0 <= i < |lines| && HasInline(lines[i]) && forall j :: i < j < |lines| ==> !HasInline(lines[j])
  }

  // Cleaned, and not blank.
  ghost predicate Introduces(c: Cue, t: string) {
    t != "" && exists i :: LastInline(c.lines, i) && Clean(c.lines[i]) == t
  }

  lemma {:induction false} IntroducedIsLast(lines: seq<string>)
    ensures IntroducedLine(lines).Some? ==> exists i :: LastInline(lines, i) && lines[i] == IntroducedLine(lines).value
    ensures IntroducedLine(lines).None? ==> forall i :: 0 <= i < |lines| ==> !HasInline(lines[i])
  {
    hide HasInline;
    if lines != [] {
      var front, n := lines[..|lines| - 1], |lines| - 1;
      if HasInline(lines[n]) {
        assert LastInline(lines, n);
      } else {
        IntroducedIsLast(front);
        if IntroducedLine(front).Some? {
          var i :| LastInline(front, i) && front[i] == IntroducedLine(front).value;
          assert LastInline(lines, i) && lines[i] == front[i];
        }
      }
    }
  }

  lemma LastIsUnique(lines: seq<string>, i: int, j: int)
    requires LastInline(lines, i) && LastInline(lines, j)
    ensures i == j
  {
  }

  lemma IntroducedExactly(c: Cue, t: string)
    ensures Introduces(c, t) <==> Introduced(c) == Some(Piece(c.start, c.end, t))
  {
    hide HasInline, Clean;
    IntroducedIsLast(c.lines);
    var l := IntroducedLine(c.lines);
    if l.Some? {
      var i :| LastInline(c.lines, i) && c.lines[i] == l.value;
      forall j | LastInline(c.lines, j) ensures j == i {
        LastIsUnique(c.lines, i, j);
      }
    } else {
      NoneIsLast(c.lines);
    }
  }

  lemma NoneIsLast(lines: seq<string>)
    requires forall i :: 0 <= i < |lines| ==> !HasInline(lines[i])
    ensures forall i :: !LastInline(lines, i)
  {
  }

  // at: the cues that introduce a line, in order.
  ghost predicate Introducing(cues: seq<Cue>, at: seq<nat>) {
    && (forall k :: 0 <= k < |at| ==> at[k] < |cues|)
    && (forall k, l :: 0 <= k < l < |at| ==> at[k] < at[l])
    && (forall i, t :: 0 <= i < |cues| && Introduces(cues[i], t) ==> i in at)
  }

  ghost predicate PiecesOf(cues: seq<Cue>, at: seq<nat>, ps: seq<Piece>) {
    && |ps| == |at| && Introducing(cues, at)
    && forall k :: 0 <= k < |at| ==>
         var c, p := cues[at[k]], ps[k]; Introduces(c, p.text) && p.start == c.start && p.end == c.end
  }

  lemma MoreCues(cues: seq<Cue>, at: seq<nat>, ps: seq<Piece>, c: Cue)
    requires PiecesOf(cues, at, ps)
    ensures (forall t :: !Introduces(c, t)) ==> PiecesOf(cues + [c], at, ps)
    ensures forall p: Piece :: Introduces(c, p.text) && p.start == c.start && p.end == c.end ==>
      PiecesOf(cues + [c], at + [|cues|], ps + [p])
  {
    hide Introduces;
    var more := cues + [c];
    assert more[|cues|] == c && forall i :: 0 <= i < |cues| ==> more[i] == cues[i];
    forall i, t | 0 <= i < |cues| && Introduces(more[i], t) ensures i in at {
      assert Introduces(cues[i], t);
    }
    assert (at + [|cues|])[|at|] == |cues|;
    assert forall i :: i in at ==> i in at + [|cues|];
  }

  lemma {:induction false} CollectedPieces(cues: seq<Cue>) returns (at: seq<nat>)
    ensures PiecesOf(cues, at, Pieces(cues))
  {
    hide Introduces, Introduced, PiecesOf;
    if cues == [] {
      at := [];
      NothingCollected();
    } else {
      var front, c := cues[..|cues| - 1], cues[|cues| - 1];
      assert cues == front + [c];
      at := CollectedPieces(front);
      MoreCues(front, at, Pieces(front), c);
      forall t ensures Introduces(c, t) <==> Introduced(c) == Some(Piece(c.start, c.end, t)) {
        IntroducedExactly(c, t);
      }
      if Introduced(c).Some? {
        TimesOfIntroduced(c);
        at := at + [|front|];
      }
    }
  }

  lemma NothingCollected()
    ensures PiecesOf([], [], Pieces([]))
  {
  }

  lemma TimesOfIntroduced(c: Cue)
    requires Introduced(c).Some?
    ensures var p := Introduced(c).value; p == Piece(c.start, c.end, p.text)
  {
  }

  // The lines that are shown are the cleaned introduced lines of the cues,
  // every one of them that is not blank, in order.
  lemma RollUpShowsCues(cues: seq<Cue>) returns (at: seq<nat>)
    ensures Introducing(cues, at)
    ensures var shown := Shown(Paired(Pieces(cues)));
      |shown| == |at| && forall k :: 0 <= k < |at| ==> Introduces(cues[at[k]], shown[k])
  {
    hide Introduces;
    at := CollectedPieces(cues);
    RollUpShowsAll(Pieces(cues));
  }

  // ---------------------------------------------------------------------
  // Plain files
  // ---------------------------------------------------------------------

  lemma TrimRightKeepsInk(l: string)
    ensures Ink(TrimRight(l)) == Ink(l)
    decreases |l|
  {
    hide IsSpace;
    PlainSpaces();
    if l != "" && (l[|l| - 1] == ' ' || l[|l| - 1] == '\t') {
      TrimRightKeepsInk(l[..|l| - 1]);
    }
  }

  function InkOf(lines: seq<string>): seq<string> {
    if lines == [] then []
    else
      var front, i := InkOf(lines[..|lines| - 1]), Ink(lines[|lines| - 1]);
      if i == "" then front else front + [i]
  }

  lemma {:induction false} InkOfNone(s: string)
    ensures Ink(s) == "" <==> Blank(s)
  {
    if s != "" {
      assert s == s[..|s| - 1] + [s[|s| - 1]];
      InkOfNone(s[..|s| - 1]);
      assert s[|s| - 1] in s;
    }
  }

  // Tidying drops blank lines, and keeps the text of the others line by line.
  lemma {:induction false} TidyKeepsText(lines: seq<string>)
    ensures InkOf(TidyLines(lines)) == InkOf(lines)
    ensures |TidyLines(lines)| == |InkOf(lines)|
  {
    hide Ink, Blank, TrimRight;
    if lines != [] {
      var l := lines[|lines| - 1];
      TidyKeepsText(lines[..|lines| - 1]);
      InkOfNone(l);
      TrimRightKeepsInk(l);
      var f := TidyLines(lines[..|lines| - 1]);
      assert (f + [TrimRight(l)])[..|f|] == f;
    }
  }

  // And of the rest of a cue only the pin goes, in either order of its words.
  lemma TidyKeepsCue(c: Cue)
    ensures var d, ws := TidyCue(c), Fields(c.settings);
      && d.id == c.id && d.start == c.start && d.end == c.end
      && d.settings == if ws == ["align:start", "position:0%"] || ws == ["position:0%", "align:start"] then "" else c.settings
  {
    var ws := Fields(c.settings);
    if |ws| == 2 {
      assert ws == [ws[0], ws[1]];
      assert "align:start"[0] == 'a' && "position:0%"[0] == 'p';
    }
  }

  // at: the cues with text, in order.
  ghost predicate WithText(cues: seq<Cue>, at: seq<nat>) {
    && (forall k :: 0 <= k < |at| ==> at[k] < |cues|)
    && (forall k, l :: 0 <= k < l < |at| ==> at[k] < at[l])
    && (forall i: nat :: i < |cues| && InkOf(cues[i].lines) != [] ==> i in at)
  }

  // Tidying keeps every cue with text, and no other.
  lemma {:induction false} TidyKeepsCues(cues: seq<Cue>) returns (at: seq<nat>)
    ensures WithText(cues, at) && |Tidied(cues)| == |at|
    ensures forall k :: 0 <= k < |at| ==> Tidied(cues)[k] == TidyCue(cues[at[k]]) && InkOf(cues[at[k]].lines) != []
  {
    hide TidyCue, InkOf;
    if cues == [] {
      at := [];
    } else {
      var front, c := cues[..|cues| - 1], cues[|cues| - 1];
      assert cues == front + [c];
      at := TidyKeepsCues(front);
      TextStays(c);
      if InkOf(c.lines) != [] {
        at := at + [|front|];
        assert at[|at| - 1] == |front|;
      }
    }
  }

  lemma TextStays(c: Cue)
    ensures TidyCue(c).lines == [] <==> InkOf(c.lines) == []
  {
    hide TidyLines, InkOf;
    TidyKeepsText(c.lines);
  }

  // A file with inline time stamps is converted, and any other is tidied.
  lemma NormalizedEitherWay(cues: seq<Cue>)
    ensures Normalized(cues) ==
      if exists c, l :: c in cues && l in c.lines && HasInline(l) then Paired(Pieces(cues)) else Tidied(cues)
  {
    hide Tidied, Paired, Pieces, HasInline;
  }
}
