// Tidying subtitle cues: the time stamps and cues as text, the roll-up
// conversion, and why normalising twice changes nothing.
module WebVtt {
  import opened Base
  import opened Text

  // ---------------------------------------------------------------------
  // White space
  // ---------------------------------------------------------------------

  const SPACES: set<int> := {
    0x09, 0x0a, 0x0b, 0x0c, 0x0d, 0x20, 0x85, 0xa0, 0x1680, 0x2000, 0x2001, 0x2002, 0x2003, 0x2004, 0x2005, 0x2006,
    0x2007, 0x2008, 0x2009, 0x200a, 0x2028, 0x2029, 0x202f, 0x205f, 0x3000}

  predicate IsSpace(c: char) { c as int in SPACES }

  predicate Blank(s: string) { forall c :: c in s ==> IsSpace(c) }

  function TrimEnd(s: string): (r: string)
    ensures r <= s && (r != "" ==> !IsSpace(r[|r| - 1]))
    ensures r == "" <==> Blank(s)
    ensures s != "" && !IsSpace(s[|s| - 1]) ==> r == s
  {
    if s != "" && IsSpace(s[|s| - 1]) then
      assert s == s[..|s| - 1] + [s[|s| - 1]];
      TrimEnd(s[..|s| - 1])
    else s
  }

  function TrimStart(s: string): (r: string)
    ensures |r| <= |s| && r == s[|s| - |r|..] && (r != "" ==> !IsSpace(r[0]))
    ensures s != "" && !IsSpace(s[0]) ==> r == s
  {
    if s != "" && IsSpace(s[0]) then TrimStart(s[1..]) else s
  }

  function TrimSpace(s: string): string { TrimStart(TrimEnd(s)) }

  // Only blanks and tabs.
  function TrimRight(l: string): (r: string)
    ensures r <= l && (r != "" ==> r[|r| - 1] != ' ' && r[|r| - 1] != '\t')
    ensures l != "" && l[|l| - 1] != ' ' && l[|l| - 1] != '\t' ==> r == l
  {
    if l != "" && (l[|l| - 1] == ' ' || l[|l| - 1] == '\t') then TrimRight(l[..|l| - 1]) else l
  }

  // The words between the spaces.
  function Fields(s: string): (r: seq<string>)
    ensures s != "" && !IsSpace(s[|s| - 1]) ==> r != []
  {
    if s == "" then []
    else
      var front, c := s[..|s| - 1], s[|s| - 1];
      if IsSpace(c) then Fields(front)
      else if front == "" || IsSpace(front[|front| - 1]) then Fields(front) + [[c]]
      else
        var f := Fields(front);
        f[|f| - 1 := f[|f| - 1] + [c]]
  }

  function JoinWords(ws: seq<string>): string { if ws == [] then "" else Join(ws, ' ') }

  // ---------------------------------------------------------------------
  // Stamps
  // ---------------------------------------------------------------------

  // A decimal number with an optional sign.
  function ParseInt(s: string): Option<int> {
    var digits := if s != "" && (s[0] == '+' || s[0] == '-') then s[1..] else s;
    if digits == "" then None
    else
      var v := ValueOf(digits, 10);
      if v.None? then None
      else
        var n: int := v.value;
        Some(if s[0] == '-' then -n else n)
  }

  function Cut(s: string, sep: char): (r: Option<(string, string)>)
    ensures r.Some? ==> s == r.value.0 + [sep] + r.value.1 && Free(r.value.0, sep)
    ensures r.None? <==> Free(s, sep)
  {
    if s == "" then None
    else if s[0] == sep then assert s[0] in s; Some(("", s[1..]))
    else
      var r := Cut(s[1..], sep);
      assert s == [s[0]] + s[1..];
      FreeParts([s[0]], s[1..], sep);
      if r.None? then None else Some(([s[0]] + r.value.0, r.value.1))
  }

  // Hours, minutes and seconds, each sixty of the next.
  function Total(parts: seq<string>): Option<nat> {
    if parts == [] then Some(0)
    else
      var front, n := Total(parts[..|parts| - 1]), ParseInt(parts[|parts| - 1]);
      if front.None? || n.None? || n.value < 0 then None else Some(front.value * 60 + n.value)
  }

  // hh:mm:ss.ttt or mm:ss.ttt, in milliseconds. The fraction may carry a
  // sign, so the result may be a little below zero.
  function ParseStamp(s: string): (r: Option<int>)
  {
    var cut := Cut(s, '.');
    if cut.None? || |cut.value.1| != 3 then None
    else
      var parts := Split(cut.value.0, ':');
      if |parts| < 2 || |parts| > 3 then None
      else
        var total, ms := Total(parts), ParseInt(cut.value.1);
        if total.None? || ms.None? then None else Some(total.value * 1000 + ms.value)
  }

  function Padded(x: nat, width: nat): string {
    Zeros(width - |Digits(x, 10)|) + Digits(x, 10)
  }

  function Zeros(n: int): (s: string)
    ensures |s| == if n > 0 then n else 0
    ensures forall c :: c in s ==> c == '0'
  {
    if n <= 0 then "" else Zeros(n - 1) + "0"
  }

  // A negative number shows its sign in the first place of its width.
  function Fraction(ms: int): string
    requires -100 < ms < 1000
  {
    if ms >= 0 then Padded(ms, 3) else "-" + Padded(-ms, 2)
  }

  function Stamp(ms: int): string
    requires ms > -100
  {
    var (whole, rest) := if ms >= 0 then (ms / 1000, ms % 1000) else (0, ms);
    Padded(whole / 3600, 2) + ":" + Padded(whole / 60 % 60, 2) + ":" + Padded(whole % 60, 2) + "." + Fraction(rest)
  }

  lemma {:induction false} ZerosCountForNothing(n: int, s: string)
    requires ValueOf(s, 10).Some?
    ensures ValueOf(Zeros(n) + s, 10) == ValueOf(s, 10)
    decreases if n > 0 then n else 0, |s|
  {
    if s == "" {
      assert Zeros(n) + s == Zeros(n);
      ZerosAreZero(n);
    } else {
      ZerosCountForNothing(n, s[..|s| - 1]);
      assert (Zeros(n) + s)[..|Zeros(n) + s| - 1] == Zeros(n) + s[..|s| - 1];
    }
  }

  lemma {:induction false} ZerosAreZero(n: int)
    ensures ValueOf(Zeros(n), 10) == Some(0)
  {
    if n > 0 {
      hide ValueOf;
      ZerosAreZero(n - 1);
      DigitAppended(Zeros(n - 1), '0', 10);
      assert Zeros(n) == Zeros(n - 1) + ['0'];
    }
  }

  lemma PaddedChars(x: nat, width: nat)
    ensures Padded(x, width) != "" && forall c :: c in Padded(x, width) ==> '0' <= c <= '9'
  {
    DecimalDigits(x);
  }

  lemma PaddedParses(x: nat, width: nat)
    ensures ValueOf(Padded(x, width), 10) == Some(x) && Padded(x, width) != ""
    ensures forall c :: c in Padded(x, width) ==> '0' <= c <= '9'
    ensures ParseInt(Padded(x, width)) == Some(x)
  {
    hide ValueOf, Digits, Zeros;
    PaddedChars(x, width);
    DigitsParse(x, 10);
    ZerosCountForNothing(width - |Digits(x, 10)|, Digits(x, 10));
    assert Padded(x, width)[0] in Padded(x, width);
  }

  lemma DigitsAreShort(x: nat)
    ensures x < 100 ==> |Digits(x, 10)| <= 2
    ensures x < 1000 ==> |Digits(x, 10)| <= 3
  {
    if x >= 10 {
      assert Digits(x, 10) == Digits(x / 10, 10) + [DigitChar(x % 10)];
      if x >= 100 && x < 1000 {
        assert Digits(x / 10, 10) == Digits(x / 10 / 10, 10) + [DigitChar(x / 10 % 10)];
      }
    }
  }

  lemma FractionParses(ms: int)
    requires -100 < ms < 1000
    ensures |Fraction(ms)| == 3 && ParseInt(Fraction(ms)) == Some(ms)
    ensures forall c :: c in Fraction(ms) ==> '0' <= c <= '9' || c == '-'
  {
    if ms >= 0 {
      PaddedParses(ms, 3);
      DigitsAreShort(ms);
    } else {
      PaddedParses(-ms, 2);
      DigitsAreShort(-ms);
      assert Fraction(ms)[1..] == Padded(-ms, 2);
    }
  }

  lemma CutAt(a: string, sep: char, b: string)
    requires Free(a, sep)
    ensures Cut(a + [sep] + b, sep) == Some((a, b))
    decreases |a|
  {
    if a == "" {
      assert a + [sep] + b == [sep] + b;
    } else {
      assert a == [a[0]] + a[1..];
      FreeParts([a[0]], a[1..], sep);
      assert a[0] in a;
      assert (a + [sep] + b)[1..] == a[1..] + [sep] + b;
      CutAt(a[1..], sep, b);
      assert [a[0]] + a[1..] == a;
    }
  }

  lemma TotalOfThree(h: string, m: string, s: string)
    requires ParseInt(h).Some? && ParseInt(m).Some? && ParseInt(s).Some?
    requires ParseInt(h).value >= 0 && ParseInt(m).value >= 0 && ParseInt(s).value >= 0
    ensures Total([h, m, s]) == Some((ParseInt(h).value * 60 + ParseInt(m).value) * 60 + ParseInt(s).value)
  {
    assert [h, m, s][..2] == [h, m] && [h, m][..1] == [h] && [h][..0] == [];
    assert Total([h]) == Some(ParseInt(h).value);
    assert Total([h, m]) == Some(ParseInt(h).value * 60 + ParseInt(m).value);
  }

  lemma SplitThree(h: string, m: string, s: string)
    requires Free(h, ':') && Free(m, ':') && Free(s, ':')
    ensures Split(h + ":" + m + ":" + s, ':') == [h, m, s]
  {
    var parts := [h, m, s];
    assert parts[..2] == [h, m] && [h, m][..1] == [h];
    assert Join([h, m], ':') == h + ":" + m;
    assert Join(parts, ':') == h + ":" + m + ":" + s;
    SplitJoined(parts, ':');
  }

  lemma Clockwork(ms: nat)
    ensures var w := ms / 1000;
      ((w / 3600 * 60 + w / 60 % 60) * 60 + w % 60) * 1000 + ms % 1000 == ms
  {
    var w := ms / 1000;
    assert w / 3600 == w / 60 / 60;
  }

  // A printed stamp is read back, whatever the time.
  lemma StampParses(ms: int)
    requires ms > -100
    ensures ParseStamp(Stamp(ms)) == Some(ms)
  {
    hide ValueOf, Padded, Fraction, ParseInt, Cut, Split, Total;
    var whole, rest := if ms >= 0 then ms / 1000 else 0, if ms >= 0 then ms % 1000 else ms;
    var h, m, s, f := Padded(whole / 3600, 2), Padded(whole / 60 % 60, 2), Padded(whole % 60, 2), Fraction(rest);
    PaddedParses(whole / 3600, 2);
    PaddedParses(whole / 60 % 60, 2);
    PaddedParses(whole % 60, 2);
    FractionParses(rest);
    SplitThree(h, m, s);
    TotalOfThree(h, m, s);
    var main := h + ":" + m + ":" + s;
    assert Free(main, '.');
    CutAt(main, '.', f);
    assert Stamp(ms) == main + "." + f;
    if ms >= 0 {
      Clockwork(ms);
    }
  }

  // Whatever is read can be printed.
  lemma ParsedStampPrints(s: string)
    ensures ParseStamp(s).Some? ==> ParseStamp(s).value > -100
  {
    var cut := Cut(s, '.');
    if cut.Some? && |cut.value.1| == 3 && ParseInt(cut.value.1).Some? {
      ShortNumbers(cut.value.1);
    }
  }

  lemma {:induction false} ValueBelow(s: string)
    requires ValueOf(s, 10).Some? && |s| <= 3
    ensures ValueOf(s, 10).value < if |s| == 0 then 1 else if |s| == 1 then 10 else if |s| == 2 then 100 else 1000
  {
    if s != "" {
      ValueBelow(s[..|s| - 1]);
    }
  }

  lemma ShortNumbers(s: string)
    requires |s| == 3 && ParseInt(s).Some?
    ensures ParseInt(s).value > -100
  {
    if s[0] == '-' {
      ValueBelow(s[1..]);
    } else if s[0] == '+' {
      ValueBelow(s[1..]);
    }
  }

  // ---------------------------------------------------------------------
  // Words
  // ---------------------------------------------------------------------

  predicate Word(w: string) { w != "" && forall c :: c in w ==> !IsSpace(c) }

  lemma {:induction false} FieldsAreWords(s: string)
    ensures forall w :: w in Fields(s) ==> Word(w)
  {
    if s != "" {
      var front, c := s[..|s| - 1], s[|s| - 1];
      FieldsAreWords(front);
      if !IsSpace(c) && front != "" && !IsSpace(front[|front| - 1]) {
        var f := Fields(front);
        assert f[|f| - 1] in f;
      }
    }
  }

  lemma {:induction false} FieldsOfWord(w: string)
    requires Word(w)
    ensures Fields(w) == [w]
  {
    var front, c := w[..|w| - 1], w[|w| - 1];
    assert c in w && w == front + [c];
    if front != "" {
      assert Word(front) by {
        forall x | x in front ensures !IsSpace(x) {
          assert x in w;
        }
      }
      assert front[|front| - 1] in front;
      FieldsOfWord(front);
    }
  }

  lemma FieldsStep(s: string, c: char)
    ensures Fields(s + [c]) ==
      if IsSpace(c) then Fields(s)
      else if s == "" || IsSpace(s[|s| - 1]) then Fields(s) + [[c]]
      else Fields(s)[|Fields(s)| - 1 := Fields(s)[|Fields(s)| - 1] + [c]]
  {
    assert (s + [c])[..|s|] == s;
  }

  lemma FieldsOfNothing()
    ensures Fields("") == [] && JoinWords([]) == "" && IsSpace(' ')
  {
  }

  // A space parts the words before it from those behind it.
  lemma {:induction false} FieldsOfSum(a: string, b: string)
    ensures Fields(a + " " + b) == Fields(a) + Fields(b)
    decreases |b|
  {
    hide Fields, IsSpace;
    FieldsOfNothing();
    FieldsStep(a, ' ');
    if b == "" {
      assert a + " " + b == a + [' '];
    } else {
      var front, c := b[..|b| - 1], b[|b| - 1];
      FieldsOfSum(a, front);
      FieldsStep(front, c);
      FieldsStep(a + " " + front, c);
      assert b == front + [c] && a + " " + b == a + " " + front + [c];
    }
  }

  lemma JoinedLast(ws: seq<string>)
    requires |ws| >= 2
    ensures JoinWords(ws) == JoinWords(ws[..|ws| - 1]) + " " + ws[|ws| - 1]
  {
  }

  lemma FieldsOfOne(w: string)
    requires Word(w)
    ensures Fields(JoinWords([w])) == [w]
  {
    FieldsOfWord(w);
  }

  lemma {:induction false} FieldsOfWords(ws: seq<string>)
    requires forall w :: w in ws ==> Word(w)
    ensures Fields(JoinWords(ws)) == ws
  {
    hide Fields, JoinWords, Word, IsSpace;
    FieldsOfNothing();
    if |ws| == 1 {
      assert ws[0] in ws && ws == [ws[0]];
      FieldsOfOne(ws[0]);
    } else if ws != [] {
      var front, last := ws[..|ws| - 1], ws[|ws| - 1];
      assert last in ws && forall w :: w in front ==> w in ws;
      FieldsOfWords(front);
      JoinedLast(ws);
      FieldsOfSum(JoinWords(front), last);
      FieldsOfWord(last);
    }
  }

  // ---------------------------------------------------------------------
  // Cues as text
  // ---------------------------------------------------------------------

  datatype Cue = Cue(id: string, start: int, end: int, settings: string, lines: seq<string>)

  const ARROW := "-->"

  predicate ArrowHere(s: string, j: int) { 0 <= j && j + 3 <= |s| && s[j] == '-' && s[j + 1] == '-' && s[j + 2] == '>' }

  // Where the first arrow is; the length when there is none.
  function ArrowAt(s: string): (k: nat)
    ensures k <= |s| && (k < |s| ==> ArrowHere(s, k))
    ensures forall j :: ArrowHere(s, j) ==> k <= j
  {
    if |s| < 3 then |s|
    else if ArrowHere(s, 0) then 0
    else
      assert forall j :: ArrowHere(s, j) ==> ArrowHere(s[1..], j - 1);
      ArrowAt(s[1..]) + 1
  }

  predicate HasArrow(s: string) { ArrowAt(s) < |s| }

  function ParseTiming(id: string, line: string, lines: seq<string>): Option<Cue>
    requires HasArrow(line)
  {
    var k := ArrowAt(line);
    var start, fields := ParseStamp(TrimSpace(line[..k])), Fields(line[k + 3..]);
    if start.None? || fields == [] then None
    else
      var end := ParseStamp(fields[0]);
      if end.None? then None else Some(Cue(id, start.value, end.value, JoinWords(fields[1..]), lines))
  }

  function ParseCue(block: string): Option<Cue> {
    var rows := Split(block, '\n');
    if HasArrow(rows[0]) then ParseTiming("", rows[0], rows[1..])
    else if |rows| < 2 || !HasArrow(rows[1]) then None
    else ParseTiming(rows[0], rows[1], rows[2..])
  }

  predicate WellFormed(c: Cue) {
    && c.start > -100 && c.end > -100 && c.lines != []
    && (forall l :: l in c.lines ==> Free(l, '\n'))
    && Free(c.id, '\n') && !HasArrow(c.id)
    && JoinWords(Fields(c.settings)) == c.settings
  }

  function Timing(c: Cue): string
    requires c.start > -100 && c.end > -100
  {
    Stamp(c.start) + " " + ARROW + " " + Stamp(c.end) + if c.settings != "" then " " + c.settings else ""
  }

  function Printed(c: Cue): string
    requires c.start > -100 && c.end > -100
  {
    Join((if c.id != "" then [c.id] else []) + [Timing(c)] + c.lines, '\n')
  }

  // What stamps are made of.
  predicate StampChar(c: char) { '0' <= c <= '9' || c == ':' || c == '.' || c == '-' }

  lemma StampChars(ms: int)
    requires ms > -100
    ensures Stamp(ms) != "" && forall c :: c in Stamp(ms) ==> StampChar(c)
  {
    hide Padded, Fraction, ValueOf, ParseInt;
    var whole, rest := if ms >= 0 then ms / 1000 else 0, if ms >= 0 then ms % 1000 else ms;
    PaddedParses(whole / 3600, 2);
    PaddedParses(whole / 60 % 60, 2);
    PaddedParses(whole % 60, 2);
    FractionParses(rest);
  }

  lemma StampIsWord(ms: int)
    requires ms > -100
    ensures Word(Stamp(ms)) && Free(Stamp(ms), '\n') && Free(Stamp(ms), '>')
  {
    StampChars(ms);
    forall c | c in Stamp(ms) ensures !IsSpace(c) && c != '\n' && c != '>' {
      assert StampChar(c);
    }
  }

  lemma TrimWord(w: string)
    requires Word(w)
    ensures TrimSpace(w + " ") == w
  {
    assert (w + " ")[..|w|] == w;
    assert w[|w| - 1] in w && w[0] in w;
  }

  // The first arrow of a line whose text before it has no '>'.
  lemma FirstArrow(a: string, b: string)
    requires Free(a, '>')
    ensures ArrowAt(a + ARROW + b) == |a| && HasArrow(a + ARROW + b)
  {
    var s := a + ARROW + b;
    assert ArrowHere(s, |a|);
    var k := ArrowAt(s);
    assert s[k + 2] == '>';
    forall i | 0 <= i < |a| + 2 ensures s[i] != '>' {
      if i < |a| {
        assert s[i] == a[i] && a[i] in a;
      }
    }
  }

  lemma TimingParses(id: string, c: Cue)
    requires WellFormed(c) && c.id == id
    ensures HasArrow(Timing(c)) && ParseTiming(id, Timing(c), c.lines) == Some(c)
  {
    hide Stamp, ParseStamp, Fields, TrimSpace, ArrowAt;
    var left, right := Stamp(c.start) + " ", " " + Stamp(c.end) + if c.settings != "" then " " + c.settings else "";
    assert Timing(c) == left + ARROW + right;
    StampIsWord(c.start);
    FreeParts(Stamp(c.start), " ", '>');
    FirstArrow(left, right);
    assert Timing(c)[..|left|] == left && Timing(c)[|left| + 3..] == right;
    TrimWord(Stamp(c.start));
    StampParses(c.start);
    StampParses(c.end);
    FieldsOfTiming(c);
  }

  lemma FieldsOfEnd(e: string, settings: string)
    requires Word(e)
    ensures Fields(" " + e) == [e] && Fields(" " + e + (" " + settings)) == [e] + Fields(settings)
  {
    assert Fields("") == [];
    hide Fields, Word;
    FieldsOfWord(e);
    FieldsOfSum("", e);
    assert "" + " " + e == " " + e;
    FieldsOfSum(" " + e, settings);
    assert " " + e + (" " + settings) == " " + e + " " + settings;
  }

  lemma FieldsOfTiming(c: Cue)
    requires WellFormed(c)
    ensures Fields(" " + Stamp(c.end) + if c.settings != "" then " " + c.settings else "") == [Stamp(c.end)] + Fields(c.settings)
  {
    assert Fields("") == [];
    hide Stamp, Fields, Word, JoinWords;
    StampIsWord(c.end);
    FieldsOfEnd(Stamp(c.end), c.settings);
    assert " " + Stamp(c.end) + "" == " " + Stamp(c.end);
  }

  lemma {:induction false} JoinFree(parts: seq<string>, sep: char, other: char)
    requires parts != [] && sep != other && forall p :: p in parts ==> Free(p, other)
    ensures Free(Join(parts, sep), other)
  {
    if |parts| == 1 {
      assert parts[0] in parts;
    } else {
      JoinFree(parts[..|parts| - 1], sep, other);
      assert parts[|parts| - 1] in parts;
    }
  }

  lemma WordsFree(ws: seq<string>)
    requires forall w :: w in ws ==> Word(w)
    ensures Free(JoinWords(ws), '\n')
  {
    forall w | w in ws ensures Free(w, '\n') {
      assert Word(w);
    }
    if ws != [] {
      JoinFree(ws, ' ', '\n');
    }
  }

  lemma TimingIsOneLine(c: Cue)
    requires WellFormed(c)
    ensures Free(Timing(c), '\n')
  {
    hide Stamp, Fields, JoinWords;
    StampIsWord(c.start);
    StampIsWord(c.end);
    FieldsAreWords(c.settings);
    WordsFree(Fields(c.settings));
  }

  // A printed cue is read back.
  lemma CueParses(c: Cue)
    requires WellFormed(c)
    ensures ParseCue(Printed(c)) == Some(c)
  {
    hide Timing, ParseTiming;
    var rows := (if c.id != "" then [c.id] else []) + [Timing(c)] + c.lines;
    TimingIsOneLine(c);
    SplitJoined(rows, '\n');
    TimingParses(c.id, c);
    if c.id != "" {
      assert rows[0] == c.id && rows[1] == Timing(c) && rows[2..] == c.lines;
    } else {
      assert rows[0] == Timing(c) && rows[1..] == c.lines;
    }
  }

  lemma {:induction false} SplitFree(s: string, sep: char)
    ensures forall p :: p in Split(s, sep) ==> Free(p, sep)
  {
    if s != "" {
      SplitFree(s[..|s| - 1], sep);
      var front := Split(s[..|s| - 1], sep);
      assert front[|front| - 1] in front;
    }
  }

  // What is read with at least one line of text is well-formed.
  lemma ParsedIsWellFormed(block: string)
    requires ParseCue(block).Some? && ParseCue(block).value.lines != []
    ensures WellFormed(ParseCue(block).value)
  {
    hide ArrowAt, ParseTiming, Fields, JoinWords, Split;
    var rows := Split(block, '\n');
    SplitFree(block, '\n');
    if HasArrow(rows[0]) {
      ParsedTiming("", rows[0], rows[1..]);
    } else {
      assert rows[0] in rows;
      ParsedTiming(rows[0], rows[1], rows[2..]);
    }
  }

  lemma ParsedTiming(id: string, line: string, lines: seq<string>)
    requires HasArrow(line) && ParseTiming(id, line, lines).Some?
    ensures var c := ParseTiming(id, line, lines).value;
      c.id == id && c.lines == lines && c.start > -100 && c.end > -100 && JoinWords(Fields(c.settings)) == c.settings
  {
    hide ParseStamp;
    var k := ArrowAt(line);
    var fields := Fields(line[k + 3..]);
    ParsedStampPrints(TrimSpace(line[..k]));
    ParsedStampPrints(fields[0]);
    FieldsAreWords(line[k + 3..]);
    forall w | w in fields[1..] ensures Word(w) {
      assert w in fields;
    }
    FieldsOfWords(fields[1..]);
  }

  // ---------------------------------------------------------------------
  // Inline time stamps and tags
  // ---------------------------------------------------------------------

  // d stands for a digit.
  const SHAPES: seq<string> := ["<d:dd.ddd>", "<dd:dd.ddd>", "<d:dd:dd.ddd>", "<dd:dd:dd.ddd>"]

  predicate ShapedAt(s: string, i: nat, shape: string) {
    && i + |shape| <= |s|
    && forall k :: 0 <= k < |shape| ==> if shape[k] == 'd' then '0' <= s[i + k] <= '9' else s[i + k] == shape[k]
  }

  predicate HasInline(s: string) { exists i, k :: 0 <= i < |s| && 0 <= k < |SHAPES| && ShapedAt(s, i, SHAPES[k]) }

  // A '<' with a '>' somewhere behind it.
  predicate Angled(s: string) { exists i, j :: 0 <= i < j < |s| && s[i] == '<' && s[j] == '>' }

  lemma InlineIsAngled(s: string)
    requires HasInline(s)
    ensures Angled(s)
  {
    var i, k :| 0 <= i < |s| && 0 <= k < |SHAPES| && ShapedAt(s, i, SHAPES[k]);
    var last := |SHAPES[k]| - 1;
    assert SHAPES[k][0] == '<' && SHAPES[k][last] == '>';
    assert s[i + 0] == '<' && s[i + last] == '>';
  }

  // Everything from a '<' to the next '>' goes.
  function StripTags(s: string): string
    decreases |s|
  {
    if s == "" then ""
    else if s[0] != '<' then [s[0]] + StripTags(s[1..])
    else
      var end := Cut(s, '>');
      if end.None? then [s[0]] + StripTags(s[1..])
      else StripTags(end.value.1)
  }

  lemma {:induction false} StripMembers(s: string)
    ensures forall c :: c in StripTags(s) ==> c in s
    decreases |s|
  {
    if s != "" {
      assert s == [s[0]] + s[1..];
      var end := Cut(s, '>');
      if s[0] == '<' && end.Some? {
        StripMembers(end.value.1);
      } else {
        StripMembers(s[1..]);
      }
    }
  }

  lemma AngledBehind(c: char, r: string)
    requires !Angled(r) && (c == '<' ==> Free(r, '>'))
    ensures !Angled([c] + r)
  {
    forall i, j | 0 <= i < j < |[c] + r| ensures !(([c] + r)[i] == '<' && ([c] + r)[j] == '>') {
      assert ([c] + r)[j] == r[j - 1] && r[j - 1] in r;
      if i > 0 {
        assert ([c] + r)[i] == r[i - 1];
      }
    }
  }

  lemma {:induction false} StripTagsUnangles(s: string)
    ensures !Angled(StripTags(s))
    decreases |s|
  {
    if s != "" {
      var end := Cut(s, '>');
      if s[0] == '<' && end.Some? {
        StripTagsUnangles(end.value.1);
      } else {
        StripTagsUnangles(s[1..]);
        StripMembers(s[1..]);
        assert s == [s[0]] + s[1..];
        FreeParts([s[0]], s[1..], '>');
        AngledBehind(s[0], StripTags(s[1..]));
      }
    }
  }

  predicate IsGap(c: char) { c == ' ' || c == '\t' || c == '\n' || c as int == 12 || c == '\r' }

  // Each run of white space becomes one space.
  function Squeezed(s: string): string {
    if s == "" then ""
    else
      var front, c := s[..|s| - 1], s[|s| - 1];
      if !IsGap(c) then Squeezed(front) + [c]
      else if front != "" && IsGap(front[|front| - 1]) then Squeezed(front)
      else Squeezed(front) + " "
  }

  lemma {:induction false} SqueezedMembers(s: string)
    ensures forall c :: c in Squeezed(s) ==> c == ' ' || (c in s && !IsGap(c))
  {
    if s != "" {
      SqueezedMembers(s[..|s| - 1]);
      assert s == s[..|s| - 1] + [s[|s| - 1]];
    }
  }

  lemma AngledBefore(r: string, c: char)
    requires !Angled(r) && (c == '>' ==> Free(r, '<'))
    ensures !Angled(r + [c])
  {
    forall i, j | 0 <= i < j < |r + [c]| ensures !((r + [c])[i] == '<' && (r + [c])[j] == '>') {
      assert (r + [c])[i] == r[i] && r[i] in r;
      if j < |r| {
        assert (r + [c])[j] == r[j];
      }
    }
  }

  lemma PrefixUnangled(p: string, s: string)
    requires p <= s && !Angled(s)
    ensures !Angled(p)
  {
    forall i, j | 0 <= i < j < |p| ensures !(p[i] == '<' && p[j] == '>') {
      assert p[i] == s[i] && p[j] == s[j];
    }
  }

  lemma NothingOpens(s: string)
    requires !Angled(s) && s != "" && s[|s| - 1] == '>'
    ensures Free(s[..|s| - 1], '<')
  {
    var front := s[..|s| - 1];
    forall i | 0 <= i < |front| ensures front[i] != '<' {
      assert front[i] == s[i];
    }
  }

  lemma {:induction false} SqueezedUnangled(s: string)
    requires !Angled(s)
    ensures !Angled(Squeezed(s))
  {
    if s != "" {
      var front, c := s[..|s| - 1], s[|s| - 1];
      PrefixUnangled(front, s);
      SqueezedUnangled(front);
      SqueezedMembers(front);
      if c == '>' {
        NothingOpens(s);
        AngledBefore(Squeezed(front), c);
      } else {
        AngledBefore(Squeezed(front), if IsGap(c) then ' ' else c);
      }
    }
  }

  lemma TrimUnangled(s: string)
    requires !Angled(s)
    ensures !Angled(TrimSpace(s))
  {
    hide IsSpace;
    var e := TrimEnd(s);
    PrefixUnangled(e, s);
    var r := TrimStart(e);
    forall i, j | 0 <= i < j < |r| ensures !(r[i] == '<' && r[j] == '>') {
      assert r[i] == e[|e| - |r| + i] && r[j] == e[|e| - |r| + j];
    }
  }

  function Clean(s: string): string { TrimSpace(Squeezed(StripTags(s))) }

  // Cleaning leaves no inline time stamp, not even one that the removal of a
  // tag would have put together.
  lemma CleanHasNoInline(s: string)
    ensures !HasInline(Clean(s))
  {
    StripTagsUnangles(s);
    SqueezedUnangled(StripTags(s));
    TrimUnangled(Squeezed(StripTags(s)));
    if HasInline(Clean(s)) {
      InlineIsAngled(Clean(s));
    }
  }

  lemma TrimmedEnds(s: string)
    ensures var r := TrimSpace(s);
      && (r != "" ==> !IsSpace(r[0]) && !IsSpace(r[|r| - 1]))
      && (forall c :: c in r ==> c in s)
  {
    var e := TrimEnd(s);
    var r := TrimStart(e);
    if r != "" {
      assert r[|r| - 1] == e[|e| - 1];
    }
  }

  lemma PlainSpaces()
    ensures IsSpace(' ') && IsSpace('\t') && IsSpace('\n')
  {
  }

  // A cleaned line is one line, without spaces at its ends.
  lemma CleanIsTrim(s: string)
    ensures var r := Clean(s);
      Free(r, '\n') && (r != "" ==> !Blank(r) && TrimRight(r) == r)
  {
    hide IsSpace, Squeezed, StripTags, TrimSpace;
    var q := Squeezed(StripTags(s));
    PlainSpaces();
    SqueezedMembers(StripTags(s));
    TrimmedEnds(q);
    var r := Clean(s);
    if r != "" {
      assert r[|r| - 1] in r;
    }
  }

  // ---------------------------------------------------------------------
  // The roll-up conversion
  // ---------------------------------------------------------------------

  const PAIR_GAP := 1000
  const MAX_LINES: nat := 2

  // A caption line with the time of the cue that introduces it.
  datatype Piece = Piece(start: int, end: int, text: string)

  // The last line with inline stamps.
  function IntroducedLine(lines: seq<string>): Option<string> {
    if lines == [] then None
    else if HasInline(lines[|lines| - 1]) then Some(lines[|lines| - 1])
    else IntroducedLine(lines[..|lines| - 1])
  }

  function Introduced(c: Cue): Option<Piece> {
    var l := IntroducedLine(c.lines);
    if l.None? || Clean(l.value) == "" then None else Some(Piece(c.start, c.end, Clean(l.value)))
  }

  function Pieces(cues: seq<Cue>): seq<Piece> {
    if cues == [] then []
    else
      var front, p := Pieces(cues[..|cues| - 1]), Introduced(cues[|cues| - 1]);
      if p.None? then front else front + [p.value]
  }

  // Consecutive lines share a cue unless a long pause parts them.
  predicate Pairs(ps: seq<Piece>) { |ps| >= 2 && ps[1].start - ps[0].end <= PAIR_GAP }

  function Paired(ps: seq<Piece>): seq<Cue>
    decreases |ps|
  {
    if ps == [] then []
    else if Pairs(ps) then [Cue("", ps[0].start, ps[1].end, "", [ps[0].text, ps[1].text])] + Paired(ps[2..])
    else [Cue("", ps[0].start, ps[0].end, "", [ps[0].text])] + Paired(ps[1..])
  }

  method FromRollUp(cues: seq<Cue>) returns (out: seq<Cue>)
    ensures out == Paired(Pieces(cues))
  {
    hide Pieces;
    var pieces := CollectPieces(cues);
    out := [];
    var i := 0;
    while i < |pieces|
      invariant 0 <= i <= |pieces|
      invariant out + Paired(pieces[i..]) == Paired(pieces)
    {
      var c, n := TakeGroup(pieces, i);
      assert pieces[i..][n..] == pieces[i + n..];
      out := out + [c];
      i := i + n;
    }
    assert pieces[i..] == [];
  }

  // The cue that starts with piece i, and how many pieces it takes.
  method TakeGroup(pieces: seq<Piece>, i: nat) returns (c: Cue, n: nat)
    requires i < |pieces|
    ensures 1 <= n && i + n <= |pieces| && Paired(pieces[i..]) == [c] + Paired(pieces[i..][n..])
  {
    ghost var rest := pieces[i..];
    var end, lines := pieces[i].end, [pieces[i].text];
    n := 1;
    while n < MAX_LINES && i + n < |pieces| && pieces[i + n].start - end <= PAIR_GAP
      invariant 1 <= n <= MAX_LINES && i + n <= |pieces| && |lines| == n
      invariant end == rest[n - 1].end && (n == 2 ==> Pairs(rest))
      invariant lines == if n == 1 then [rest[0].text] else [rest[0].text, rest[1].text]
    {
      lines := lines + [pieces[i + n].text];
      end := pieces[i + n].end;
      n := n + 1;
    }
    assert n == if Pairs(rest) then 2 else 1;
    c := Cue("", pieces[i].start, end, "", lines);
  }

  // From the last line back.
  method FindIntroduced(lines: seq<string>) returns (l: Option<string>)
    ensures l == IntroducedLine(lines)
  {
    var i := |lines|;
    assert lines[..i] == lines;
    while i > 0
      invariant 0 <= i <= |lines| && IntroducedLine(lines) == IntroducedLine(lines[..i])
    {
      assert lines[..i][..i - 1] == lines[..i - 1];
      i := i - 1;
      if HasInline(lines[i]) {
        return Some(lines[i]);
      }
    }
    return None;
  }

  method CollectPieces(cues: seq<Cue>) returns (pieces: seq<Piece>)
    ensures pieces == Pieces(cues)
  {
    hide Clean, IntroducedLine;
    pieces := [];
    for k := 0 to |cues|
      invariant pieces == Pieces(cues[..k])
    {
      assert cues[..k + 1][..k] == cues[..k];
      var line := FindIntroduced(cues[k].lines);
      if line.Some? {
        var t := Clean(line.value);
        if t != "" {
          pieces := pieces + [Piece(cues[k].start, cues[k].end, t)];
        }
      }
    }
    assert cues[..|cues|] == cues;
  }

  // The lines a viewer reads, in order.
  function Shown(cues: seq<Cue>): seq<string> {
    if cues == [] then [] else cues[0].lines + Shown(cues[1..])
  }

  function Texts(ps: seq<Piece>): seq<string> {
    seq(|ps|, i requires 0 <= i < |ps| => ps[i].text)
  }

  // Each introduced line is shown once and in order, at most two to a cue,
  // from the start of the first to the end of the last.
  lemma {:induction false} RollUpShowsAll(ps: seq<Piece>)
    ensures Shown(Paired(ps)) == Texts(ps)
    ensures forall c :: c in Paired(ps) ==> 1 <= |c.lines| <= MAX_LINES && c.id == "" && c.settings == ""
    decreases |ps|
  {
    if ps != [] {
      var n := if Pairs(ps) then 2 else 1;
      RollUpShowsAll(ps[n..]);
      assert Texts(ps) == Texts(ps[..n]) + Texts(ps[n..]);
      assert Paired(ps)[1..] == Paired(ps[n..]);
      assert Texts(ps[..n]) == Paired(ps)[0].lines;
    }
  }

  // A cue with room left ends where a pause of more than a second begins.
  lemma {:induction false} RollUpBreaksOnPauses(ps: seq<Piece>, k: nat)
    requires k + 1 < |Paired(ps)| && |Paired(ps)[k].lines| < MAX_LINES
    ensures Paired(ps)[k + 1].start - Paired(ps)[k].end > 1000
    decreases k
  {
    var n := if Pairs(ps) then 2 else 1;
    if k > 0 {
      RollUpBreaksOnPauses(ps[n..], k - 1);
    } else {
      assert Paired(ps)[1] == Paired(ps[1..])[0];
    }
  }

  // And two lines share a cue only when no such pause parts them.
  lemma {:induction false} RollUpPairsAcrossNoPause(ps: seq<Piece>, k: nat)
    requires k < |Paired(ps)| && |Paired(ps)[k].lines| == MAX_LINES
    ensures exists i :: 0 <= i && i + 1 < |ps| && Together(ps, i, Paired(ps)[k])
    decreases k
  {
    var n := if Pairs(ps) then 2 else 1;
    if k > 0 {
      RollUpPairsAcrossNoPause(ps[n..], k - 1);
      var i :| 0 <= i && i + 1 < |ps[n..]| && Together(ps[n..], i, Paired(ps[n..])[k - 1]);
      assert Together(ps, i + n, Paired(ps)[k]);
    } else {
      assert Together(ps, 0, Paired(ps)[k]);
    }
  }

  predicate Together(ps: seq<Piece>, i: nat, c: Cue)
    requires i + 1 < |ps|
  {
    && c.lines == [ps[i].text, ps[i + 1].text] && c.start == ps[i].start && c.end == ps[i + 1].end
    && ps[i + 1].start - ps[i].end <= 1000
  }

  // ---------------------------------------------------------------------
  // Plain files
  // ---------------------------------------------------------------------

  function TidyLines(lines: seq<string>): seq<string> {
    if lines == [] then []
    else
      var front, l := TidyLines(lines[..|lines| - 1]), lines[|lines| - 1];
      if Blank(l) then front else front + [TrimRight(l)]
  }

  // The left-edge pin of one site's captions.
  predicate YouTubePin(settings: string) {
    var f := Fields(settings);
    |f| == 2 && "align:start" in f && "position:0%" in f
  }

  function TidyCue(c: Cue): Cue {
    c.(settings := if YouTubePin(c.settings) then "" else c.settings, lines := TidyLines(c.lines))
  }

  function Tidied(cues: seq<Cue>): seq<Cue> {
    if cues == [] then []
    else
      var front, c := Tidied(cues[..|cues| - 1]), TidyCue(cues[|cues| - 1]);
      if c.lines == [] then front else front + [c]
  }

  method Tidy(cues: seq<Cue>) returns (out: seq<Cue>)
    ensures out == Tidied(cues)
  {
    out := [];
    for k := 0 to |cues|
      invariant out == Tidied(cues[..k])
    {
      assert cues[..k + 1][..k] == cues[..k];
      var c := cues[k];
      var settings := if YouTubePin(c.settings) then "" else c.settings;
      var lines: seq<string> := [];
      for i := 0 to |c.lines|
        invariant lines == TidyLines(c.lines[..i])
      {
        assert c.lines[..i + 1][..i] == c.lines[..i];
        if !Blank(c.lines[i]) {
          lines := lines + [TrimRight(c.lines[i])];
        }
      }
      assert c.lines[..|c.lines|] == c.lines;
      if lines != [] {
        out := out + [c.(settings := settings, lines := lines)];
      }
    }
    assert cues[..|cues|] == cues;
  }

  // ---------------------------------------------------------------------
  // Normalising twice
  // ---------------------------------------------------------------------

  predicate RollsUp(cues: seq<Cue>) { exists c, l :: c in cues && l in c.lines && HasInline(l) }

  function Normalized(cues: seq<Cue>): seq<Cue> { if RollsUp(cues) then Paired(Pieces(cues)) else Tidied(cues) }

  // A line that tidying leaves alone, and that no roll-up is known by.
  predicate Neat(l: string) { !Blank(l) && TrimRight(l) == l && !HasInline(l) }

  predicate NeatCue(c: Cue) {
    c.lines != [] && !YouTubePin(c.settings) && forall l :: l in c.lines ==> Neat(l)
  }

  predicate NeatCues(cues: seq<Cue>) { forall c :: c in cues ==> NeatCue(c) }

  lemma {:induction false} NeatLinesStay(lines: seq<string>)
    requires forall l :: l in lines ==> Neat(l)
    ensures TidyLines(lines) == lines
  {
    if lines != [] {
      assert lines[|lines| - 1] in lines;
      NeatLinesStay(lines[..|lines| - 1]);
      assert lines == lines[..|lines| - 1] + [lines[|lines| - 1]];
    }
  }

  lemma {:induction false} NeatCuesStay(cues: seq<Cue>)
    requires NeatCues(cues)
    ensures Tidied(cues) == cues && !RollsUp(cues)
  {
    forall c, l | c in cues && l in c.lines ensures !HasInline(l) {
      assert NeatCue(c) && Neat(l);
    }
    if cues != [] {
      var c := cues[|cues| - 1];
      assert c in cues && NeatCue(c);
      NeatCuesStay(cues[..|cues| - 1]);
      NeatLinesStay(c.lines);
      assert cues == cues[..|cues| - 1] + [c];
    }
  }

  lemma NoPinLeft(settings: string)
    ensures !YouTubePin(if YouTubePin(settings) then "" else settings)
  {
  }

  lemma ShapedInPrefix(p: string, s: string, i: nat, shape: string)
    requires p <= s && ShapedAt(p, i, shape)
    ensures ShapedAt(s, i, shape)
  {
  }

  lemma TrimmedIsNeat(l: string)
    requires !Blank(l) && !HasInline(l)
    ensures Neat(TrimRight(l))
  {
    var r := TrimRight(l);
    TrimKeepsText(l);
    forall i, k | 0 <= i < |r| && 0 <= k < |SHAPES| ensures !ShapedAt(r, i, SHAPES[k]) {
      if ShapedAt(r, i, SHAPES[k]) {
        ShapedInPrefix(r, l, i, SHAPES[k]);
      }
    }
  }

  lemma {:induction false} TrimKeepsText(l: string)
    ensures Blank(TrimRight(l)) ==> Blank(l)
  {
    if l != "" && (l[|l| - 1] == ' ' || l[|l| - 1] == '\t') {
      PlainSpaces();
      TrimKeepsText(l[..|l| - 1]);
      assert l == l[..|l| - 1] + [l[|l| - 1]];
    }
  }

  lemma {:induction false} TidyLinesNeat(lines: seq<string>)
    requires forall l :: l in lines ==> !HasInline(l)
    ensures forall l :: l in TidyLines(lines) ==> Neat(l)
  {
    if lines != [] {
      var front, l := lines[..|lines| - 1], lines[|lines| - 1];
      assert l in lines;
      TidyLinesNeat(front);
      if !Blank(l) {
        TrimmedIsNeat(l);
      }
    }
  }

  lemma {:induction false} TidiedNeat(cues: seq<Cue>)
    requires !RollsUp(cues)
    ensures NeatCues(Tidied(cues))
  {
    if cues != [] {
      var front, c := cues[..|cues| - 1], cues[|cues| - 1];
      assert c in cues;
      assert forall x :: x in front ==> x in cues;
      TidiedNeat(front);
      TidyLinesNeat(c.lines);
      NoPinLeft(c.settings);
    }
  }

  lemma CleanIsNeat(l: string)
    requires Clean(l) != ""
    ensures Neat(Clean(l)) && Free(Clean(l), '\n')
  {
    CleanIsTrim(l);
    CleanHasNoInline(l);
  }

  lemma {:induction false} PiecesAreNeat(cues: seq<Cue>)
    ensures forall p :: p in Pieces(cues) ==> Neat(p.text) && Free(p.text, '\n')
  {
    hide Clean, Neat, Free;
    if cues != [] {
      PiecesAreNeat(cues[..|cues| - 1]);
      var l := IntroducedLine(cues[|cues| - 1].lines);
      if l.Some? && Clean(l.value) != "" {
        CleanIsNeat(l.value);
      }
    }
  }

  lemma {:induction false} PairedNeat(ps: seq<Piece>)
    requires forall p :: p in ps ==> Neat(p.text)
    ensures NeatCues(Paired(ps))
    decreases |ps|
  {
    if ps != [] {
      var n := if Pairs(ps) then 2 else 1;
      assert ps[0] in ps && (n == 2 ==> ps[1] in ps);
      assert forall p :: p in ps[n..] ==> p in ps;
      PairedNeat(ps[n..]);
      assert Fields("") == [];
      assert NeatCue(Paired(ps)[0]);
    }
  }

  // Normalising a list of cues twice is normalising it once.
  lemma NormalizedTwice(cues: seq<Cue>)
    ensures Normalized(Normalized(cues)) == Normalized(cues)
  {
    var out := Normalized(cues);
    if RollsUp(cues) {
      PiecesAreNeat(cues);
      PairedNeat(Pieces(cues));
    } else {
      TidiedNeat(cues);
    }
    NeatCuesStay(out);
  }

  // ---------------------------------------------------------------------
  // A normalised file is read back as it was written
  // ---------------------------------------------------------------------

  predicate Readable(cues: seq<Cue>) { forall c :: c in cues ==> c.lines == [] || WellFormed(c) }

  lemma {:induction false} TidyLinesFree(lines: seq<string>)
    requires forall l :: l in lines ==> Free(l, '\n')
    ensures forall l :: l in TidyLines(lines) ==> Free(l, '\n')
  {
    if lines != [] {
      var front, l := lines[..|lines| - 1], lines[|lines| - 1];
      assert l in lines;
      TidyLinesFree(front);
      var r := TrimRight(l);
      assert l == r + l[|r|..];
      FreeParts(r, l[|r|..], '\n');
    }
  }

  lemma TidyCueReadable(c: Cue)
    requires WellFormed(c) && TidyCue(c).lines != []
    ensures WellFormed(TidyCue(c))
  {
    TidyLinesFree(c.lines);
    assert Fields("") == [];
  }

  lemma {:induction false} TidiedReadable(cues: seq<Cue>)
    requires Readable(cues)
    ensures forall c :: c in Tidied(cues) ==> WellFormed(c)
  {
    hide WellFormed;
    if cues != [] {
      var front, c := cues[..|cues| - 1], cues[|cues| - 1];
      assert c in cues;
      assert forall x :: x in front ==> x in cues;
      TidiedReadable(front);
      if TidyCue(c).lines != [] {
        assert c.lines != [];
        TidyCueReadable(c);
      }
    }
  }

  lemma {:induction false} PiecesInTime(cues: seq<Cue>)
    requires Readable(cues)
    ensures forall p :: p in Pieces(cues) ==> p.start > -100 && p.end > -100
  {
    if cues != [] {
      var front, c := cues[..|cues| - 1], cues[|cues| - 1];
      assert c in cues;
      assert forall x :: x in front ==> x in cues;
      PiecesInTime(front);
    }
  }

  lemma {:induction false} PairedReadable(ps: seq<Piece>)
    requires forall p :: p in ps ==> p.start > -100 && p.end > -100 && Free(p.text, '\n')
    ensures forall c :: c in Paired(ps) ==> WellFormed(c)
    decreases |ps|
  {
    if ps != [] {
      var n := if Pairs(ps) then 2 else 1;
      assert ps[0] in ps && (n == 2 ==> ps[1] in ps);
      assert forall p :: p in ps[n..] ==> p in ps;
      PairedReadable(ps[n..]);
      assert Fields("") == [] && !HasArrow("");
      assert WellFormed(Paired(ps)[0]);
    }
  }

  // Every cue that normalising writes is read back unchanged, so reading and
  // normalising the result again changes nothing.
  lemma NormalizedIsReadBack(cues: seq<Cue>, c: Cue)
    requires Readable(cues) && c in Normalized(cues)
    ensures WellFormed(c) && ParseCue(Printed(c)) == Some(c)
  {
    if RollsUp(cues) {
      PiecesAreNeat(cues);
      PiecesInTime(cues);
      PairedReadable(Pieces(cues));
    } else {
      TidiedReadable(cues);
    }
    CueParses(c);
  }
}
