// Normalising a file twice: exactly when it is normalising it once. Carriage
// returns are counted: normalising adds none, and every CRLF pair loses one.
module WebVttTwice {
  import opened Base
  import opened Text
  import opened WebVtt
  import opened WebVttFile

  // ---------------------------------------------------------------------
  // Carriage returns
  // ---------------------------------------------------------------------

  function Returns(s: string): nat {
    if s == "" then 0 else Returns(s[..|s| - 1]) + if s[|s| - 1] == '\r' then 1 else 0
  }

  function ReturnsIn(bs: seq<string>): nat {
    if bs == [] then 0 else ReturnsIn(bs[..|bs| - 1]) + Returns(bs[|bs| - 1])
  }

  function ReturnsOf(c: Cue): nat { Returns(c.id) + Returns(c.settings) + ReturnsIn(c.lines) }

  function ReturnsOfAll(cues: seq<Cue>): nat {
    if cues == [] then 0 else ReturnsOfAll(cues[..|cues| - 1]) + ReturnsOf(cues[|cues| - 1])
  }

  lemma {:induction false} ReturnsSum(a: string, b: string)
    ensures Returns(a + b) == Returns(a) + Returns(b)
    decreases |b|
  {
    if b == "" {
      assert a + b == a;
    } else {
      ReturnsSum(a, b[..|b| - 1]);
      assert (a + b)[..|a + b| - 1] == a + b[..|b| - 1];
    }
  }

  lemma {:induction false} ReturnsInSum(a: seq<string>, b: seq<string>)
    ensures ReturnsIn(a + b) == ReturnsIn(a) + ReturnsIn(b)
    decreases |b|
  {
    if b == [] {
      assert a + b == a;
    } else {
      ReturnsInSum(a, b[..|b| - 1]);
      assert (a + b)[..|a + b| - 1] == a + b[..|b| - 1];
    }
  }

  lemma ReturnsInOne(b: string)
    ensures ReturnsIn([b]) == Returns(b)
  {
    assert [b][..0] == [];
  }

  lemma ReturnsOne(c: char)
    ensures Returns([c]) == if c == '\r' then 1 else 0
  {
    assert [c][..0] == "";
  }

  lemma {:induction false} NoReturns(s: string)
    requires Free(s, '\r')
    ensures Returns(s) == 0
  {
    if s != "" {
      assert s == s[..|s| - 1] + [s[|s| - 1]];
      FreeParts(s[..|s| - 1], [s[|s| - 1]], '\r');
      assert s[|s| - 1] in s;
      NoReturns(s[..|s| - 1]);
    }
  }

  lemma FewerInPart(a: string, b: string, c: string)
    ensures Returns(b) <= Returns(a + b + c)
  {
    ReturnsSum(a + b, c);
    ReturnsSum(a, b);
  }

  // ---------------------------------------------------------------------
  // Reading
  // ---------------------------------------------------------------------

  // Every pair loses its carriage return.
  lemma {:induction false} UnixReturns(s: string)
    ensures Returns(Unix(s)) <= Returns(s)
    ensures NoCrLf(s) || Returns(Unix(s)) < Returns(s)
    decreases |s|
  {
    if |s| < 2 {
    } else if s[0] == '\r' && s[1] == '\n' {
      UnixReturns(s[2..]);
      assert s == "\r\n" + s[2..];
      ReturnsSum("\r\n", s[2..]);
      ReturnsSum("\n", Unix(s[2..]));
      assert "\r\n" == ['\r'] + ['\n'];
      ReturnsSum(['\r'], ['\n']);
      ReturnsOne('\r');
      ReturnsOne('\n');
    } else {
      UnixReturns(s[1..]);
      assert s == [s[0]] + s[1..];
      ReturnsSum([s[0]], s[1..]);
      ReturnsSum([s[0]], Unix(s[1..]));
      PairsBehind(s);
    }
  }

  lemma PairsBehind(s: string)
    requires |s| >= 2 && !CrLfAt(s, 0)
    ensures NoCrLf(s[1..]) ==> NoCrLf(s)
  {
    forall i | NoCrLf(s[1..]) && 0 < i < |s| ensures !CrLfAt(s, i) {
      assert !CrLfAt(s[1..], i - 1);
    }
  }

  lemma TrimReturns(s: string)
    ensures Returns(TrimSpace(s)) <= Returns(s)
  {
    var e := TrimEnd(s);
    var r := TrimStart(e);
    assert s == e[..|e| - |r|] + r + s[|e|..];
    FewerInPart(e[..|e| - |r|], r, s[|e|..]);
  }

  lemma TrimNewlinesReturns(b: string)
    ensures Returns(TrimNewlines(b)) <= Returns(b)
  {
    var e := TrimTail(b);
    var r := TrimHead(e);
    assert b == e[..|e| - |r|] + r + b[|e|..];
    FewerInPart(e[..|e| - |r|], r, b[|e|..]);
  }

  lemma TrimRightReturns(l: string)
    ensures Returns(TrimRight(l)) <= Returns(l)
  {
    var r := TrimRight(l);
    assert l == "" + r + l[|r|..];
    FewerInPart("", r, l[|r|..]);
  }

  lemma {:induction false} BlocksReturns(s: string)
    ensures ReturnsIn(Blocks(s)) <= Returns(s)
    decreases |s|
  {
    hide Returns, ReturnsIn;
    var k := FirstGap(s);
    if k < |s| {
      BlocksReturns(s[k + 2..]);
      ReturnsInSum([s[..k]], Blocks(s[k + 2..]));
      ReturnsInOne(s[..k]);
      assert s == s[..k] + s[k..k + 2] + s[k + 2..];
      ReturnsSum(s[..k] + s[k..k + 2], s[k + 2..]);
      ReturnsSum(s[..k], s[k..k + 2]);
    } else {
      ReturnsInOne(s);
    }
  }

  lemma {:induction false} SplitReturns(s: string)
    ensures ReturnsIn(Split(s, '\n')) == Returns(s)
  {
    hide Returns;
    if s == "" {
      ReturnsInOne("");
    } else {
      var front, c := s[..|s| - 1], s[|s| - 1];
      assert s == front + [c];
      SplitReturns(front);
      ReturnsSum(front, [c]);
      ReturnsOne(c);
      var f := Split(front, '\n');
      var last := f[|f| - 1];
      if c == '\n' {
        assert (f + [""])[..|f|] == f;
        NoReturns("");
      } else {
        var g := f[|f| - 1 := last + [c]];
        assert g[..|g| - 1] == f[..|f| - 1];
        ReturnsSum(last, [c]);
      }
    }
  }

  lemma {:induction false} JoinReturns(rows: seq<string>)
    requires rows != []
    ensures Returns(Join(rows, '\n')) == ReturnsIn(rows)
  {
    hide Returns;
    if |rows| == 1 {
      assert rows == [rows[0]];
      ReturnsInOne(rows[0]);
    } else {
      var front, last := rows[..|rows| - 1], rows[|rows| - 1];
      JoinReturns(front);
      ReturnsSum(Join(front, '\n') + ['\n'], last);
      ReturnsSum(Join(front, '\n'), ['\n']);
      ReturnsOne('\n');
    }
  }

  // The words of a line have none: it is white space.
  lemma SettingsReturns(s: string, k: nat)
    requires k <= |Fields(s)|
    ensures Returns(JoinWords(Fields(s)[k..])) == 0
  {
    FieldsAreWords(s);
    var ws := Fields(s)[k..];
    forall w | w in ws ensures Free(w, '\r') {
      assert Word(w) && IsSpace('\r');
    }
    if ws != [] {
      JoinFree(ws, ' ', '\r');
    }
    NoReturns(JoinWords(ws));
  }

  lemma TimingReturns(id: string, line: string, lines: seq<string>)
    requires HasArrow(line)
    ensures var c := ParseTiming(id, line, lines);
      c.Some? ==> ReturnsOf(c.value) == Returns(id) + ReturnsIn(lines)
  {
    hide Returns, ReturnsIn, Fields, ParseStamp, JoinWords;
    var k := ArrowAt(line);
    if Fields(line[k + 3..]) != [] {
      SettingsReturns(line[k + 3..], 1);
    }
  }

  lemma ParsedReturns(b: string)
    ensures ParseCue(b).Some? ==> ReturnsOf(ParseCue(b).value) <= Returns(b)
  {
    hide Returns, ReturnsIn, ParseTiming, HasArrow, ReturnsOf, Split;
    var rows := Split(b, '\n');
    SplitReturns(b);
    assert rows == [rows[0]] + rows[1..];
    ReturnsInSum([rows[0]], rows[1..]);
    ReturnsInOne(rows[0]);
    NoReturns("");
    if HasArrow(rows[0]) {
      TimingReturns("", rows[0], rows[1..]);
    } else if |rows| >= 2 && HasArrow(rows[1]) {
      TimingReturns(rows[0], rows[1], rows[2..]);
      assert rows[1..] == [rows[1]] + rows[2..];
      ReturnsInSum([rows[1]], rows[2..]);
    }
  }

  lemma {:induction false} ReadReturns(bs: seq<string>)
    ensures ReturnsIn(ExtrasOf(bs)) + ReturnsOfAll(CuesOf(bs)) <= ReturnsIn(bs)
  {
    hide Returns, ReturnsOf, ParseCue, TrimNewlines, CuesOf, ExtrasOf;
    NothingRead();
    if bs == [] {
      assert bs == [];
    } else {
      var front, last := bs[..|bs| - 1], bs[|bs| - 1];
      var b := TrimNewlines(last);
      assert bs == front + [last];
      ReadReturns(front);
      ReadOneMore(front, last);
      TrimNewlinesReturns(last);
      ParsedReturns(b);
      AppendedExtra(ExtrasOf(front), b);
      if ParseCue(b).Some? {
        AppendedCue(CuesOf(front), ParseCue(b).value);
      }
    }
  }

  lemma AppendedExtra(es: seq<string>, e: string)
    ensures ReturnsIn(es + [e]) == ReturnsIn(es) + Returns(e)
  {
    assert (es + [e])[..|es|] == es;
  }

  lemma AppendedCue(cs: seq<Cue>, c: Cue)
    ensures ReturnsOfAll(cs + [c]) == ReturnsOfAll(cs) + ReturnsOf(c)
  {
    assert (cs + [c])[..|cs|] == cs;
  }

  // ---------------------------------------------------------------------
  // Normalising and writing
  // ---------------------------------------------------------------------

  lemma {:induction false} TidyLinesReturns(lines: seq<string>)
    ensures ReturnsIn(TidyLines(lines)) <= ReturnsIn(lines)
  {
    hide Returns;
    if lines != [] {
      TidyLinesReturns(lines[..|lines| - 1]);
      TrimRightReturns(lines[|lines| - 1]);
      AppendedExtra(TidyLines(lines[..|lines| - 1]), TrimRight(lines[|lines| - 1]));
    }
  }

  lemma {:induction false} TidiedReturns(cues: seq<Cue>)
    ensures ReturnsOfAll(Tidied(cues)) <= ReturnsOfAll(cues)
  {
    hide Returns, ReturnsIn, YouTubePin, TidyLines;
    if cues != [] {
      var c := cues[|cues| - 1];
      TidiedReturns(cues[..|cues| - 1]);
      TidyLinesReturns(c.lines);
      NoReturns("");
      AppendedCue(Tidied(cues[..|cues| - 1]), TidyCue(c));
    }
  }

  lemma CleanReturns(l: string)
    ensures Free(Clean(l), '\r')
  {
    SqueezedMembers(StripTags(l));
    TrimmedEnds(Squeezed(StripTags(l)));
  }

  lemma {:induction false} PiecesReturns(cues: seq<Cue>)
    ensures forall p :: p in Pieces(cues) ==> Free(p.text, '\r')
  {
    hide Clean, HasInline;
    if cues != [] {
      PiecesReturns(cues[..|cues| - 1]);
      var l := IntroducedLine(cues[|cues| - 1].lines);
      if l.Some? {
        CleanReturns(l.value);
      }
    }
  }

  lemma {:induction false} PairedReturns(ps: seq<Piece>)
    requires forall p :: p in ps ==> Free(p.text, '\r')
    ensures forall c :: c in Paired(ps) ==> c.id == "" && c.settings == "" && forall l :: l in c.lines ==> Free(l, '\r')
    decreases |ps|
  {
    if ps != [] {
      PairedReturns(if Pairs(ps) then ps[2..] else ps[1..]);
    }
  }

  lemma {:induction false} NoneIn(lines: seq<string>)
    requires forall l :: l in lines ==> Free(l, '\r')
    ensures ReturnsIn(lines) == 0
  {
    hide Returns;
    if lines != [] {
      assert lines[|lines| - 1] in lines;
      NoneIn(lines[..|lines| - 1]);
      NoReturns(lines[|lines| - 1]);
    }
  }

  lemma {:induction false} NoneOf(cues: seq<Cue>)
    requires forall c :: c in cues ==> c.id == "" && c.settings == "" && forall l :: l in c.lines ==> Free(l, '\r')
    ensures ReturnsOfAll(cues) == 0
  {
    hide ReturnsIn;
    if cues != [] {
      assert cues[|cues| - 1] in cues;
      NoneOf(cues[..|cues| - 1]);
      NoneIn(cues[|cues| - 1].lines);
    }
  }

  lemma NormalizedReturns(cues: seq<Cue>)
    ensures ReturnsOfAll(Normalized(cues)) <= ReturnsOfAll(cues)
  {
    hide Pieces, Paired, Tidied, RollsUp, ReturnsOfAll;
    NormalizedEither(cues);
    if RollsUp(cues) {
      PiecesReturns(cues);
      PairedReturns(Pieces(cues));
      NoneOf(Paired(Pieces(cues)));
    } else {
      TidiedReturns(cues);
    }
  }

  lemma StampReturns(ms: int)
    requires ms > -100
    ensures Returns(Stamp(ms)) == 0
  {
    StampChars(ms);
    NoReturns(Stamp(ms));
  }

  lemma TimingLineReturns(c: Cue)
    requires c.start > -100 && c.end > -100
    ensures Returns(Timing(c)) == Returns(c.settings)
  {
    hide Returns, Stamp;
    StampReturns(c.start);
    StampReturns(c.end);
    var a, b := Stamp(c.start), Stamp(c.end);
    NoReturns(" ");
    NoReturns(ARROW);
    NoReturns("");
    ReturnsSum(a, " ");
    ReturnsSum(a + " ", ARROW);
    ReturnsSum(a + " " + ARROW, " ");
    ReturnsSum(a + " " + ARROW + " ", b);
    if c.settings != "" {
      ReturnsSum(" ", c.settings);
      ReturnsSum(a + " " + ARROW + " " + b, " " + c.settings);
    } else {
      assert Timing(c) == a + " " + ARROW + " " + b + "" == a + " " + ARROW + " " + b;
    }
  }

  lemma PrintedReturns(c: Cue)
    requires c.start > -100 && c.end > -100
    ensures Returns(Printed(c)) == ReturnsOf(c)
  {
    hide Returns, ReturnsIn, Timing, Join;
    var id := if c.id != "" then [c.id] else [];
    JoinReturns(id + [Timing(c)] + c.lines);
    ReturnsInSum(id + [Timing(c)], c.lines);
    ReturnsInSum(id, [Timing(c)]);
    ReturnsInOne(c.id);
    ReturnsInOne(Timing(c));
    NoneIn([]);
    NoReturns("");
    TimingLineReturns(c);
  }

  lemma {:induction false} PrintsReturns(cues: seq<Cue>)
    requires Printable(cues)
    ensures ReturnsIn(Prints(cues)) == ReturnsOfAll(cues)
  {
    hide Returns, ReturnsOf, Printed;
    if cues != [] {
      var front, last := cues[..|cues| - 1], cues[|cues| - 1];
      PrintsReturns(front);
      PrintedReturns(last);
      assert Prints(cues) == Prints(front) + [Printed(last)];
      AppendedExtra(Prints(front), Printed(last));
    }
  }

  lemma {:induction false} SpacedReturns(bs: seq<string>)
    ensures Returns(Spaced(bs)) == ReturnsIn(bs)
  {
    hide Returns;
    if bs != [] {
      SpacedReturns(bs[..|bs| - 1]);
      ReturnsSum(Spaced(bs[..|bs| - 1]) + bs[|bs| - 1], GAP);
      ReturnsSum(Spaced(bs[..|bs| - 1]), bs[|bs| - 1]);
      NoReturns(GAP);
    } else {
      NoReturns("");
    }
  }

  // Normalising adds no carriage return.
  lemma NormalizeReturns(data: string)
    requires IsFile(data)
    ensures Returns(Normalize(data)) <= Returns(Unix(data))
  {
    hide Returns, ReturnsIn, ReturnsOfAll, Unix, TrimSpace, Blocks, CuesOf, ExtrasOf, Normalized, Spaced, Prints, RollsUp;
    var bs := Blocks(TrimSpace(Unix(data)));
    var cues := CuesOf(bs[1..]);
    TrimReturns(Unix(data));
    BlocksReturns(TrimSpace(Unix(data)));
    assert bs == [bs[0]] + bs[1..];
    ReturnsInSum([bs[0]], bs[1..]);
    ReadReturns(bs[1..]);
    NormalizedReturns(cues);
    NormalizedIsPrintable(bs[1..]);
    PrintsReturns(Normalized(cues));
    var extras := if RollsUp(cues) then [] else ExtrasOf(bs[1..]);
    NoneIn([]);
    ReturnsInSum([bs[0]] + extras, Prints(Normalized(cues)));
    ReturnsInSum([bs[0]], extras);
    SpacedReturns([bs[0]] + extras + Prints(Normalized(cues)));
  }

  // ---------------------------------------------------------------------
  // Twice
  // ---------------------------------------------------------------------

  lemma {:induction false} UnixOfSum(a: string, b: string)
    requires Free(a, '\r')
    ensures Unix(a + b) == a + Unix(b)
    decreases |a|
  {
    if a == "" {
      assert a + b == b;
    } else {
      assert a == [a[0]] + a[1..] && a[0] in a;
      FreeParts([a[0]], a[1..], '\r');
      UnixOfSum(a[1..], b);
      assert (a + b)[1..] == a[1..] + b;
      UnixOfChar(a + b);
    }
  }

  lemma UnixOfChar(s: string)
    requires s != "" && s[0] != '\r'
    ensures Unix(s) == [s[0]] + Unix(s[1..])
  {
    if |s| == 1 {
      assert s == [s[0]] && s[1..] == "";
    }
  }

  // Text that starts like a WebVTT file is one.
  lemma StartsAFile(s: string)
    requires MAGIC <= s
    ensures IsFile(s)
  {
    hide Unix, Blocks, TrimSpace;
    var rest := s[|MAGIC|..];
    assert s == MAGIC + rest && Free(MAGIC, '\r');
    UnixOfSum(MAGIC, rest);
    MagicStays(Unix(rest));
    MagicLeads(TrimSpace(Unix(s)));
  }

  lemma MagicLeads(t: string)
    requires MAGIC <= t
    ensures MAGIC <= Blocks(t)[0]
  {
    hide Blocks;
    FirstBlock(t);
    assert forall i :: 0 <= i < 6 ==> t[i] == MAGIC[i] && t[i] != '\n';
    assert FirstGap(t) >= 6;
  }

  lemma MagicStays(rest: string)
    ensures MAGIC <= TrimSpace(MAGIC + rest)
  {
    assert !IsSpace('W') && !IsSpace('T') && MAGIC[5] == 'T' && MAGIC[0] == 'W';
    TrimEndSum(MAGIC, rest);
  }

  lemma NormalizedStarts(data: string)
    requires IsFile(data)
    ensures MAGIC <= Normalize(data)
  {
    hide Spaced, Blocks, Unix, TrimSpace, CuesOf, ExtrasOf, Normalized, Prints, RollsUp;
    var bs := Blocks(TrimSpace(Unix(data)));
    NormalizedIsPrintable(bs[1..]);
    var cues := CuesOf(bs[1..]);
    var rest := (if RollsUp(cues) then [] else ExtrasOf(bs[1..])) + Prints(Normalized(cues));
    assert [bs[0]] + (if RollsUp(cues) then [] else ExtrasOf(bs[1..])) + Prints(Normalized(cues)) == [bs[0]] + rest;
    SpacedSum([bs[0]], rest);
    NothingSpaced();
    SpacedOneMore([], bs[0]);
    assert [] + [bs[0]] == [bs[0]];
  }

  // Normalising a file twice is normalising it once exactly when the result
  // holds no CRLF pair and nothing but the gap ends it in white space; what is
  // no WebVTT file is never changed.
  lemma FileNormalizedTwice(data: string)
    ensures var out := Normalize(data);
      Normalize(out) == out <==> (IsFile(data) ==> NoCrLf(out) && !EndsInSpace(out))
  {
    hide Normalize, IsFile, NoCrLf, Returns, Unix;
    var out := Normalize(data);
    if !IsFile(data) {
      NoFileStays(data);
    } else if NoCrLf(out) {
      TwiceWithoutCrLf(data);
    } else {
      NormalizedStarts(data);
      StartsAFile(out);
      NormalizeReturns(out);
      UnixReturns(out);
    }
  }

  // ---------------------------------------------------------------------
  // Two files that do change
  // ---------------------------------------------------------------------

  // A header, with nothing behind it that is kept.
  lemma OnlyHeader(data: string, h: string, rest: seq<string>)
    requires TrimSpace(Unix(data)) == Core([h] + rest) && MAGIC <= h && forall b :: b in [h] + rest ==> Solid(b)
    requires ExtrasOf(rest) == [] && Normalized(CuesOf(rest)) == []
    ensures IsFile(data) && Normalize(data) == h + GAP
  {
    hide Core, Solid, Unix, TrimSpace, Blocks, CuesOf, ExtrasOf, Normalized;
    BlocksOfCore([h] + rest);
    assert ([h] + rest)[1..] == rest;
    NormalizedIsPrintable(rest);
    assert [h] + [] + Prints([]) == [] + [h];
    SpacedOneMore([], h);
    NothingSpaced();
    assert "" + h + GAP == h + GAP;
  }

  lemma StaysTrimmed(s: string)
    requires s != "" && !IsSpace(s[0]) && !IsSpace(s[|s| - 1])
    ensures TrimSpace(s) == s
  {
  }

  const DOUBLED := "WEBVTT\r\r\nx"
  const HALVED := "WEBVTT\r\nx"

  lemma UnixStep(s: string)
    requires |s| >= 2
    ensures Unix(s) == if CrLfAt(s, 0) then "\n" + Unix(s[2..]) else [s[0]] + Unix(s[1..])
  {
  }

  lemma DoubledUnix()
    ensures Unix(DOUBLED) == HALVED
  {
    hide Unix;
    var tail := "\r\r\nx";
    assert DOUBLED == MAGIC + tail && Free(MAGIC, '\r');
    UnixOfSum(MAGIC, tail);
    UnixStep(tail);
    assert tail[1..] == "\r\nx";
    UnixStep("\r\nx");
    assert "\r\nx"[2..] == "x";
    UnixOfChar("x");
    UnixStays("");
    assert "x"[1..] == "" && "x" + "" == "x" && ['x'] + "" == "x";
    assert Unix(tail) == "\r\nx";
  }

  // Lines that end in CR CR LF keep a pair, which the second time goes.
  lemma PairsChangeTwice()
    ensures IsFile(DOUBLED) && Normalize(DOUBLED) == HALVED + GAP
    ensures !EndsInSpace(HALVED + GAP) && Normalize(HALVED + GAP) != HALVED + GAP
  {
    hide Unix, TrimSpace, CuesOf, ExtrasOf, Normalized, Normalize, IsFile;
    DoubledUnix();
    StaysTrimmed(HALVED);
    NothingRead();
    NormalizedEither([]);
    NothingTidied();
    OnlyHeader(DOUBLED, HALVED, []);
    assert [HALVED] + [] == [HALVED];
    CoreOfOne(HALVED);
    assert CrLfAt(HALVED + GAP, 6);
    FileNormalizedTwice(DOUBLED);
  }

  lemma NothingTidied()
    ensures Tidied([]) == [] && !RollsUp([])
  {
  }

  lemma CoreOfOne(h: string)
    ensures Core([h]) == h
  {
    NothingSpaced();
    assert [h][..0] == [];
  }

  const TIMED := "0:00.000 --> 0:01.000"
  const SPACED := "WEBVTT \n\n0:00.000 --> 0:01.000"

  // 0:00.000 and 0:01.000.
  lemma ParsesSecond(c: char)
    requires c == '0' || c == '1'
    ensures ParseStamp("0:0" + [c] + ".000") == Some(if c == '0' then 0 else 1000)
  {
    hide Cut, Split, ValueOf, Total, ParseInt;
    var main, sec := "0:0" + [c], "0" + [c];
    assert "0:0" + [c] + ".000" == main + ['.'] + "000";
    assert Free(main, '.') && Free("0", ':') && Free(sec, ':');
    CutAt(main, '.', "000");
    assert Join(["0", sec], ':') == main;
    SplitJoined(["0", sec], ':');
    SmallNumbers(c);
    TotalOfTwo("0", sec);
  }

  lemma SmallNumbers(c: char)
    requires c == '0' || c == '1'
    ensures ParseInt("0") == Some(0) && ParseInt("000") == Some(0) && ParseInt("0" + [c]) == Some(if c == '0' then 0 else 1)
  {
    assert ValueOf("", 10) == Some(0);
    hide ValueOf;
    TwoDigits("", '0');
    TwoDigits("0", '0');
    TwoDigits("00", '0');
    TwoDigits("0", c);
    assert "" + ['0'] == "0" && "0" + ['0'] == "00" && "00" + ['0'] == "000";
  }

  lemma TotalOfTwo(m: string, s: string)
    requires ParseInt(m).Some? && ParseInt(s).Some? && ParseInt(m).value >= 0 && ParseInt(s).value >= 0
    ensures Total([m, s]) == Some(ParseInt(m).value * 60 + ParseInt(s).value)
  {
    assert [m, s][..1] == [m] && [m][..0] == [];
    assert Total([m]) == Some(ParseInt(m).value);
  }

  lemma TwoDigits(s: string, c: char)
    requires ValueOf(s, 10) == Some(0) && (c == '0' || c == '1')
    ensures ValueOf(s + [c], 10) == Some(if c == '0' then 0 else 1)
  {
    DigitAppended(s, c, 10);
  }

  lemma ReadsTimed()
    ensures ParseCue(TIMED) == Some(Cue("", 0, 1000, "", []))
  {
    hide ParseStamp, Fields, TrimSpace, ArrowAt, Split, Word;
    var left, right := "0:00.000 ", " 0:01.000";
    assert TIMED == left + ARROW + right;
    FirstArrow(left, right);
    assert TIMED[..|left|] == left && TIMED[|left| + 3..] == right;
    TimesAreWords();
    TrimWord("0:00.000");
    assert "0:00.000" + " " == left;
    FieldsOfEnd("0:01.000", "");
    assert " " + "0:01.000" == right;
    ParsesSecond('0');
    ParsesSecond('1');
    assert "0:0" + ['0'] + ".000" == "0:00.000" && "0:0" + ['1'] + ".000" == "0:01.000";
    assert Join([TIMED], '\n') == TIMED;
    SplitJoined([TIMED], '\n');
    assert [TIMED][1..] == [] && ["0:01.000"][1..] == [];
  }

  lemma TimesAreWords()
    ensures Word("0:00.000") && Word("0:01.000")
  {
  }

  lemma TimedIsDropped()
    ensures ExtrasOf([TIMED]) == [] && Normalized(CuesOf([TIMED])) == []
  {
    hide ParseCue, Tidied;
    ReadsTimed();
    SolidStays(TIMED);
    NothingRead();
    ReadOneMore([], TIMED);
    var c := Cue("", 0, 1000, "", []);
    assert [] + [TIMED] == [TIMED] && [] + [c] == [c];
    NormalizedEither([c]);
    assert !RollsUp([c]);
    NothingTidied();
    TidiedAway(c);
  }

  lemma TidiedAway(c: Cue)
    requires c.lines == []
    ensures Tidied([c]) == []
  {
    assert [c][..0] == [];
  }

  lemma SpacedStays()
    ensures Unix(SPACED) == SPACED && TrimSpace(SPACED) == SPACED
  {
    hide Unix, TrimSpace;
    assert Free(SPACED, '\r') && SPACED + "" == SPACED;
    UnixOfSum(SPACED, "");
    UnixStays("");
    StaysTrimmed(SPACED);
  }

  lemma SpacedIsSolid()
    ensures Solid("WEBVTT ") && Solid(TIMED)
  {
  }

  // A cue without text goes, and the header ends in its blank.
  lemma BlankChangesTwice()
    ensures IsFile(SPACED) && Normalize(SPACED) == "WEBVTT " + GAP
    ensures NoCrLf("WEBVTT " + GAP) && Normalize("WEBVTT " + GAP) != "WEBVTT " + GAP
  {
    hide Unix, TrimSpace, CuesOf, ExtrasOf, Normalized, Normalize, IsFile;
    hide Core, Solid;
    SpacedStays();
    SpacedIsSolid();
    CoreOfMore("WEBVTT ", [TIMED]);
    CoreOfOne(TIMED);
    TimedIsDropped();
    assert SPACED == "WEBVTT " + GAP + TIMED;
    OnlyHeader(SPACED, "WEBVTT ", [TIMED]);
    FileNormalizedTwice(SPACED);
    assert ("WEBVTT " + GAP)[6] == ' ' && IsSpace(' ');
  }
}
