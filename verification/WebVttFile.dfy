// The whole file: splitting it into blocks, writing it again, and when doing
// so twice is doing it once.
module WebVttFile {
  import opened Base
  import opened Text
  import opened WebVtt

  // ---------------------------------------------------------------------
  // Blocks
  // ---------------------------------------------------------------------

  // CRLF becomes LF.
  function Unix(s: string): string
    decreases |s|
  {
    if |s| < 2 then s
    else if s[0] == '\r' && s[1] == '\n' then "\n" + Unix(s[2..])
    else [s[0]] + Unix(s[1..])
  }

  predicate CrLfAt(s: string, i: int) { 0 <= i < |s| - 1 && s[i] == '\r' && s[i + 1] == '\n' }

  predicate NoCrLf(s: string) { forall i :: 0 <= i < |s| ==> !CrLfAt(s, i) }

  predicate GapAt(s: string, i: int) { 0 <= i < |s| - 1 && s[i] == '\n' && s[i + 1] == '\n' }

  predicate NoGap(s: string) { forall i :: 0 <= i < |s| ==> !GapAt(s, i) }

  // The first empty line, the end when there is none.
  function FirstGap(s: string): (k: nat)
    ensures k <= |s| && (k < |s| ==> GapAt(s, k))
    ensures forall i :: 0 <= i < k ==> !GapAt(s, i)
  {
    if s == "" then 0
    else if GapAt(s, 0) then 0
    else
      var k := FirstGap(s[1..]);
      assert k < |s[1..]| ==> GapAt(s, k + 1);
      assert forall i :: 0 < i < k + 1 ==> (GapAt(s, i) <==> GapAt(s[1..], i - 1));
      k + 1
  }

  // Where empty lines separate them.
  function Blocks(s: string): (r: seq<string>)
    ensures r != []
    decreases |s|
  {
    var k := FirstGap(s);
    if k == |s| then [s] else [s[..k]] + Blocks(s[k + 2..])
  }

  // Newlines at either end of a block go.
  function TrimTail(b: string): (r: string)
    ensures r <= b && (r != "" ==> r[|r| - 1] != '\n')
    ensures b != "" && b[|b| - 1] != '\n' ==> r == b
  {
    if b != "" && b[|b| - 1] == '\n' then TrimTail(b[..|b| - 1]) else b
  }

  function TrimHead(b: string): (r: string)
    ensures |r| <= |b| && r == b[|b| - |r|..] && (r != "" ==> r[0] != '\n')
    ensures b != "" && b[0] != '\n' ==> r == b
  {
    if b != "" && b[0] == '\n' then TrimHead(b[1..]) else b
  }

  function TrimNewlines(b: string): string { TrimHead(TrimTail(b)) }

  // ---------------------------------------------------------------------
  // The file
  // ---------------------------------------------------------------------

  function CuesOf(bs: seq<string>): seq<Cue> {
    if bs == [] then []
    else
      var front, c := CuesOf(bs[..|bs| - 1]), ParseCue(TrimNewlines(bs[|bs| - 1]));
      if TrimNewlines(bs[|bs| - 1]) == "" || c.None? then front else front + [c.value]
  }

  // Notes, styles and regions, and anything else that is no cue.
  function ExtrasOf(bs: seq<string>): seq<string> {
    if bs == [] then []
    else
      var front, b := ExtrasOf(bs[..|bs| - 1]), TrimNewlines(bs[|bs| - 1]);
      if b == "" || ParseCue(b).Some? then front else front + [b]
  }

  const GAP := "\n\n"

  function Spaced(bs: seq<string>): string { if bs == [] then "" else Spaced(bs[..|bs| - 1]) + bs[|bs| - 1] + GAP }

  predicate Printable(cues: seq<Cue>) { forall c :: c in cues ==> c.start > -100 && c.end > -100 }

  function Prints(cues: seq<Cue>): seq<string>
    requires Printable(cues)
  {
    seq(|cues|, i requires 0 <= i < |cues| => Printed(cues[i]))
  }

  lemma {:induction false} CuesAreReadable(bs: seq<string>)
    ensures Readable(CuesOf(bs))
  {
    hide ParseCue, WellFormed;
    if bs != [] {
      CuesAreReadable(bs[..|bs| - 1]);
      var b := TrimNewlines(bs[|bs| - 1]);
      if ParseCue(b).Some? && ParseCue(b).value.lines != [] {
        ParsedIsWellFormed(b);
      }
    }
  }

  lemma NormalizedIsPrintable(bs: seq<string>)
    ensures Printable(Normalized(CuesOf(bs)))
    ensures forall c :: c in Normalized(CuesOf(bs)) ==> WellFormed(c)
  {
    hide Normalized, Printed, ParseCue;
    CuesAreReadable(bs);
    forall c | c in Normalized(CuesOf(bs)) ensures WellFormed(c) {
      NormalizedIsReadBack(CuesOf(bs), c);
    }
  }

  const MAGIC := "WEBVTT"

  // Input that is no WebVTT file comes back unchanged.
  predicate IsFile(data: string) { MAGIC <= Blocks(TrimSpace(Unix(data)))[0] }

  function Normalize(data: string): string {
    var bs := Blocks(TrimSpace(Unix(data)));
    var cues := CuesOf(bs[1..]);
    NormalizedIsPrintable(bs[1..]);
    if !IsFile(data) then data
    else Spaced([bs[0]] + (if RollsUp(cues) then [] else ExtrasOf(bs[1..])) + Prints(Normalized(cues)))
  }

  // The loops over the blocks, and over what is written.
  method NormalizeFile(data: string) returns (out: string)
    ensures out == Normalize(data)
  {
    hide CuesOf, ExtrasOf, ParseCue, TrimNewlines, Blocks, Unix, TrimSpace, RollsUp, HasInline, Normalized;
    var blocks := Blocks(TrimSpace(Unix(data)));
    if !(MAGIC <= blocks[0]) {
      return data;
    }
    var rest := blocks[1..];
    var cues: seq<Cue> := [];
    var extras: seq<string> := [];
    var rollUp := false;
    NothingRead();
    for k := 0 to |rest|
      invariant cues == CuesOf(rest[..k]) && extras == ExtrasOf(rest[..k]) && rollUp == RollsUp(cues)
    {
      assert rest[..k + 1] == rest[..k] + [rest[k]];
      ReadOneMore(rest[..k], rest[k]);
      var b := TrimNewlines(rest[k]);
      if b == "" {
        continue;
      }
      var c := ParseCue(b);
      if c.None? {
        extras := extras + [b];
        continue;
      }
      RollsUpOneMore(cues, c.value);
      if exists l :: l in c.value.lines && HasInline(l) {
        rollUp := true;
      }
      cues := cues + [c.value];
    }
    assert rest[..|rest|] == rest;
    NormalizedIsPrintable(rest);
    NormalizedEither(cues);
    var written: seq<Cue>;
    if rollUp {
      written := FromRollUp(cues);
      extras := [];
    } else {
      written := Tidy(cues);
    }
    out := Write(blocks[0], extras, written);
  }

  lemma NothingRead()
    ensures CuesOf([]) == [] && ExtrasOf([]) == [] && !RollsUp([])
  {
  }

  lemma ReadOneMore(front: seq<string>, block: string)
    ensures var b := TrimNewlines(block);
      var c := ParseCue(b);
      && CuesOf(front + [block]) == (if b == "" || c.None? then CuesOf(front) else CuesOf(front) + [c.value])
      && ExtrasOf(front + [block]) == (if b == "" || c.Some? then ExtrasOf(front) else ExtrasOf(front) + [b])
  {
    hide ParseCue;
    assert (front + [block])[..|front|] == front;
  }

  lemma NormalizedEither(cues: seq<Cue>)
    ensures Normalized(cues) == if RollsUp(cues) then Paired(Pieces(cues)) else Tidied(cues)
  {
  }

  lemma RollsUpOneMore(cues: seq<Cue>, c: Cue)
    ensures RollsUp(cues + [c]) <==> RollsUp(cues) || exists l :: l in c.lines && HasInline(l)
  {
    assert c in cues + [c];
    assert forall x :: x in cues ==> x in cues + [c];
  }

  method Write(header: string, extras: seq<string>, cues: seq<Cue>) returns (out: string)
    requires Printable(cues)
    ensures out == Spaced([header] + extras + Prints(cues))
  {
    hide Spaced, Printed;
    out := header + GAP;
    NothingSpaced();
    SpacedOneMore([], header);
    assert [header] + extras[..0] == [] + [header];
    for i := 0 to |extras|
      invariant out == Spaced([header] + extras[..i])
    {
      SpacedOneMore([header] + extras[..i], extras[i]);
      assert [header] + extras[..i] + [extras[i]] == [header] + extras[..i + 1];
      out := out + extras[i] + GAP;
    }
    assert extras[..|extras|] == extras;
    assert [header] + extras + Prints(cues[..0]) == [header] + extras;
    for i := 0 to |cues|
      invariant out == Spaced([header] + extras + Prints(cues[..i]))
    {
      var before := [header] + extras + Prints(cues[..i]);
      SpacedOneMore(before, Printed(cues[i]));
      assert before + [Printed(cues[i])] == [header] + extras + Prints(cues[..i + 1]);
      out := out + Printed(cues[i]) + GAP;
    }
    assert cues[..|cues|] == cues;
  }

  lemma NothingSpaced()
    ensures Spaced([]) == ""
  {
  }

  lemma SpacedOneMore(bs: seq<string>, b: string)
    ensures Spaced(bs + [b]) == Spaced(bs) + b + GAP
  {
    assert (bs + [b])[..|bs|] == bs;
  }

  // ---------------------------------------------------------------------
  // Reading what was written
  // ---------------------------------------------------------------------

  // A block that splitting leaves whole.
  predicate Solid(b: string) { b != "" && b[0] != '\n' && b[|b| - 1] != '\n' && NoGap(b) }

  // What is written, but for the last gap.
  function Core(bs: seq<string>): string
    requires bs != []
  {
    Spaced(bs[..|bs| - 1]) + bs[|bs| - 1]
  }

  lemma {:induction false} SpacedSum(a: seq<string>, b: seq<string>)
    ensures Spaced(a + b) == Spaced(a) + Spaced(b)
    decreases |b|
  {
    if b == [] {
      assert a + b == a;
    } else {
      SpacedSum(a, b[..|b| - 1]);
      assert (a + b)[..|a + b| - 1] == a + b[..|b| - 1];
      assert Spaced(a + b) == Spaced(a + b[..|b| - 1]) + b[|b| - 1] + GAP;
    }
  }

  lemma CoreOfMore(b: string, rest: seq<string>)
    requires rest != []
    ensures Core([b] + rest) == b + GAP + Core(rest)
  {
    var front := rest[..|rest| - 1];
    assert ([b] + rest)[..|rest|] == [b] + front;
    SpacedSum([b], front);
    SpacedOneMore([], b);
    assert [] + [b] == [b];
  }

  lemma GapBehind(b: string, rest: string)
    requires Solid(b)
    ensures FirstGap(b + GAP + rest) == |b|
  {
    var s := b + GAP + rest;
    assert GapAt(s, |b|);
    forall i | 0 <= i < |b| ensures !GapAt(s, i) {
      assert !GapAt(b, i);
    }
  }

  lemma {:induction false} BlocksOfCore(bs: seq<string>)
    requires bs != [] && forall b :: b in bs ==> Solid(b)
    ensures Blocks(Core(bs)) == bs
    decreases |bs|
  {
    assert bs[0] in bs;
    if |bs| == 1 {
      assert Core(bs) == bs[0];
      assert FirstGap(bs[0]) == |bs[0]|;
    } else {
      var b, rest := bs[0], bs[1..];
      assert bs == [b] + rest;
      CoreOfMore(b, rest);
      GapBehind(b, Core(rest));
      var s := b + GAP + Core(rest);
      assert s[..|b|] == b && s[|b| + 2..] == Core(rest);
      BlocksOfCore(rest);
    }
  }

  lemma SolidStays(b: string)
    requires Solid(b)
    ensures TrimNewlines(b) == b
  {
  }

  // ---------------------------------------------------------------------
  // What is written
  // ---------------------------------------------------------------------

  // The blocks a normalised file is made of.
  predicate Canonical(h: string, es: seq<string>, cs: seq<Cue>) {
    MAGIC <= h && Solid(h) && NoCues(es) && Written(cs)
  }

  predicate NoCues(es: seq<string>) { forall e :: e in es ==> Solid(e) && ParseCue(e).None? }

  predicate Written(cs: seq<Cue>) { Printable(cs) && NeatCues(cs) && forall c :: c in cs ==> WellFormed(c) }

  function Parts(h: string, es: seq<string>, cs: seq<Cue>): seq<string>
    requires Printable(cs)
  {
    [h] + es + Prints(cs)
  }

  predicate Row(r: string) { r != "" && Free(r, '\n') }

  lemma {:induction false} RowsAreSolid(rows: seq<string>)
    requires rows != [] && forall r :: r in rows ==> Row(r)
    ensures Solid(Join(rows, '\n'))
  {
    var last := rows[|rows| - 1];
    assert last in rows && Row(last);
    assert last[|last| - 1] in last && last[0] in last;
    if |rows| > 1 {
      var front := Join(rows[..|rows| - 1], '\n');
      RowsAreSolid(rows[..|rows| - 1]);
      var s := front + ['\n'] + last;
      forall i | 0 <= i < |s| ensures !GapAt(s, i) {
        if i < |front| {
          assert !GapAt(front, i);
        } else if i > |front| {
          assert s[i] == last[i - |front| - 1] && last[i - |front| - 1] in last;
        }
      }
    } else {
      forall i | 0 <= i < |last| ensures !GapAt(last, i) {
        assert last[i] in last;
      }
    }
  }

  lemma PrintedIsSolid(c: Cue)
    requires WellFormed(c) && NeatCue(c)
    ensures Solid(Printed(c))
  {
    hide Timing;
    TimingIsOneLine(c);
    TimingIsThere(c);
    forall l | l in c.lines ensures Row(l) {
      assert Neat(l);
    }
    RowsAreSolid((if c.id != "" then [c.id] else []) + [Timing(c)] + c.lines);
  }

  lemma TimingIsThere(c: Cue)
    requires WellFormed(c)
    ensures Timing(c) != ""
  {
  }

  lemma {:induction false} ExtrasReadBack(es: seq<string>)
    requires NoCues(es)
    ensures CuesOf(es) == [] && ExtrasOf(es) == es
  {
    hide ParseCue, CuesOf, ExtrasOf, TrimNewlines;
    NothingRead();
    if es != [] {
      var front, last := es[..|es| - 1], es[|es| - 1];
      assert last in es;
      ExtrasReadBack(front);
      SolidStays(last);
      ReadOneMore(front, last);
      assert es == front + [last];
    } else {
      assert es == [];
    }
  }

  lemma {:induction false} CuesReadBack(es: seq<string>, cs: seq<Cue>)
    requires NoCues(es) && Written(cs)
    ensures CuesOf(es + Prints(cs)) == cs && ExtrasOf(es + Prints(cs)) == es
    decreases |cs|
  {
    hide ParseCue, WellFormed, NeatCue, Solid, Printed, NoCues, CuesOf, ExtrasOf, TrimNewlines;
    if cs == [] {
      ExtrasReadBack(es);
      assert es + Prints(cs) == es;
    } else {
      var front, c := cs[..|cs| - 1], cs[|cs| - 1];
      assert c in cs;
      CuesReadBack(es, front);
      var p := Printed(c);
      PrintedIsSolid(c);
      SolidIsThere(p);
      SolidStays(p);
      CueParses(c);
      ReadOneMore(es + Prints(front), p);
      assert es + Prints(cs) == es + Prints(front) + [p];
      assert cs == front + [c];
    }
  }

  lemma SolidIsThere(b: string)
    requires Solid(b)
    ensures b != ""
  {
  }

  lemma PartsAreSolid(h: string, es: seq<string>, cs: seq<Cue>)
    requires Written(cs) && Canonical(h, es, cs)
    ensures forall b :: b in Parts(h, es, cs) ==> Solid(b)
  {
    hide Printed, WellFormed, NeatCue, Solid, ParseCue;
    forall b | b in Prints(cs) ensures Solid(b) {
      var i :| 0 <= i < |cs| && b == Printed(cs[i]);
      assert cs[i] in cs;
      PrintedIsSolid(cs[i]);
    }
  }

  // Text that trims to canonical parts is written as these parts.
  lemma CanonicalIsWritten(x: string, h: string, es: seq<string>, cs: seq<Cue>)
    requires Written(cs) && Canonical(h, es, cs) && TrimSpace(Unix(x)) == Core(Parts(h, es, cs))
    ensures IsFile(x) && Normalize(x) == Spaced(Parts(h, es, cs))
  {
    hide Printed, WellFormed, NeatCue, Solid, ParseCue, Core, Spaced, Unix, TrimSpace, CuesOf, ExtrasOf, Blocks;
    var bs := Parts(h, es, cs);
    PartsAreSolid(h, es, cs);
    BlocksOfCore(bs);
    assert bs[0] == h && bs[1..] == es + Prints(cs);
    CuesReadBack(es, cs);
    NeatCuesStay(cs);
    assert Normalized(cs) == cs;
  }

  // ---------------------------------------------------------------------
  // White space at the end
  // ---------------------------------------------------------------------

  lemma {:induction false} TrimEndSum(a: string, b: string)
    ensures TrimEnd(a + b) == if Blank(b) then TrimEnd(a) else a + TrimEnd(b)
    decreases |b|
  {
    if b == "" {
      assert a + b == a;
    } else {
      var front, c := b[..|b| - 1], b[|b| - 1];
      assert b == front + [c] && a + b == a + front + [c];
      assert (a + b)[..|a + b| - 1] == a + front;
      TrimEndSum(a, front);
      if !IsSpace(c) {
        assert c in b;
      }
    }
  }

  lemma GapIsBlank()
    ensures Blank(GAP)
  {
    assert '\n' as int in SPACES;
  }

  // The white space at the end of the core: it begins in block k.
  ghost predicate EndsIn(bs: seq<string>, k: nat) {
    && k < |bs| && !Blank(bs[k]) && (forall j :: k < j < |bs| ==> Blank(bs[j]))
    && TrimEnd(Core(bs)) == Core(bs[..k] + [TrimEnd(bs[k])])
  }

  lemma {:induction false} CoreEndsIn(bs: seq<string>) returns (k: nat)
    requires bs != [] && !Blank(bs[0])
    ensures EndsIn(bs, k)
    decreases |bs|
  {
    hide Blank, TrimEnd, Spaced, Core;
    var front, last := bs[..|bs| - 1], bs[|bs| - 1];
    assert bs == front + [last];
    if !Blank(last) {
      k := |bs| - 1;
      TextAtEnd(front, last);
      assert bs[..k] == front;
    } else {
      k := CoreEndsIn(front);
      BlankAtEnd(front, last);
      assert bs[..k] == front[..k];
    }
  }

  lemma TextAtEnd(front: seq<string>, last: string)
    requires !Blank(last)
    ensures TrimEnd(Core(front + [last])) == Core(front + [TrimEnd(last)])
  {
    hide TrimEnd, Blank, Spaced;
    TrimEndSum(Spaced(front), last);
    CoreOf(front, last);
    CoreOf(front, TrimEnd(last));
  }

  lemma BlankAtEnd(front: seq<string>, last: string)
    requires Blank(last) && front != []
    ensures TrimEnd(Core(front + [last])) == TrimEnd(Core(front))
  {
    hide TrimEnd, Blank, Spaced;
    TrimEndSum(Spaced(front), last);
    CoreOf(front, last);
    var before, b := front[..|front| - 1], front[|front| - 1];
    assert front == before + [b];
    SpacedOneMore(before, b);
    CoreOf(before, b);
    GapIsBlank();
    TrimEndSum(Core(front), GAP);
  }

  lemma CoreOf(front: seq<string>, last: string)
    ensures Core(front + [last]) == Spaced(front) + last
  {
    assert (front + [last])[..|front|] == front;
  }

  // ---------------------------------------------------------------------
  // What trimming leaves is canonical too
  // ---------------------------------------------------------------------

  lemma FieldsOfTrimmed(s: string, r: string)
    requires Blank(r)
    ensures Fields(s + r) == Fields(s)
    decreases |r|
  {
    if r == "" {
      assert s + r == s;
    } else {
      assert r == r[..|r| - 1] + [r[|r| - 1]];
      assert (s + r)[..|s + r| - 1] == s + r[..|r| - 1];
      assert r[|r| - 1] in r;
      FieldsOfTrimmed(s, r[..|r| - 1]);
    }
  }

  // A timing line is one with or without white space behind it.
  lemma TimingUntrimmed(id: string, line: string, r: string, lines: seq<string>, lines': seq<string>)
    requires HasArrow(line) && Blank(r)
    ensures HasArrow(line + r)
    ensures ParseTiming(id, line, lines).Some? <==> ParseTiming(id, line + r, lines').Some?
  {
    hide Fields, ParseStamp;
    ArrowStays(line, r);
    var k := ArrowAt(line);
    assert (line + r)[..k] == line[..k] && (line + r)[k + 3..] == line[k + 3..] + r;
    FieldsOfTrimmed(line[k + 3..], r);
  }

  lemma ArrowStays(line: string, r: string)
    requires HasArrow(line)
    ensures ArrowAt(line + r) == ArrowAt(line)
  {
    var s, k := line + r, ArrowAt(line);
    assert ArrowHere(s, k);
    assert forall j :: ArrowHere(s, j) && j < k ==> ArrowHere(line, j);
  }

  lemma {:induction false} SplitOfSum(a: string, b: string, sep: char)
    ensures var f, g := Split(a, sep), Split(b, sep);
      Split(a + b, sep) == f[..|f| - 1] + [f[|f| - 1] + g[0]] + g[1..]
    decreases |b|
  {
    var f := Split(a, sep);
    if b == "" {
      assert a + b == a && f[|f| - 1] + "" == f[|f| - 1];
    } else {
      var front, c := b[..|b| - 1], b[|b| - 1];
      SplitOfSum(a, front, sep);
      assert (a + b)[..|a + b| - 1] == a + front;
      var g := Split(front, sep);
      if c != sep && |g| == 1 {
        assert f[|f| - 1] + g[0] + [c] == f[|f| - 1] + (g[0] + [c]);
      }
    }
  }

  lemma BlankHasNoArrow(line: string, r: string)
    requires Blank(r) && HasArrow(line + r)
    ensures HasArrow(line)
  {
    var s, k := line + r, ArrowAt(line + r);
    assert ArrowHere(s, k);
    assert !IsSpace('>') && s[k + 2] == '>';
    assert forall i :: |line| <= i < |s| ==> s[i] in r;
    assert k + 2 < |line|;
    assert ArrowHere(line, k);
  }

  lemma ArrowBefore(line: string, r: string)
    requires Blank(r)
    ensures HasArrow(line + r) <==> HasArrow(line)
  {
    if HasArrow(line) {
      ArrowStays(line, r);
    } else if HasArrow(line + r) {
      BlankHasNoArrow(line, r);
    }
  }

  lemma NoArrow()
    ensures !HasArrow("")
  {
  }

  // White space at its end neither makes a block a cue nor keeps it from
  // being one: the rows with it are those without, the last with the rest of
  // its line, and blank ones.
  lemma NoCueTrimmed(a: string, r: string)
    requires Blank(r)
    ensures ParseCue(a).Some? <==> ParseCue(a + r).Some?
  {
    hide ParseTiming, ArrowAt, Split, HasArrow;
    var f, g := Split(a, '\n'), Split(r, '\n');
    var rows := Split(a + r, '\n');
    SplitOfSum(a, r, '\n');
    RowsAreBlank(r);
    if |f| == 1 {
      LastRowParses("", f[0], g[0], f[1..], rows[1..]);
      if |g| > 1 {
        assert g[1] in g && "" + g[1] == g[1];
        NoArrow();
        ArrowBefore("", g[1]);
      }
    } else if |f| == 2 {
      assert rows[0] == f[0] && rows[1] == f[1] + g[0];
      SameTiming("", f[0], f[1..], rows[1..]);
      LastRowParses(f[0], f[1], g[0], f[2..], rows[2..]);
    } else {
      assert rows[0] == f[0] && rows[1] == f[1];
      SameTiming("", f[0], f[1..], rows[1..]);
      SameTiming(f[0], f[1], f[2..], rows[2..]);
    }
  }

  lemma LastRowParses(id: string, line: string, r: string, lines: seq<string>, lines': seq<string>)
    requires Blank(r)
    ensures HasArrow(line + r) <==> HasArrow(line)
    ensures HasArrow(line) ==> (ParseTiming(id, line, lines).Some? <==> ParseTiming(id, line + r, lines').Some?)
  {
    hide ParseTiming, HasArrow;
    ArrowBefore(line, r);
    if HasArrow(line) {
      TimingUntrimmed(id, line, r, lines, lines');
    }
  }

  lemma SameTiming(id: string, line: string, lines: seq<string>, lines': seq<string>)
    ensures HasArrow(line) ==> (ParseTiming(id, line, lines).Some? <==> ParseTiming(id, line, lines').Some?)
  {
  }

  lemma {:induction false} RowsAreBlank(r: string)
    requires Blank(r)
    ensures forall row :: row in Split(r, '\n') ==> Blank(row)
  {
    if r != "" {
      var front, c := r[..|r| - 1], r[|r| - 1];
      assert r == front + [c] && c in r;
      RowsAreBlank(front);
      var f := Split(front, '\n');
      assert Blank(f[|f| - 1]) by {
        assert f[|f| - 1] in f;
      }
    }
  }

  lemma SolidPrefix(b: string, r: string)
    requires Solid(b) && r <= b && r != "" && r[|r| - 1] != '\n'
    ensures Solid(r)
  {
    forall i | 0 <= i < |r| ensures !GapAt(r, i) {
      assert !GapAt(b, i);
    }
  }

  // b without the white space at its end.
  lemma TrimmedIsSolid(b: string)
    requires Solid(b) && !Blank(b)
    ensures Solid(TrimEnd(b))
  {
    GapIsBlank();
    var r := TrimEnd(b);
    assert IsSpace('\n');
    SolidPrefix(b, r);
  }

  lemma {:induction false} TrimmedOff(b: string)
    ensures Blank(b[|TrimEnd(b)|..])
  {
    if b != "" && IsSpace(b[|b| - 1]) {
      var front := b[..|b| - 1];
      TrimmedOff(front);
      var n := |TrimEnd(front)|;
      assert b[n..] == front[n..] + [b[|b| - 1]];
    }
  }

  lemma HeaderTrimmed(h: string)
    requires MAGIC <= h && Solid(h)
    ensures !Blank(h) && MAGIC <= TrimEnd(h) && Solid(TrimEnd(h))
  {
    var rest := h[|MAGIC|..];
    assert h == MAGIC + rest;
    assert !IsSpace('T') && MAGIC[5] == 'T';
    assert h[5] in h && !Blank(h);
    TrimEndSum(MAGIC, rest);
    TrimmedIsSolid(h);
  }

  lemma ExtraTrimmed(e: string)
    requires Solid(e) && ParseCue(e).None? && !Blank(e)
    ensures Solid(TrimEnd(e)) && ParseCue(TrimEnd(e)).None?
  {
    hide ParseCue;
    TrimmedIsSolid(e);
    var r := TrimEnd(e);
    TrimmedOff(e);
    assert e == r + e[|r|..];
    if ParseCue(r).Some? {
      NoCueTrimmed(r, e[|r|..]);
    }
  }

  function CueTrimmed(c: Cue): Cue
    requires c.lines != []
  {
    c.(lines := c.lines[|c.lines| - 1 := TrimEnd(c.lines[|c.lines| - 1])])
  }

  lemma LineTrimmed(l: string)
    requires Neat(l) && Free(l, '\n')
    ensures Neat(TrimEnd(l)) && Free(TrimEnd(l), '\n')
  {
    var r := TrimEnd(l);
    PlainSpaces();
    assert l == r + l[|r|..];
    FreeParts(r, l[|r|..], '\n');
    forall i, k | 0 <= i < |r| && 0 <= k < |SHAPES| ensures !ShapedAt(r, i, SHAPES[k]) {
      if ShapedAt(r, i, SHAPES[k]) {
        ShapedInPrefix(r, l, i, SHAPES[k]);
      }
    }
    assert r[|r| - 1] in r;
  }

  lemma JoinedTrimmed(front: seq<string>, last: string)
    requires front != [] && !Blank(last)
    ensures TrimEnd(Join(front + [last], '\n')) == Join(front + [TrimEnd(last)], '\n')
    ensures !Blank(Join(front + [last], '\n'))
  {
    hide TrimEnd;
    assert (front + [last])[..|front|] == front && (front + [TrimEnd(last)])[..|front|] == front;
    TrimEndSum(Join(front, '\n') + ['\n'], last);
    var c :| c in last && !IsSpace(c);
    assert c in Join(front, '\n') + ['\n'] + last;
  }

  lemma SameStamps(c: Cue, d: Cue)
    requires c.start > -100 && c.end > -100 && d.start == c.start && d.end == c.end && d.settings == c.settings
    ensures Timing(c) == Timing(d)
  {
  }

  lemma PrintedTrimmed(c: Cue)
    requires WellFormed(c) && NeatCue(c)
    ensures var d := CueTrimmed(c); WellFormed(d) && NeatCue(d) && Printed(d) == TrimEnd(Printed(c))
    ensures !Blank(Printed(c))
  {
    hide Timing, HasInline, Blank;
    var n := |c.lines| - 1;
    var d := CueTrimmed(c);
    var last := c.lines[n];
    assert last in c.lines && Neat(last);
    LineTrimmed(last);
    forall l | l in d.lines ensures Neat(l) && Free(l, '\n') {
      assert l == TrimEnd(last) || l in c.lines;
    }
    var front := (if c.id != "" then [c.id] else []) + [Timing(c)] + c.lines[..n];
    SameStamps(c, d);
    assert (if c.id != "" then [c.id] else []) + [Timing(c)] + c.lines == front + [last];
    assert (if d.id != "" then [d.id] else []) + [Timing(d)] + d.lines == front + [TrimEnd(last)];
    JoinedTrimmed(front, last);
  }

  // The parts that are left of a written file once it is trimmed.
  lemma PartsTrimmed(h: string, es: seq<string>, cs: seq<Cue>)
    returns (h': string, es': seq<string>, cs': seq<Cue>)
    requires Written(cs) && Canonical(h, es, cs)
    ensures Written(cs') && Canonical(h', es', cs')
    ensures TrimEnd(Core(Parts(h, es, cs))) == Core(Parts(h', es', cs'))
  {
    hide Solid, ParseCue, TrimEnd, Printed, WellFormed, Blank, Core, Neat, YouTubePin;
    var bs := Parts(h, es, cs);
    HeaderTrimmed(h);
    var k := CoreEndsIn(bs);
    var left := bs[..k] + [TrimEnd(bs[k])];
    if k == 0 {
      h', es', cs' := TrimEnd(h), [], [];
      assert left == Parts(h', es', cs');
    } else if k <= |es| {
      var e := es[k - 1];
      assert e in es && bs[k] == e;
      ExtraTrimmed(e);
      h', es', cs' := h, es[..k - 1] + [TrimEnd(e)], [];
      assert left == Parts(h', es', cs');
    } else {
      var n := |cs| - 1;
      LastCueStands(h, es, cs, k);
      var c := cs[n];
      assert c in cs && bs[k] == Printed(c);
      PrintedTrimmed(c);
      h', es', cs' := h, es, cs[..n] + [CueTrimmed(c)];
      assert left == Parts(h', es', cs');
    }
  }

  lemma LastCueStands(h: string, es: seq<string>, cs: seq<Cue>, k: nat)
    requires Written(cs) && EndsIn(Parts(h, es, cs), k) && k > |es|
    ensures k == |es| + |cs|
  {
    hide Printed, WellFormed, NeatCue, Blank, Core;
    var bs := Parts(h, es, cs);
    assert |bs| == 1 + |es| + |cs|;
    if k < |es| + |cs| {
      var c := cs[|cs| - 1];
      assert c in cs && bs[|bs| - 1] == Printed(c);
      PrintedTrimmed(c);
    }
  }

  // ---------------------------------------------------------------------
  // Every normalised file is canonical
  // ---------------------------------------------------------------------

  lemma {:induction false} BlocksHaveNoGap(s: string)
    ensures forall b :: b in Blocks(s) ==> NoGap(b)
    decreases |s|
  {
    var k := FirstGap(s);
    forall i | 0 <= i < k ensures !GapAt(s[..k], i) {
      assert !GapAt(s, i);
    }
    if k < |s| {
      BlocksHaveNoGap(s[k + 2..]);
    } else {
      assert s[..k] == s;
    }
  }

  lemma FirstBlock(s: string)
    ensures Blocks(s)[0] == s[..FirstGap(s)]
  {
    if FirstGap(s) == |s| {
      assert s[..|s|] == s;
    }
  }

  lemma HeaderIsSolid(s: string)
    requires MAGIC <= Blocks(s)[0] && (s != "" ==> s[|s| - 1] != '\n')
    ensures Solid(Blocks(s)[0])
  {
    hide Blocks, NoGap;
    var h, k := Blocks(s)[0], FirstGap(s);
    BlocksHaveNoGap(s);
    FirstBlock(s);
    assert h in Blocks(s) && MAGIC[0] == 'W' && h[0] == 'W';
    if k < |s| {
      assert !GapAt(s, k - 1);
    }
  }

  lemma TrimNewlinesSolid(b: string)
    requires NoGap(b) && TrimNewlines(b) != ""
    ensures Solid(TrimNewlines(b))
  {
    var a := TrimTail(b);
    var r := TrimHead(a);
    var n := |a| - |r|;
    forall i | 0 <= i < |r| ensures !GapAt(r, i) {
      assert !GapAt(b, n + i);
    }
  }

  lemma {:induction false} ExtrasAreNoCues(bs: seq<string>)
    requires forall b :: b in bs ==> NoGap(b)
    ensures NoCues(ExtrasOf(bs))
  {
    hide ParseCue, Solid;
    if bs != [] {
      var front, last := bs[..|bs| - 1], bs[|bs| - 1];
      assert last in bs;
      ExtrasAreNoCues(front);
      if TrimNewlines(last) != "" {
        TrimNewlinesSolid(last);
      }
    }
  }

  lemma NormalizedIsWritten(bs: seq<string>)
    ensures Printable(Normalized(CuesOf(bs))) && Written(Normalized(CuesOf(bs)))
  {
    hide ParseCue, WellFormed, NeatCue;
    var cues := CuesOf(bs);
    NormalizedIsPrintable(bs);
    if RollsUp(cues) {
      PiecesAreNeat(cues);
      PairedNeat(Pieces(cues));
    } else {
      TidiedNeat(cues);
    }
  }

  lemma TrimmedHasNoNewline(s: string)
    ensures TrimSpace(s) != "" ==> TrimSpace(s)[|TrimSpace(s)| - 1] != '\n'
  {
    NewlineIsSpace();
    hide IsSpace;
    var a := TrimEnd(s);
    var r := TrimStart(a);
    assert r != "" ==> r[|r| - 1] == a[|a| - 1];
  }

  lemma NewlineIsSpace()
    ensures IsSpace('\n')
  {
  }

  lemma NormalizedIsCanonical(data: string) returns (h: string, es: seq<string>, cs: seq<Cue>)
    requires IsFile(data)
    ensures Written(cs) && Canonical(h, es, cs) && Normalize(data) == Spaced(Parts(h, es, cs))
  {
    hide ParseCue, Solid, CuesOf, ExtrasOf, Blocks, TrimSpace, Unix, Spaced, Normalized;
    var s := TrimSpace(Unix(data));
    var bs := Blocks(s);
    var cues := CuesOf(bs[1..]);
    TrimmedHasNoNewline(Unix(data));
    HeaderIsSolid(s);
    BlocksHaveNoGap(s);
    ExtrasAreNoCues(bs[1..]);
    NormalizedIsWritten(bs[1..]);
    h, es, cs := bs[0], if RollsUp(cues) then [] else ExtrasOf(bs[1..]), Normalized(cues);
  }

  // ---------------------------------------------------------------------
  // Twice
  // ---------------------------------------------------------------------

  lemma {:induction false} UnixStays(s: string)
    requires NoCrLf(s)
    ensures Unix(s) == s
    decreases |s|
  {
    if |s| >= 2 {
      assert !CrLfAt(s, 0);
      forall i | 0 <= i < |s[1..]| ensures !CrLfAt(s[1..], i) {
        assert !CrLfAt(s, i + 1);
      }
      UnixStays(s[1..]);
    }
  }

  // White space before the gap that every written file ends with.
  predicate EndsInSpace(out: string) { |out| >= 3 && IsSpace(out[|out| - 3]) }

  lemma CoreStarts(h: string, es: seq<string>, cs: seq<Cue>)
    requires Written(cs) && Canonical(h, es, cs)
    ensures var bs := Parts(h, es, cs);
      && Spaced(bs) == Core(bs) + GAP && |Core(bs)| >= 6 && Core(bs)[0] == 'W'
  {
    hide Printed, WellFormed, NeatCue, Solid, ParseCue, Spaced;
    var bs := Parts(h, es, cs);
    var front, last := bs[..|bs| - 1], bs[|bs| - 1];
    assert bs == front + [last];
    SpacedOneMore(front, last);
    if front == [] {
      NothingSpaced();
    } else {
      var rest := bs[1..];
      assert bs == [h] + rest;
      CoreOfMore(h, rest);
    }
  }

  lemma WrittenIsTrimmed(h: string, es: seq<string>, cs: seq<Cue>)
    requires Written(cs) && Canonical(h, es, cs)
    ensures var bs := Parts(h, es, cs); TrimEnd(Spaced(bs)) == TrimEnd(Core(bs))
    ensures var bs := Parts(h, es, cs); TrimEnd(Core(bs)) == Core(bs) <==> !EndsInSpace(Spaced(bs))
  {
    hide Printed, WellFormed, NeatCue, Solid, ParseCue, Spaced, Core, Canonical;
    var bs := Parts(h, es, cs);
    CoreStarts(h, es, cs);
    GapIsBlank();
    TrimEndSum(Core(bs), GAP);
    assert Spaced(bs)[|Spaced(bs)| - 3] == Core(bs)[|Core(bs)| - 1];
  }

  lemma TrimStartStays(s: string)
    requires s != "" && s[0] == 'W'
    ensures TrimStart(s) == s
  {
    assert !IsSpace('W');
  }

  // Without a CRLF pair left, normalising a file twice is normalising it once
  // exactly when nothing but the gap ends it in white space; what is no WebVTT
  // file is never changed.
  lemma TwiceWithoutCrLf(data: string)
    requires NoCrLf(Normalize(data))
    ensures Normalize(Normalize(data)) == Normalize(data) <==> (IsFile(data) ==> !EndsInSpace(Normalize(data)))
  {
    hide Normalize, Printed, WellFormed, NeatCue, Solid, ParseCue, Spaced, Core, Canonical, NeatCues, TrimEnd, TrimStart, Unix, NoCrLf;
    var out := Normalize(data);
    UnixStays(out);
    if IsFile(data) {
      var h, es, cs := NormalizedIsCanonical(data);
      WrittenIsTrimmed(h, es, cs);
      var h', es', cs' := PartsTrimmed(h, es, cs);
      CoreStarts(h, es, cs);
      CoreStarts(h', es', cs');
      TrimStartStays(Core(Parts(h', es', cs')));
      CanonicalIsWritten(out, h', es', cs');
    } else {
      NoFileStays(data);
    }
  }

  lemma NoFileStays(data: string)
    requires !IsFile(data)
    ensures Normalize(data) == data
  {
  }
}
