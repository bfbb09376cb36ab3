// Text: numbers in a radix, and splitting and joining at a separator.
module Text {
  import opened Base

  // ---------------------------------------------------------------------
  // Numbers as text
  // ---------------------------------------------------------------------

  function DigitOf(c: char): Option<nat> {
    if '0' <= c <= '9' then Some(c as nat - '0' as nat)
    else if 'a' <= c <= 'z' then Some(c as nat - 'a' as nat + 10)
    else if 'A' <= c <= 'Z' then Some(c as nat - 'A' as nat + 10)
    else None
  }

  function ValueOf(s: string, b: nat): Option<nat> {
    if s == "" then Some(0)
    else
      var front, d := ValueOf(s[..|s| - 1], b), DigitOf(s[|s| - 1]);
      if front.None? || d.None? || d.value >= b then None else Some(front.value * b + d.value)
  }

  function DigitChar(d: nat): (c: char)
    requires d < 16
    ensures DigitOf(c) == Some(d) && ('0' <= c <= '9' || 'a' <= c <= 'f') && (d < 10 ==> c <= '9') && (c == '0' <==> d == 0)
  {
    if d < 10 then '0' + d as char else 'a' + (d - 10) as char
  }

  function Digits(x: nat, b: nat): (s: string)
    requires 2 <= b <= 16
    ensures s != "" && (s[0] == '0' <==> x == 0)
    ensures forall c :: c in s ==> '0' <= c <= '9' || 'a' <= c <= 'f'
  {
    if x < b then [DigitChar(x)]
    else
      Division(x, b);
      Digits(x / b, b) + [DigitChar(x % b)]
  }

  lemma {:induction false} DecimalDigits(x: nat)
    ensures forall c :: c in Digits(x, 10) ==> '0' <= c <= '9'
  {
    if x >= 10 {
      DecimalDigits(x / 10);
    }
  }

  lemma Division(x: nat, b: nat)
    requires 2 <= b <= x
    ensures x / b * b + x % b == x && 1 <= x / b < x && x % b < b
  {
  }

  lemma DigitAppended(s: string, c: char, b: nat)
    requires ValueOf(s, b).Some? && DigitOf(c).Some? && DigitOf(c).value < b
    ensures ValueOf(s + [c], b) == Some(ValueOf(s, b).value * b + DigitOf(c).value)
  {
    assert (s + [c])[..|s|] == s;
  }

  lemma {:induction false} DigitsParse(x: nat, b: nat)
    requires 2 <= b <= 16
    ensures ValueOf(Digits(x, b), b) == Some(x)
  {
    if x < b {
      DigitAppended("", DigitChar(x), b);
      assert "" + [DigitChar(x)] == Digits(x, b);
    } else {
      hide DigitOf, DigitChar, ValueOf;
      Division(x, b);
      var q, r := x / b, x % b;
      DigitsParse(q, b);
      DigitAppended(Digits(q, b), DigitChar(r), b);
      assert Digits(x, b) == Digits(q, b) + [DigitChar(r)];
    }
  }

  // ---------------------------------------------------------------------
  // Splitting and joining
  // ---------------------------------------------------------------------

  function Split(s: string, sep: char): (r: seq<string>)
    ensures r != []
  {
    if s == "" then [""]
    else
      var front, c := Split(s[..|s| - 1], sep), s[|s| - 1];
      if c == sep then front + [""] else front[|front| - 1 := front[|front| - 1] + [c]]
  }

  function Join(parts: seq<string>, sep: char): string
    requires parts != []
  {
    if |parts| == 1 then parts[0] else Join(parts[..|parts| - 1], sep) + [sep] + parts[|parts| - 1]
  }

  predicate Free(p: string, sep: char) { forall c :: c in p ==> c != sep }

  lemma FreeParts(a: string, b: string, sep: char)
    ensures Free(a + b, sep) <==> Free(a, sep) && Free(b, sep)
  {
    if Free(a + b, sep) {
      assert forall c :: c in a || c in b ==> c in a + b;
    }
  }

  lemma {:induction false} SplitAppend(s: string, p: string, sep: char)
    requires Free(p, sep)
    ensures var f := Split(s, sep); Split(s + p, sep) == f[|f| - 1 := f[|f| - 1] + p]
    decreases |p|
  {
    if p == "" {
      assert s + p == s && Split(s, sep)[|Split(s, sep)| - 1] + p == Split(s, sep)[|Split(s, sep)| - 1];
    } else {
      var front, c := p[..|p| - 1], p[|p| - 1];
      assert Free(front, sep) by {
        forall x | x in front ensures x != sep {
          assert x in p;
        }
      }
      SplitAppend(s, front, sep);
      assert s + p == (s + front) + [c] && ((s + front) + [c])[..|s + front|] == s + front;
      assert c in p;
      assert Split(s, sep)[|Split(s, sep)| - 1] + front + [c] == Split(s, sep)[|Split(s, sep)| - 1] + p;
    }
  }

  lemma SplitSep(s: string, sep: char)
    ensures Split(s + [sep], sep) == Split(s, sep) + [""]
  {
    assert (s + [sep])[..|s|] == s;
  }

  lemma {:induction false} SplitJoined(parts: seq<string>, sep: char)
    requires parts != [] && forall p :: p in parts ==> Free(p, sep)
    ensures Split(Join(parts, sep), sep) == parts
  {
    if |parts| == 1 {
      SplitAppend("", parts[0], sep);
      assert "" + parts[0] == parts[0] && parts[0] in parts;
    } else {
      var front, last := parts[..|parts| - 1], parts[|parts| - 1];
      SplitJoined(front, sep);
      SplitSep(Join(front, sep), sep);
      assert last in parts;
      SplitAppend(Join(front, sep) + [sep], last, sep);
      assert "" + last == last && front + [""] + [] == front + [""];
      assert Join(front, sep) + [sep] + last == Join(parts, sep);
    }
  }
}
