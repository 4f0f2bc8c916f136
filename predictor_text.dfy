/** The two line patterns the DisEMBL and GlobPlot converters share: the `>name` header
    of each sequence block, `^>\s?(.*\S)\s*$`, and the region lists `a-b, c-d` that
    follow a label, `\s*((?:\d+-\d+(?:, )?)*)`, with what `split(', ')` and
    `split('-')` make of them. */
module PredictorText {
  import opened Wrappers
  import opened Text
  import opened Streams
  import opened JalviewFormat

  // ---------------------------------------------------------------------------------
  // Sequence headers

  /** The name the header pattern captures, or None where it does not match (the
      source then fails on `.group`). One leading space is dropped; `(.*\S)` ends at
      the last character that is not whitespace, after which only whitespace may
      follow; `.` does not match a newline. */
  function HeaderName(line: string): (r: Option<string>)
    ensures r.Some? ==> r.value != [] && !IsSpace(r.value[|r.value| - 1]) && Excludes(r.value, '\n')
  {
    if line == [] || line[0] != '>' then None
    else
      var body := line[1..];
      var rest := if body != [] && IsSpace(body[0]) then body[1..] else body;
      var name := TrimEnd(rest);
      if name != [] && Excludes(name, '\n') then Some(name) else None
  }

  /** A header written as `>`, an optional space, the name and trailing whitespace
      yields the name, as long as a name written without the space does not itself
      start with whitespace. */
  lemma {:induction false} HeaderRoundTrip(pad: string, name: string, trail: string)
    requires pad == "" || pad == " "
    requires name != [] && !IsSpace(name[|name| - 1]) && Excludes(name, '\n')
    requires pad == "" ==> !IsSpace(name[0])
    requires forall i :: 0 <= i < |trail| ==> IsSpace(trail[i])
    ensures HeaderName(">" + pad + name + trail) == Some(name)
  {
    var gt := ">";
    var line := gt + (pad + (name + trail));
    assert line == ">" + pad + name + trail;
    var body := line[1..];
    assert body == pad + (name + trail);
    var rest := if body != [] && IsSpace(body[0]) then body[1..] else body;
    assert rest == name + trail by {
      if pad == " " {
        assert body[0] == ' ' && body[1..] == name + trail;
      } else {
        assert body == name + trail;
      }
    }
    TrimEndSpaces(name, trail);
  }

  lemma {:induction false} TrimEndSpaces(name: string, trail: string)
    requires name != [] && !IsSpace(name[|name| - 1])
    requires forall i :: 0 <= i < |trail| ==> IsSpace(trail[i])
    ensures TrimEnd(name + trail) == name
    decreases |trail|
  {
    if trail == [] {
      assert name + trail == name;
    } else {
      var s := name + trail;
      assert s[..|s| - 1] == name + trail[..|trail| - 1];
      TrimEndSpaces(name, trail[..|trail| - 1]);
    }
  }

  // ---------------------------------------------------------------------------------
  // Region lists

  /** One repetition of `\d+-\d+(?:, )?`: the two numbers and whether `, ` followed. */
  datatype RangeItem = RangeItem(start: string, end: string, comma: bool)

  predicate WellFormedItem(it: RangeItem) {
    it.start != [] && AllDigits(it.start) && it.end != [] && AllDigits(it.end)
  }

  function ItemText(it: RangeItem): string {
    it.start + "-" + it.end + (if it.comma then ", " else "")
  }

  function GroupText(items: seq<RangeItem>): string
    decreases |items|
  {
    if items == [] then "" else ItemText(items[0]) + GroupText(items[1..])
  }

  /** Only the last repetition may lack its `, `: the star stops after a repetition
      without one, since the greedy `\d+` leaves no digit to start another. */
  predicate CommasBetween(items: seq<RangeItem>) {
    forall i :: 0 <= i < |items| - 1 ==> items[i].comma
  }

  /** One repetition of `\d+-\d+(?:, )?` at the start of `s` and its length. */
  function ScanItem(s: string): (r: Option<(RangeItem, nat)>)
    ensures r.Some? ==> WellFormedItem(r.value.0) && 0 < r.value.1 <= |s|
  {
    var a := RunLength(s, IsDigit);
    if a == 0 || a == |s| || s[a] != '-' then None
    else
      var t := s[a + 1..];
      var b := RunLength(t, IsDigit);
      if b == 0 then None
      else
        var u := t[b..];
        var comma := |u| >= 2 && u[0] == ',' && u[1] == ' ';
        Some((RangeItem(s[..a], t[..b], comma), a + 1 + b + (if comma then 2 else 0)))
  }

  /** The repetition spells out the text it consumed. */
  lemma {:induction false} ScanItemText(s: string)
    requires ScanItem(s).Some?
    ensures s[..ScanItem(s).value.1] == ItemText(ScanItem(s).value.0)
  {
    var a := RunLength(s, IsDigit);
    var t := s[a + 1..];
    var b := RunLength(t, IsDigit);
    var u := t[b..];
    var comma := |u| >= 2 && u[0] == ',' && u[1] == ' ';
    var n := a + 1 + b + (if comma then 2 else 0);
    var it := RangeItem(s[..a], t[..b], comma);
    assert ScanItem(s) == Some((it, n));
    var dash, sep := "-", ", ";
    assert ItemText(it) == s[..a] + dash + t[..b] + (if comma then sep else "");
    assert s[..a + 1] == s[..a] + dash;
    assert s[..a + 1 + b] == s[..a + 1] + t[..b];
    if comma {
      assert s[..n] == s[..a + 1 + b] + sep;
    }
  }

  /** The repetitions the greedy star takes at the start of `s`. Each `\d+` takes every
      digit; taking fewer leaves a digit where `-`, `, ` or the next `\d+` cannot
      go on, so the first match the engine finds is this one. The star stops after a
      repetition without its `, `, since no digit can follow the greedy `\d+`. */
  function ScanRanges(s: string): (r: seq<RangeItem>)
    ensures forall i :: 0 <= i < |r| ==> WellFormedItem(r[i])
    ensures CommasBetween(r)
    decreases |s|
  {
    match ScanItem(s)
    case None => []
    case Some((it, n)) =>
      if it.comma then [it] + ScanRanges(s[n..]) else [it]
  }

  lemma {:induction false} ScanPrefix(s: string)
    ensures GroupText(ScanRanges(s)) <= s
    decreases |s|
  {
    match ScanItem(s)
    case None =>
    case Some((it, n)) =>
      var r := ScanRanges(s);
      assert r[0] == it;
      ScanItemText(s);
      assert s == s[..n] + s[n..];
      if it.comma {
        var rest := ScanRanges(s[n..]);
        assert r == [it] + rest;
        assert r[1..] == rest;
        ScanPrefix(s[n..]);
        PrefixPrepend(ItemText(it), GroupText(rest), s[n..]);
      } else {
        assert r == [it];
        assert GroupText(r[1..]) == "";
        assert GroupText(r) == ItemText(it) + "";
      }
  }

  /** The text group 2 captures from what follows the label and its whitespace. */
  function RangeGroup(s: string): (g: string)
    ensures g <= s
  {
    ScanPrefix(s);
    GroupText(ScanRanges(s))
  }

  /** `[tuple(r.split('-')) for r in group.split(', ')] if group else []`. */
  function ParseRanges(group: string): (r: seq<seq<string>>)
    ensures group == "" ==> r == []
  {
    if group == "" then []
    else
      var pieces := Split(group, ", ");
      seq(|pieces|, i requires 0 <= i < |pieces| => Split(pieces[i], "-"))
  }

  /** The regions a scanned group yields: the pairs in order, and one more region
      holding only an empty string when the group ends with `, ` — a region the
      writers' `region[1]` then fails on. */
  function ItemRegions(items: seq<RangeItem>): (r: seq<seq<string>>)
    ensures |r| == |items| + (if items != [] && items[|items| - 1].comma then 1 else 0)
  {
    seq(|items|, i requires 0 <= i < |items| => [items[i].start, items[i].end])
    + (if items != [] && items[|items| - 1].comma then [[""]] else [])
  }

  /** The `, `-separated pieces of a scanned group. */
  function Pieces(items: seq<RangeItem>): (r: seq<string>)
    ensures |r| == |items| + (if items != [] && items[|items| - 1].comma then 1 else 0)
  {
    seq(|items|, i requires 0 <= i < |items| => items[i].start + "-" + items[i].end)
    + (if items != [] && items[|items| - 1].comma then [""] else [])
  }

  lemma {:induction false} GroupJoin(items: seq<RangeItem>)
    requires items != [] && CommasBetween(items)
    ensures GroupText(items) == Join(", ", Pieces(items))
    decreases |items|
  {
    var it := items[0];
    var p := Pieces(items);
    var piece := it.start + "-" + it.end;
    assert p[0] == piece;
    if |items| == 1 {
      assert GroupText(items) == ItemText(it) by {
        assert GroupText(items[1..]) == "";
      }
      if it.comma {
        assert p == [piece, ""];
        assert p[1..] == [""];
      } else {
        assert p == [piece];
      }
    } else {
      var rest := items[1..];
      GroupJoin(rest);
      assert CommasBetween(rest);
      assert it.comma;
      assert p[1..] == Pieces(rest) by {
        assert rest[|rest| - 1] == items[|items| - 1];
      }
      assert |p| > 1;
      assert Join(", ", p) == piece + ", " + Join(", ", p[1..]);
    }
  }

  /** What `split(', ')` and `split('-')` make of the scanned group: the pairs of
      numbers in order, plus a region `("",)` when the group ends with `, `. */
  lemma {:induction false} ParseScanned(s: string)
    ensures ParseRanges(RangeGroup(s)) == ItemRegions(ScanRanges(s))
  {
    var items := ScanRanges(s);
    var g := RangeGroup(s);
    if items == [] {
      assert g == "";
    } else {
      GroupJoin(items);
      var p := Pieces(items);
      assert g != "" by {
        assert |ItemText(items[0])| > 0;
        assert GroupText(items) == ItemText(items[0]) + GroupText(items[1..]);
      }
      PiecesExclude(items);
      SplitJoin(p, ", ");
      SplitPieces(items, ParseRanges(g));
    }
  }

  lemma {:induction false} PiecesExclude(items: seq<RangeItem>)
    requires forall i :: 0 <= i < |items| ==> WellFormedItem(items[i])
    ensures forall i :: 0 <= i < |Pieces(items)| ==> Excludes(Pieces(items)[i], ',')
  {
    var p := Pieces(items);
    forall i | 0 <= i < |p| ensures Excludes(p[i], ',') {
      if i < |items| {
        PieceExcludes(items[i], ',');
        assert p[i] == items[i].start + "-" + items[i].end;
      } else {
        assert p[i] == "";
      }
    }
  }

  lemma {:induction false} PieceExcludes(it: RangeItem, c: char)
    requires WellFormedItem(it) && c != '-' && !IsDigit(c)
    ensures Excludes(it.start + "-" + it.end, c)
  {
  }

  lemma {:induction false} PieceSplit(it: RangeItem)
    requires WellFormedItem(it)
    ensures Split(it.start + "-" + it.end, "-") == [it.start, it.end]
  {
    var parts := [it.start, it.end];
    DigitsExclude(it.start, '-');
    DigitsExclude(it.end, '-');
    assert Join("-", parts) == it.start + "-" + it.end;
    SplitJoin(parts, "-");
  }

  lemma {:induction false} SplitPieces(items: seq<RangeItem>, r: seq<seq<string>>)
    requires forall i :: 0 <= i < |items| ==> WellFormedItem(items[i])
    requires var p := Pieces(items);
      |r| == |p| && forall i :: 0 <= i < |p| ==> r[i] == Split(p[i], "-")
    ensures r == ItemRegions(items)
  {
    var p := Pieces(items);
    var expected := ItemRegions(items);
    forall i | 0 <= i < |r| ensures r[i] == expected[i] {
      if i < |items| {
        PieceSplit(items[i]);
        assert p[i] == items[i].start + "-" + items[i].end;
        assert expected[i] == [items[i].start, items[i].end];
      } else {
        assert p[i] == "";
        assert Split("", "-") == [""];
        assert expected[i] == [""];
      }
    }
  }

  lemma {:induction false} DigitsExclude(s: string, c: char)
    requires AllDigits(s) && !IsDigit(c)
    ensures Excludes(s, c)
  {
  }

  /** The writers' text for a list of regions: `a-b` pieces joined by `, `. */
  function RangesText(pairs: seq<(string, string)>): string {
    Join(", ", seq(|pairs|, i requires 0 <= i < |pairs| => pairs[i].0 + "-" + pairs[i].1))
  }

  /** The items a list of well-formed pairs is scanned into: all but the last carry
      their `, `. */
  function PairItems(pairs: seq<(string, string)>): (r: seq<RangeItem>)
    ensures |r| == |pairs|
  {
    seq(|pairs|, i requires 0 <= i < |pairs| => RangeItem(pairs[i].0, pairs[i].1, i < |pairs| - 1))
  }

  predicate NumberPairs(pairs: seq<(string, string)>) {
    forall i :: 0 <= i < |pairs| ==> pairs[i].0 != [] && AllDigits(pairs[i].0) && pairs[i].1 != [] && AllDigits(pairs[i].1)
  }

  lemma {:induction false} RangesTextHead(pairs: seq<(string, string)>)
    requires pairs != []
    ensures RangesText(pairs) == pairs[0].0 + "-" + pairs[0].1
      + (if |pairs| == 1 then "" else ", " + RangesText(pairs[1..]))
  {
    var ps := seq(|pairs|, i requires 0 <= i < |pairs| => pairs[i].0 + "-" + pairs[i].1);
    assert ps[0] == pairs[0].0 + "-" + pairs[0].1;
    if |pairs| > 1 {
      assert ps[1..] == seq(|pairs| - 1, i requires 0 <= i < |pairs| - 1 => pairs[1..][i].0 + "-" + pairs[1..][i].1);
      assert Join(", ", ps) == ps[0] + ", " + Join(", ", ps[1..]);
    }
  }

  /** One written `a-b` followed by something that does not continue the number. */
  lemma {:induction false} ScanItemWritten(a: string, b: string, tail: string)
    requires a != [] && AllDigits(a) && b != [] && AllDigits(b)
    requires tail == [] || !IsDigit(tail[0])
    ensures var comma := |tail| >= 2 && tail[0] == ',' && tail[1] == ' ';
      ScanItem(a + "-" + b + tail) == Some((RangeItem(a, b, comma), |a| + 1 + |b| + (if comma then 2 else 0)))
  {
    WrittenItemParts(a, b, tail);
    ScanItemOf(a + "-" + b + tail, |a|, |b|);
  }

  /** Where the two numbers of a written `a-b` stand. */
  lemma {:induction false} WrittenItemParts(a: string, b: string, tail: string)
    requires a != [] && AllDigits(a) && b != [] && AllDigits(b)
    requires tail == [] || !IsDigit(tail[0])
    ensures var s := a + "-" + b + tail;
      && |a| < |s| && RunLength(s, IsDigit) == |a| && s[|a|] == '-' && s[..|a|] == a
      && RunLength(s[|a| + 1..], IsDigit) == |b| && s[|a| + 1..][..|b|] == b && s[|a| + 1..][|b|..] == tail
  {
    var s := a + "-" + b + tail;
    var dash := "-";
    assert s == a + (dash + (b + tail));
    RunLengthStops(a, dash + (b + tail), IsDigit);
    assert s[..|a|] == a && s[|a|] == '-';
    var t := s[|a| + 1..];
    assert t == b + tail;
    RunLengthStops(b, tail, IsDigit);
    assert t[..|b|] == b && t[|b|..] == tail;
  }

  /** The repetition at the start of `s` once its two numbers are measured. */
  lemma {:induction false} ScanItemOf(s: string, na: nat, nb: nat)
    requires 0 < na < |s| && RunLength(s, IsDigit) == na && s[na] == '-'
    requires 0 < nb && RunLength(s[na + 1..], IsDigit) == nb
    ensures var u := s[na + 1..][nb..];
      var comma := |u| >= 2 && u[0] == ',' && u[1] == ' ';
      ScanItem(s) == Some((RangeItem(s[..na], s[na + 1..][..nb], comma), na + 1 + nb + (if comma then 2 else 0)))
  {
  }

  lemma {:induction false} PairItemsCons(pairs: seq<(string, string)>)
    requires |pairs| > 1
    ensures PairItems(pairs) == [RangeItem(pairs[0].0, pairs[0].1, true)] + PairItems(pairs[1..])
  {
    var l, r := PairItems(pairs), [RangeItem(pairs[0].0, pairs[0].1, true)] + PairItems(pairs[1..]);
    forall i | 0 <= i < |l| ensures l[i] == r[i] {
      if i > 0 {
        assert r[i] == PairItems(pairs[1..])[i - 1];
      }
    }
  }

  /** Scanning a written region list, followed by anything that neither continues a
      number nor starts a `, `, takes exactly the written regions. */
  lemma {:induction false} ScanWritten(pairs: seq<(string, string)>, rest: string)
    requires NumberPairs(pairs)
    requires rest == [] || (!IsDigit(rest[0]) && rest[0] != ',')
    ensures ScanRanges(RangesText(pairs) + rest) == PairItems(pairs)
    decreases |pairs|
  {
    var s := RangesText(pairs) + rest;
    if pairs == [] {
      assert RangesText(pairs) == "";
      assert s == rest;
      assert RunLength(rest, IsDigit) == 0;
      assert ScanItem(s) == None;
    } else {
      var a, b := pairs[0].0, pairs[0].1;
      RangesTextHead(pairs);
      if |pairs| == 1 {
        assert s == a + "-" + b + rest;
        ScanLastWritten(a, b, rest);
        assert PairItems(pairs) == [RangeItem(a, b, false)];
      } else {
        var more := RangesText(pairs[1..]) + rest;
        assert s == a + "-" + b + ", " + more;
        ScanStepWritten(a, b, more);
        assert NumberPairs(pairs[1..]);
        ScanWritten(pairs[1..], rest);
        PairItemsCons(pairs);
      }
    }
  }

  lemma {:induction false} ScanLastWritten(a: string, b: string, rest: string)
    requires a != [] && AllDigits(a) && b != [] && AllDigits(b)
    requires rest == [] || (!IsDigit(rest[0]) && rest[0] != ',')
    ensures ScanRanges(a + "-" + b + rest) == [RangeItem(a, b, false)]
  {
    ScanItemWritten(a, b, rest);
  }

  lemma {:induction false} ScanStepWritten(a: string, b: string, more: string)
    requires a != [] && AllDigits(a) && b != [] && AllDigits(b)
    ensures ScanRanges(a + "-" + b + ", " + more) == [RangeItem(a, b, true)] + ScanRanges(more)
  {
    var sep := ", ";
    var tail := sep + more;
    var s := a + "-" + b + tail;
    assert s == a + "-" + b + ", " + more;
    assert tail[0] == ',' && tail[1] == ' ';
    ScanItemWritten(a, b, tail);
    var n := |a| + 1 + |b| + 2;
    assert ScanItem(s) == Some((RangeItem(a, b, true), n));
    assert s[n..] == more;
  }

  /** A written region list reads back as the same pairs. */
  lemma {:induction false} RangesRoundTrip(pairs: seq<(string, string)>, rest: string)
    requires NumberPairs(pairs)
    requires rest == [] || (!IsDigit(rest[0]) && rest[0] != ',')
    ensures ParseRanges(RangeGroup(RangesText(pairs) + rest)) == PairRegions(pairs)
  {
    ScanWritten(pairs, rest);
    ParseScanned(RangesText(pairs) + rest);
    var items := PairItems(pairs);
    if items != [] {
      assert !items[|items| - 1].comma;
    }
  }

  // ---------------------------------------------------------------------------------
  // Labelled region lines

  /** Group 2 of `^# <label>\s*((?:\d+-\d+(?:, )?)*)`, or None when the line does not
      start with `# ` and the label. Nothing after the group is required, so the
      match never fails once the label is there. */
  function LabelledRanges(line: string, tag: string): (r: Option<string>)
    ensures r.Some? ==> |line| >= |tag| + 2
  {
    var head := "# " + tag;
    if |line| < |head| || line[..|head|] != head then None
    else
      var after := line[|head|..];
      Some(RangeGroup(after[RunLength(after, IsSpace)..]))
  }

  lemma {:induction false} LabelledAfter(tag: string, after: string)
    ensures LabelledRanges("# " + tag + after, tag) == Some(RangeGroup(after[RunLength(after, IsSpace)..]))
  {
    var head := "# " + tag;
    var line := head + after;
    assert line[..|head|] == head && line[|head|..] == after;
  }

  /** The regions a labelled line yields are digit pairs, except possibly a last region
      holding only an empty string, left by a list that ends with `, `. */
  lemma {:induction false} LabelledRegions(line: string, tag: string)
    requires LabelledRanges(line, tag).Some?
    ensures var r := ParseRanges(LabelledRanges(line, tag).value);
      forall k :: 0 <= k < |r| ==>
        (|r[k]| == 2 && r[k][0] != "" && AllDigits(r[k][0]) && r[k][1] != "" && AllDigits(r[k][1]))
        || (k == |r| - 1 && r[k] == [""])
  {
    var head := "# " + tag;
    var after := line[|head|..];
    var s := after[RunLength(after, IsSpace)..];
    ParseScanned(s);
  }

  /** A line whose character `k + 2` differs from the label's character `k` does not
      carry that label. */
  lemma {:induction false} LabelledMismatch(line: string, tag: string, k: nat)
    requires k < |tag| && k + 2 < |line| && line[k + 2] != tag[k]
    ensures LabelledRanges(line, tag).None?
  {
    var head := "# " + tag;
    if |head| <= |line| {
      assert line[..|head|][k + 2] != head[k + 2];
    }
  }

  /** A region line as the predictors write it: the label, one space, the list. */
  function RangesLine(tag: string, pairs: seq<(string, string)>): string {
    "# " + tag + " " + RangesText(pairs) + "\n"
  }

  /** The regions of a list of pairs, as `tuple(r.split('-'))` yields them. */
  function PairRegions(pairs: seq<(string, string)>): (r: seq<seq<string>>)
    ensures |r| == |pairs|
  {
    seq(|pairs|, i requires 0 <= i < |pairs| => [pairs[i].0, pairs[i].1])
  }

  /** A labelled line written by a well-formed region list yields that list. */
  lemma {:induction false} LabelledRoundTrip(tag: string, pairs: seq<(string, string)>)
    requires NumberPairs(pairs)
    ensures LabelledRanges(RangesLine(tag, pairs), tag).Some?
    ensures ParseRanges(LabelledRanges(RangesLine(tag, pairs), tag).value) == PairRegions(pairs)
  {
    var text := RangesText(pairs);
    var sp, nl := " ", "\n";
    var after := sp + (text + nl);
    assert RangesLine(tag, pairs) == "# " + tag + after;
    LabelledAfter(tag, after);
    if pairs == [] {
      EmptyAfter(text, after);
    } else {
      RangesTextHead(pairs);
      assert text[0] == pairs[0].0[0];
      SpacedAfter(text, after);
      RangesRoundTrip(pairs, nl);
    }
  }

  lemma {:induction false} EmptyAfter(text: string, after: string)
    requires text == [] && after == " " + (text + "\n")
    ensures RangeGroup(after[RunLength(after, IsSpace)..]) == ""
  {
    assert after == " \n";
    assert RunLength(after, IsSpace) == 2;
    assert after[2..] == [];
    assert ScanItem([]) == None;
  }

  lemma {:induction false} SpacedAfter(text: string, after: string)
    requires text != [] && !IsSpace(text[0]) && after == " " + (text + "\n")
    ensures after[RunLength(after, IsSpace)..] == text + "\n"
  {
    var sp := " ";
    assert after == sp + (text + "\n");
    RunLengthStops(sp, text + "\n", IsSpace);
  }

  // ---------------------------------------------------------------------------------
  // Region features

  /** What a writer has printed and whether it got to the end: an `IndexError` part of
      the way through leaves the lines printed before it. */
  datatype Output = Output(lines: seq<string>, done: bool)

  const Nothing := Output([], true)

  /** One part of the output after another; nothing after a failure is printed. */
  function Then(a: Output, b: Output): (r: Output)
    ensures !a.done ==> r == a
    ensures a.done ==> r == Output(a.lines + b.lines, b.done)
  {
    if a.done then Output(a.lines + b.lines, b.done) else a
  }

  lemma {:induction false} ThenAssoc(a: Output, b: Output, c: Output)
    ensures Then(Then(a, b), c) == Then(a, Then(b, c))
  {
    if a.done && b.done {
      assert (a.lines + b.lines) + c.lines == a.lines + (b.lines + c.lines);
    }
  }

  /** `Feature(desc, seq, '-1', region[0], region[1], type, None)`. */
  function RegionFeature(desc: string, name: string, ftype: string, region: seq<string>): Feature
    requires |region| >= 2
  {
    Feature(desc, name, "-1", region[0], region[1], ftype, None)
  }

  /** The row for one region, or the `IndexError` of `region[1]` (or `region[0]`)
      when the region has fewer than two parts. */
  function RegionRow(desc: string, name: string, ftype: string, region: seq<string>): (r: Output)
    ensures r.done <==> |region| >= 2
  {
    if |region| < 2 then Output([], false)
    else Output([FeatureRowText(RegionFeature(desc, name, ftype, region))], true)
  }

  /** `for region in group:` printing each region's row. */
  function RegionRows(desc: string, name: string, ftype: string, group: seq<Region>): Output
    decreases |group|
  {
    if group == [] then Nothing
    else Then(RegionRows(desc, name, ftype, group[..|group| - 1]), RegionRow(desc, name, ftype, group[|group| - 1]))
  }

  /** A region as `tuple(r.split('-'))` makes it: normally `(start, end)`. */
  type Region = seq<string>

  /** The index of the first region with fewer than two parts, or the length. */
  function FirstShort(group: seq<Region>): (n: nat)
    ensures n <= |group| && (n < |group| ==> |group[n]| < 2)
    ensures forall k :: 0 <= k < n ==> |group[k]| >= 2
    decreases |group|
  {
    if group == [] then 0
    else if |group[0]| < 2 then 0
    else 1 + FirstShort(group[1..])
  }

  /** The rows of the regions before the first short one. */
  function RowsBefore(desc: string, name: string, ftype: string, group: seq<Region>, n: nat): (r: seq<string>)
    requires n <= |group| && forall k :: 0 <= k < n ==> |group[k]| >= 2
    ensures |r| == n
  {
    seq(n, k requires 0 <= k < n => FeatureRowText(RegionFeature(desc, name, ftype, group[k])))
  }

  /** The loop prints one row per region up to the first region that is too short and
      fails there; it gets through exactly when every region has two parts. */
  lemma {:induction false} RegionRowsShape(desc: string, name: string, ftype: string, group: seq<Region>)
    ensures var n := FirstShort(group);
      RegionRows(desc, name, ftype, group) == Output(RowsBefore(desc, name, ftype, group, n), n == |group|)
    decreases |group|
  {
    if group != [] {
      var init := group[..|group| - 1];
      var last := group[|group| - 1];
      RegionRowsShape(desc, name, ftype, init);
      var n0 := FirstShort(init);
      var n := FirstShort(group);
      FirstShortPrefix(group);
      if n0 < |init| {
        assert n == n0;
        assert RowsBefore(desc, name, ftype, init, n0) == RowsBefore(desc, name, ftype, group, n);
      } else if |last| < 2 {
        assert n == |init|;
        assert RowsBefore(desc, name, ftype, init, n0) == RowsBefore(desc, name, ftype, group, n);
      } else {
        assert n == |group|;
        assert RowsBefore(desc, name, ftype, init, n0) + [FeatureRowText(RegionFeature(desc, name, ftype, last))]
          == RowsBefore(desc, name, ftype, group, n);
      }
    }
  }

  lemma {:induction false} FirstShortPrefix(group: seq<Region>)
    requires group != []
    ensures var init := group[..|group| - 1];
      var n0 := FirstShort(init);
      FirstShort(group) == if n0 < |init| then n0 else if |group[|group| - 1]| < 2 then |init| else |group|
  {
    var init := group[..|group| - 1];
    var n0 := FirstShort(init);
    var n := FirstShort(group);
    assert forall k :: 0 <= k < n0 ==> |group[k]| >= 2;
    if n0 < |init| {
      assert |group[n0]| < 2;
    }
    if n < |init| {
      assert |init[n]| < 2;
    }
  }

  /** A failing region leaves the rest of the group unprinted. */
  lemma {:induction false} RegionRowsFail(desc: string, name: string, ftype: string, group: seq<Region>, k: nat)
    requires k <= |group| && !RegionRows(desc, name, ftype, group[..k]).done
    ensures RegionRows(desc, name, ftype, group) == RegionRows(desc, name, ftype, group[..k])
    decreases |group| - k
  {
    if k < |group| {
      assert group[..k + 1][..k] == group[..k];
      RegionRowsFail(desc, name, ftype, group, k + 1);
    } else {
      assert group[..k] == group;
    }
  }

  /** The `for region in group` loop of the features writers. */
  method PrintRegions(desc: string, name: string, ftype: string, group: seq<Region>, file: Sink) returns (ok: bool)
    modifies file
    ensures file.text == old(file.text) + Printed(RegionRows(desc, name, ftype, group).lines)
    ensures ok == RegionRows(desc, name, ftype, group).done
  {
    ghost var t0 := file.text;
    assert group[..0] == [];
    for k := 0 to |group|
      invariant RegionRows(desc, name, ftype, group[..k]).done
      invariant file.text == t0 + Printed(RegionRows(desc, name, ftype, group[..k]).lines)
    {
      var region := group[k];
      assert group[..k + 1][..k] == group[..k] && group[..k + 1][k] == region;
      ghost var before := RegionRows(desc, name, ftype, group[..k]).lines;
      if |region| < 2 {
        assert RegionRows(desc, name, ftype, group[..k + 1])
          == Then(RegionRows(desc, name, ftype, group[..k]), RegionRow(desc, name, ftype, region));
        assert before + [] == before;
        RegionRowsFail(desc, name, ftype, group, k + 1);
        return false;
      }
      var row := FeatureRowText(RegionFeature(desc, name, ftype, region));
      PrintStep(t0, before, row, file.text);
      PrintFeatureRow(RegionFeature(desc, name, ftype, region), file);
    }
    assert group[..|group|] == group;
    return true;
  }

  // ---------------------------------------------------------------------------------
  // Score annotation files: per sequence a `SEQUENCE_REF` line, a line graph with its
  // threshold and colour, and a blank line

  /** What a converter puts in each sequence's graph. */
  datatype ScoreStyle = ScoreStyle(title: string, description: string, threshold: Graphline, colour: string)

  function SequenceRef(name: string): string {
    "SEQUENCE_REF\t" + name
  }

  function ScoreGraph(style: ScoreStyle, annots: seq<string>): Graph {
    Graph(LineGraph, style.title, style.description, annots)
  }

  /** The lines one sequence contributes. */
  function ScoreBlock(style: ScoreStyle, name: string, annots: seq<string>): (r: seq<string>)
    ensures |r| == 5
  {
    [SequenceRef(name)] + AnnotationRowLines(ScoreGraph(style, annots), Some(style.threshold), Some(style.colour)) + [""]
  }

  function ScoreBlocks(style: ScoreStyle, scores: seq<(string, seq<string>)>): (r: seq<string>)
    ensures |r| == 5 * |scores|
    decreases |scores|
  {
    if scores == [] then []
    else ScoreBlocks(style, scores[..|scores| - 1]) + ScoreBlock(style, scores[|scores| - 1].0, scores[|scores| - 1].1)
  }

  /** Every line of the annotation file: the header, then five lines per sequence. */
  function ScoreFileLines(style: ScoreStyle, scores: seq<(string, seq<string>)>): (r: seq<string>)
    ensures |r| == 2 + 5 * |scores|
  {
    AnnotationHeader + ScoreBlocks(style, scores)
  }

  lemma {:induction false} ScoreBlocksSnoc(style: ScoreStyle, scores: seq<(string, seq<string>)>, i: nat)
    requires i < |scores|
    ensures ScoreBlocks(style, scores[..i + 1]) == ScoreBlocks(style, scores[..i]) + ScoreBlock(style, scores[i].0, scores[i].1)
  {
    assert scores[..i + 1][..i] == scores[..i];
  }

  /** The loop of `print_annotations_file` over the sequences and their scores. */
  method PrintScoreFile(style: ScoreStyle, scores: seq<(string, seq<string>)>, file: Sink)
    modifies file
    ensures file.text == old(file.text) + Printed(ScoreFileLines(style, scores))
  {
    ghost var t0 := file.text;
    WriteAnnotationHeader(file);
    ghost var h := AnnotationHeader;
    assert scores[..0] == [];
    assert h + ScoreBlocks(style, scores[..0]) == h;
    for i := 0 to |scores|
      invariant file.text == t0 + Printed(h + ScoreBlocks(style, scores[..i]))
    {
      var (name, annots) := scores[i];
      ghost var before := h + ScoreBlocks(style, scores[..i]);
      PrintMore(t0, before, ScoreBlock(style, name, annots), file.text);
      PrintScoreBlock(style, name, annots, file);
      ScoreBlocksSnoc(style, scores, i);
      assert h + ScoreBlocks(style, scores[..i + 1]) == before + ScoreBlock(style, name, annots);
    }
    assert scores[..|scores|] == scores;
  }

  /** One round of that loop. */
  method PrintScoreBlock(style: ScoreStyle, name: string, annots: seq<string>, file: Sink)
    modifies file
    ensures file.text == old(file.text) + Printed(ScoreBlock(style, name, annots))
  {
    ghost var t0 := file.text;
    var reference := SequenceRef(name);
    WriteStep(t0, [], reference, file.text);
    file.Write(reference + "\n");
    var graph := ScoreGraph(style, annots);
    ghost var rows := AnnotationRowLines(graph, Some(style.threshold), Some(style.colour));
    PrintMore(t0, [reference], rows, file.text);
    PrintAnnotationRow(graph, Some(style.threshold), Some(style.colour), file);
    var blank := "";
    WriteStep(t0, [reference] + rows, blank, file.text);
    file.Write(blank + "\n");
  }

  // ---------------------------------------------------------------------------------
  // Region feature files: per sequence the rows of each of its region groups

  /** A region list with the description and feature type of its rows. */
  type Group = (seq<Region>, string, string)

  /** The rows of the groups in order, up to the first failing region. */
  function GroupsRows(name: string, gs: seq<Group>): Output
    decreases |gs|
  {
    if gs == [] then Nothing
    else
      var (group, desc, ftype) := gs[|gs| - 1];
      Then(GroupsRows(name, gs[..|gs| - 1]), RegionRows(desc, name, ftype, group))
  }

  /** One sequence's rows, followed by a blank line when the converter writes one. */
  function SequenceRows(name: string, gs: seq<Group>, blank: bool): Output {
    Then(GroupsRows(name, gs), Output(if blank then [""] else [], true))
  }

  function FeatureBlocks(blocks: seq<(string, seq<Group>)>, blank: bool): Output
    decreases |blocks|
  {
    if blocks == [] then Nothing
    else Then(FeatureBlocks(blocks[..|blocks| - 1], blank), SequenceRows(blocks[|blocks| - 1].0, blocks[|blocks| - 1].1, blank))
  }

  /** The sequences' rows and the `ENDGROUP` line, or as much of them as is printed
      before the first region with fewer than two parts. */
  function BlocksThenEnd(blocks: seq<(string, seq<Group>)>, blank: bool, end: string): Output {
    Then(FeatureBlocks(blocks, blank), Output([end], true))
  }

  /** The whole features file, header included. */
  function FeatureFileLines(header: seq<string>, blocks: seq<(string, seq<Group>)>, blank: bool, end: string): (r: Output)
    ensures r == Output(header + BlocksThenEnd(blocks, blank, end).lines, BlocksThenEnd(blocks, blank, end).done)
  {
    Then(Output(header, true), BlocksThenEnd(blocks, blank, end))
  }

  lemma {:induction false} GroupsFail(name: string, gs: seq<Group>, k: nat)
    requires k <= |gs| && !GroupsRows(name, gs[..k]).done
    ensures GroupsRows(name, gs) == GroupsRows(name, gs[..k])
    decreases |gs| - k
  {
    if k < |gs| {
      assert gs[..k + 1][..k] == gs[..k];
      GroupsFail(name, gs, k + 1);
    } else {
      assert gs[..k] == gs;
    }
  }

  lemma {:induction false} BlocksFail(blocks: seq<(string, seq<Group>)>, blank: bool, k: nat)
    requires k <= |blocks| && !FeatureBlocks(blocks[..k], blank).done
    ensures FeatureBlocks(blocks, blank) == FeatureBlocks(blocks[..k], blank)
    decreases |blocks| - k
  {
    if k < |blocks| {
      assert blocks[..k + 1][..k] == blocks[..k];
      BlocksFail(blocks, blank, k + 1);
    } else {
      assert blocks[..k] == blocks;
    }
  }

  /** One round of the loop over the sequences: the rows of each group, then the blank
      line. */
  method PrintSequenceRows(name: string, gs: seq<Group>, blank: bool, file: Sink) returns (ok: bool)
    modifies file
    ensures file.text == old(file.text) + Printed(SequenceRows(name, gs, blank).lines)
    ensures ok == SequenceRows(name, gs, blank).done
  {
    ghost var t0 := file.text;
    assert gs[..0] == [];
    for j := 0 to |gs|
      invariant GroupsRows(name, gs[..j]).done
      invariant file.text == t0 + Printed(GroupsRows(name, gs[..j]).lines)
    {
      var (group, desc, ftype) := gs[j];
      assert gs[..j + 1][..j] == gs[..j] && gs[..j + 1][j] == (group, desc, ftype);
      ghost var before := GroupsRows(name, gs[..j]).lines;
      PrintMore(t0, before, RegionRows(desc, name, ftype, group).lines, file.text);
      ok := PrintRegions(desc, name, ftype, group, file);
      if !ok {
        GroupsFail(name, gs, j + 1);
        return;
      }
    }
    assert gs[..|gs|] == gs;
    if blank {
      var l := "";
      WriteStep(t0, GroupsRows(name, gs).lines, l, file.text);
      file.Write(l + "\n");
    } else {
      assert GroupsRows(name, gs).lines + [] == GroupsRows(name, gs).lines;
    }
    ok := true;
  }

  /** The loop of `print_features_file` over the sequences, and the `ENDGROUP` line. */
  method PrintFeatureBlocks(blocks: seq<(string, seq<Group>)>, blank: bool, end: string, file: Sink) returns (ok: bool)
    modifies file
    ensures file.text == old(file.text) + Printed(BlocksThenEnd(blocks, blank, end).lines)
    ensures ok == BlocksThenEnd(blocks, blank, end).done
  {
    ghost var t0 := file.text;
    assert blocks[..0] == [];
    assert file.text == t0 + Printed(FeatureBlocks(blocks[..0], blank).lines);
    for i := 0 to |blocks|
      invariant FeatureBlocks(blocks[..i], blank).done
      invariant file.text == t0 + Printed(FeatureBlocks(blocks[..i], blank).lines)
    {
      var (name, gs) := blocks[i];
      assert blocks[..i + 1][..i] == blocks[..i] && blocks[..i + 1][i] == (name, gs);
      ghost var before := FeatureBlocks(blocks[..i], blank).lines;
      PrintMore(t0, before, SequenceRows(name, gs, blank).lines, file.text);
      ok := PrintSequenceRows(name, gs, blank, file);
      assert before + SequenceRows(name, gs, blank).lines == FeatureBlocks(blocks[..i + 1], blank).lines;
      if !ok {
        BlocksFail(blocks, blank, i + 1);
        return;
      }
    }
    assert blocks[..|blocks|] == blocks;
    WriteStep(t0, FeatureBlocks(blocks, blank).lines, end, file.text);
    file.Write(end + "\n");
    ok := true;
  }

  // ---------------------------------------------------------------------------------
  // What the writers produce, stated without their loops

  /** The file starts with the annotation header. */
  lemma {:induction false} ScoreFileHeader(style: ScoreStyle, scores: seq<(string, seq<string>)>)
    ensures ScoreFileLines(style, scores)[..2] == AnnotationHeader
  {
    var ls := ScoreFileLines(style, scores);
    assert ls == AnnotationHeader + ScoreBlocks(style, scores);
  }

  /** The lines of sequence `i` sit at lines `2 + 5 * i` to `6 + 5 * i` of the annotation
      file: its reference, a line graph row that splits back at its tabs into the
      graph's type, title, description and values, the threshold and colour lines, and
      a blank line. */
  lemma {:induction false} ScoreFileDecode(style: ScoreStyle, scores: seq<(string, seq<string>)>, i: nat)
    requires i < |scores|
    requires Cell(style.title) && Cell(style.description)
    requires forall k :: 0 <= k < |scores[i].1| ==> Cell(scores[i].1[k])
    ensures var ls := ScoreFileLines(style, scores);
      var g := ScoreGraph(style, scores[i].1);
      && ls[2 + 5 * i] == SequenceRef(scores[i].0)
      && Split(ls[3 + 5 * i], "\t") == ["LINE_GRAPH", style.title, style.description, ValuesText(scores[i].1)]
      && ls[4 + 5 * i] == GraphlineText(g, style.threshold)
      && ls[5 + 5 * i] == ColourText(g, style.colour)
      && ls[6 + 5 * i] == ""
  {
    var ls := ScoreFileLines(style, scores);
    var block := ScoreBlock(style, scores[i].0, scores[i].1);
    var g := ScoreGraph(style, scores[i].1);
    assert AnnotationRowLines(g, Some(style.threshold), Some(style.colour))
      == [RowText(g), GraphlineText(g, style.threshold), ColourText(g, style.colour)];
    assert block == [SequenceRef(scores[i].0), RowText(g), GraphlineText(g, style.threshold), ColourText(g, style.colour), ""];
    ScoreLinesAt(style, scores, i);
    assert ls[2 + 5 * i + 0] == block[0] && ls[2 + 5 * i + 1] == block[1] && ls[2 + 5 * i + 2] == block[2];
    assert ls[2 + 5 * i + 3] == block[3] && ls[2 + 5 * i + 4] == block[4];
    RowDecode(g);
  }

  /** Line `2 + 5 * i + k` of the file is line `k` of sequence `i`'s block. */
  lemma {:induction false} ScoreLinesAt(style: ScoreStyle, scores: seq<(string, seq<string>)>, i: nat)
    requires i < |scores|
    ensures forall k :: 0 <= k < 5 ==>
      ScoreFileLines(style, scores)[2 + 5 * i + k] == ScoreBlock(style, scores[i].0, scores[i].1)[k]
  {
    var blocks := ScoreBlocks(style, scores);
    ScoreBlocksAt(style, scores, i);
    forall k | 0 <= k < 5
      ensures ScoreFileLines(style, scores)[2 + 5 * i + k] == ScoreBlock(style, scores[i].0, scores[i].1)[k]
    {
      assert ScoreFileLines(style, scores)[2 + 5 * i + k] == blocks[5 * i + k];
    }
  }

  lemma {:induction false} ScoreBlocksAt(style: ScoreStyle, scores: seq<(string, seq<string>)>, i: nat)
    requires i < |scores|
    ensures forall k :: 0 <= k < 5 ==>
      ScoreBlocks(style, scores)[5 * i + k] == ScoreBlock(style, scores[i].0, scores[i].1)[k]
    decreases |scores|
  {
    var n := |scores| - 1;
    var front := ScoreBlocks(style, scores[..n]);
    var last := ScoreBlock(style, scores[n].0, scores[n].1);
    assert ScoreBlocks(style, scores) == front + last;
    if i < n {
      ScoreBlocksAt(style, scores[..n], i);
      assert scores[..n][i] == scores[i];
    }
  }

  /** Every region of the group has a start and an end. */
  predicate Paired(group: seq<Region>) {
    forall k :: 0 <= k < |group| ==> |group[k]| >= 2
  }

  predicate GroupsPaired(gs: seq<Group>) {
    forall g :: 0 <= g < |gs| ==> Paired(gs[g].0)
  }

  predicate BlocksPaired(blocks: seq<(string, seq<Group>)>) {
    forall b :: 0 <= b < |blocks| ==> GroupsPaired(blocks[b].1)
  }

  /** One feature row per region, all regions of the first group first. */
  function GroupLines(name: string, gs: seq<Group>): seq<string>
    requires GroupsPaired(gs)
  {
    if gs == [] then []
    else
      assert forall g :: 0 <= g < |gs| - 1 ==> gs[1..][g] == gs[g + 1];
      RowsBefore(gs[0].1, name, gs[0].2, gs[0].0, |gs[0].0|) + GroupLines(name, gs[1..])
  }

  /** Each sequence's rows, each followed by a blank line when the converter writes one. */
  function BlockLines(blocks: seq<(string, seq<Group>)>, blank: bool): seq<string>
    requires BlocksPaired(blocks)
  {
    if blocks == [] then []
    else
      assert forall b :: 0 <= b < |blocks| - 1 ==> blocks[1..][b] == blocks[b + 1];
      GroupLines(blocks[0].0, blocks[0].1) + (if blank then [""] else []) + BlockLines(blocks[1..], blank)
  }

  lemma {:induction false} GroupLinesSnoc(name: string, gs: seq<Group>)
    requires gs != [] && GroupsPaired(gs)
    ensures var (group, desc, ftype) := gs[|gs| - 1];
      GroupLines(name, gs) == GroupLines(name, gs[..|gs| - 1]) + RowsBefore(desc, name, ftype, group, |group|)
    decreases |gs|
  {
    var n := |gs| - 1;
    if n == 0 {
      assert gs[..0] == [];
    } else {
      assert forall g :: 0 <= g < n ==> gs[1..][g] == gs[g + 1];
      GroupLinesSnoc(name, gs[1..]);
      assert gs[1..][..n - 1] == gs[..n][1..];
      assert gs[..n][0] == gs[0];
    }
  }

  lemma {:induction false} BlockLinesSnoc(blocks: seq<(string, seq<Group>)>, blank: bool)
    requires blocks != [] && BlocksPaired(blocks)
    ensures var (name, gs) := blocks[|blocks| - 1];
      BlockLines(blocks, blank) == BlockLines(blocks[..|blocks| - 1], blank) + GroupLines(name, gs) + (if blank then [""] else [])
    decreases |blocks|
  {
    var n := |blocks| - 1;
    var bl: seq<string> := if blank then [""] else [];
    var (name, gs) := blocks[n];
    if n == 0 {
      assert blocks[..0] == [];
    } else {
      var rest := blocks[1..];
      var first := GroupLines(blocks[0].0, blocks[0].1) + bl;
      assert forall b :: 0 <= b < n ==> rest[b] == blocks[b + 1];
      assert BlockLines(blocks, blank) == first + BlockLines(rest, blank);
      BlockLinesSnoc(rest, blank);
      assert rest[n - 1] == (name, gs);
      assert BlockLines(rest, blank) == BlockLines(rest[..n - 1], blank) + GroupLines(name, gs) + bl;
      var init := blocks[..n];
      assert forall b :: 0 <= b < n ==> init[b] == blocks[b];
      assert rest[..n - 1] == init[1..];
      assert init[0] == blocks[0];
      assert BlockLines(init, blank) == first + BlockLines(init[1..], blank);
    }
  }

  /** The region rows get through exactly when every region has a start and an end,
      and then hold one row per region in order. */
  lemma {:induction false} GroupsRowsSpec(name: string, gs: seq<Group>)
    ensures GroupsRows(name, gs).done <==> GroupsPaired(gs)
    ensures GroupsPaired(gs) ==> GroupsRows(name, gs).lines == GroupLines(name, gs)
    decreases |gs|
  {
    if gs != [] {
      var init := gs[..|gs| - 1];
      var (group, desc, ftype) := gs[|gs| - 1];
      GroupsRowsSpec(name, init);
      RegionRowsShape(desc, name, ftype, group);
      assert forall g :: 0 <= g < |init| ==> init[g] == gs[g];
      if GroupsPaired(gs) {
        assert Paired(gs[|gs| - 1].0);
        GroupLinesSnoc(name, gs);
      } else if GroupsPaired(init) {
        assert !Paired(group);
      }
    }
  }

  /** The same for the loop over the sequences. */
  lemma {:induction false} FeatureBlocksSpec(blocks: seq<(string, seq<Group>)>, blank: bool)
    ensures FeatureBlocks(blocks, blank).done <==> BlocksPaired(blocks)
    ensures BlocksPaired(blocks) ==> FeatureBlocks(blocks, blank).lines == BlockLines(blocks, blank)
    decreases |blocks|
  {
    if blocks != [] {
      var init := blocks[..|blocks| - 1];
      var (name, gs) := blocks[|blocks| - 1];
      FeatureBlocksSpec(init, blank);
      GroupsRowsSpec(name, gs);
      assert forall b :: 0 <= b < |init| ==> init[b] == blocks[b];
      if BlocksPaired(blocks) {
        assert GroupsPaired(blocks[|blocks| - 1].1);
        BlockLinesSnoc(blocks, blank);
      } else if BlocksPaired(init) {
        assert !GroupsPaired(gs);
      }
    }
  }

  /** A features file is written to the end, `ENDGROUP` line included, exactly when
      every region has a start and an end; it then holds the header, the rows and the
      `ENDGROUP` line. */
  lemma {:induction false} FeatureFileSpec(header: seq<string>, blocks: seq<(string, seq<Group>)>, blank: bool, end: string)
    ensures FeatureFileLines(header, blocks, blank, end).done <==> BlocksPaired(blocks)
    ensures BlocksPaired(blocks) ==>
      FeatureFileLines(header, blocks, blank, end).lines == header + BlockLines(blocks, blank) + [end]
  {
    FeatureBlocksSpec(blocks, blank);
  }
}
