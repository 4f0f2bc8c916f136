/** The JRONN converter: `read_annotations` collects the `#method v1 v2 …` lines of the
    predictor's output into an ordered dictionary, and `print_annotations_file` writes
    one bar-graph annotation row per method. */
module Jronn {
  import opened Wrappers
  import opened Text
  import opened OrderedMaps
  import opened Streams
  import opened JalviewFormat

  // ---------------------------------------------------------------------------------
  // The line pattern `^#(\w+) ((?:-?\d+\.\d+ ?)+)$`

  /** `-?\d+\.\d+` matched in full. */
  predicate IsNumber(s: string) {
    var t := if s != [] && s[0] == '-' then s[1..] else s;
    var a := RunLength(t, IsDigit);
    1 <= a && a + 1 < |t| && t[a] == '.' && AllDigits(t[a + 1..])
  }

  /** The states of a deterministic automaton for `(?:-?\d+\.\d+ ?)+`. `Start(true)`
      follows a space that ended a repetition; `Frac1` follows the first fraction
      digit; `FracMore` follows two or more, where the pattern's backtracking may also
      have begun the integer part of the next number (`0.10.2` is `0.1` then `0.2`). */
  datatype NumbersState = Start(afterSpace: bool) | Sign | Int | Dot | Frac1 | FracMore | Fail

  function Step(st: NumbersState, c: char): NumbersState {
    match st
    case Start(_) => if c == '-' then Sign else if IsDigit(c) then Int else Fail
    case Sign => if IsDigit(c) then Int else Fail
    case Int => if IsDigit(c) then Int else if c == '.' then Dot else Fail
    case Dot => if IsDigit(c) then Frac1 else Fail
    case Frac1 =>
      if IsDigit(c) then FracMore else if c == '-' then Sign else if c == ' ' then Start(true) else Fail
    case FracMore =>
      if IsDigit(c) then FracMore else if c == '.' then Dot else if c == '-' then Sign
      else if c == ' ' then Start(true) else Fail
    case Fail => Fail
  }

  function Run(st: NumbersState, s: string): NumbersState
    decreases |s|
  {
    if s == [] then st else Run(Step(st, s[0]), s[1..])
  }

  predicate Accepting(st: NumbersState) { st == Start(true) || st == Frac1 || st == FracMore }

  /** `(?:-?\d+\.\d+ ?)+` matched in full. */
  predicate Chunks(g: string) { Accepting(Run(Start(false), g)) }

  lemma {:induction false} RunAppend(st: NumbersState, a: string, b: string)
    ensures Run(st, a + b) == Run(Run(st, a), b)
    decreases |a|
  {
    if a == [] {
      assert a + b == b;
    } else {
      assert (a + b)[1..] == a[1..] + b;
      RunAppend(Step(st, a[0]), a[1..], b);
    }
  }

  lemma {:induction false} RunDigits(st: NumbersState, d: string)
    requires st == Int || st == FracMore
    requires AllDigits(d)
    ensures Run(st, d) == st
    decreases |d|
  {
    if d != [] { RunDigits(st, d[1..]); }
  }

  /** A number read from the start of a repetition leaves the automaton in one of the
      fraction states. */
  lemma {:induction false} NumberRun(st: NumbersState, v: string)
    requires st.Start? && IsNumber(v)
    ensures Run(st, v) == Frac1 || Run(st, v) == FracMore
  {
    var t := if v[0] == '-' then v[1..] else v;
    var a := RunLength(t, IsDigit);
    var s1 := if v[0] == '-' then Sign else st;
    assert Run(st, v) == Run(s1, t);
    NumberText(t, a);
    DigitsDotRun(s1, t[..a], t[a + 1..]);
  }

  /** The integer digits, the dot and the fraction digits of a number without its sign. */
  lemma {:induction false} NumberText(t: string, a: nat)
    requires a == RunLength(t, IsDigit) && 1 <= a && a + 1 < |t| && t[a] == '.' && AllDigits(t[a + 1..])
    ensures t == t[..a] + ("." + t[a + 1..]) && t[..a] != [] && AllDigits(t[..a])
  {
    assert t[a..] == [t[a]] + t[a + 1..];
    assert t == t[..a] + t[a..];
  }

  /** Digits, a dot and digits, read after a sign or at the start of a repetition. */
  lemma {:induction false} DigitsDotRun(st: NumbersState, i: string, f: string)
    requires st == Sign || st.Start?
    requires i != [] && AllDigits(i) && f != [] && AllDigits(f)
    ensures Run(st, i + ("." + f)) == Frac1 || Run(st, i + ("." + f)) == FracMore
  {
    var rest := "." + f;
    assert (i + rest)[0] == i[0] && (i + rest)[1..] == i[1..] + rest;
    assert Run(st, i + rest) == Run(Int, i[1..] + rest);
    RunAppend(Int, i[1..], rest);
    RunDigits(Int, i[1..]);
    assert Run(Int, rest) == Run(Dot, f);
    FractionRun(f);
  }

  lemma {:induction false} FractionRun(d: string)
    requires d != [] && AllDigits(d)
    ensures Run(Dot, d) == Frac1 || Run(Dot, d) == FracMore
  {
    assert Run(Dot, d) == Run(Frac1, d[1..]);
    if |d| > 1 {
      assert Run(Frac1, d[1..]) == Run(FracMore, d[2..]);
      RunDigits(FracMore, d[2..]);
    }
  }

  /** Once the automaton fails it stays failed; any other end state means every
      character read was one a number group can hold. */
  lemma {:induction false} RunChars(st: NumbersState, s: string)
    requires Run(st, s) != Fail
    ensures forall i :: 0 <= i < |s| ==> NumberChar(s[i])
    decreases |s|
  {
    if s != [] {
      if !NumberChar(s[0]) {
        assert Step(st, s[0]) == Fail;
        FailStays(s[1..]);
      }
      RunChars(Step(st, s[0]), s[1..]);
      assert forall i :: 1 <= i < |s| ==> s[i] == s[1..][i - 1];
    }
  }

  lemma {:induction false} FailStays(s: string)
    ensures Run(Fail, s) == Fail
    decreases |s|
  {
    if s != [] { FailStays(s[1..]); }
  }

  /** The name and the values of one line, or None where `re.match` finds nothing (and
      the source then fails on `m.group`). `$` also matches before a final newline. */
  function ParseLine(line: string): (r: Option<(string, seq<string>)>)
    ensures r.Some? ==> r.value.0 != [] && forall i :: 0 <= i < |r.value.0| ==> IsWordChar(r.value.0[i])
  {
    if line == [] || line[0] != '#' then None
    else
      var body := line[1..];
      var n := RunLength(body, IsWordChar);
      if n == 0 || n == |body| || body[n] != ' ' then None
      else
        var g := ValueGroup(body[n + 1..]);
        if Chunks(g) then Some((body[..n], SplitWhitespace(g))) else None
  }

  /** The text the value group must match: `$` also matches before a final newline. */
  function ValueGroup(g0: string): string {
    if g0 != [] && g0[|g0| - 1] == '\n' then g0[..|g0| - 1] else g0
  }

  /** Numbers separated by single spaces match the value group. */
  lemma {:induction false} JoinedNumbersRun(st: NumbersState, vals: seq<string>)
    requires st.Start?
    requires vals != [] && forall i :: 0 <= i < |vals| ==> IsNumber(vals[i])
    ensures Accepting(Run(st, Join(" ", vals)))
    decreases |vals|
  {
    var v := vals[0];
    NumberRun(st, v);
    if |vals| > 1 {
      var rest := Join(" ", vals[1..]);
      assert Join(" ", vals) == v + (" " + rest);
      RunAppend(st, v, " " + rest);
      assert Run(Run(st, v), " " + rest) == Run(Start(true), rest);
      JoinedNumbersRun(Start(true), vals[1..]);
    }
  }

  lemma {:induction false} NumberNonEmpty(v: string)
    requires IsNumber(v)
    ensures v != [] && NoSpace(v) && Excludes(v, '\n')
  {
    var t := if v != [] && v[0] == '-' then v[1..] else v;
    var a := RunLength(t, IsDigit);
    forall i | 0 <= i < |v| ensures !IsSpace(v[i]) && v[i] != '\n' {
      if v[0] == '-' && i > 0 {
        assert v[i] == t[i - 1];
        if i - 1 > a { assert t[i - 1] == t[a + 1..][i - 1 - a - 1]; }
      } else if v[0] != '-' {
        if i > a { assert t[i] == t[a + 1..][i - a - 1]; }
      }
    }
  }

  /** A line `#name g` with a word as its name is parsed by matching `g` against the
      value group. */
  lemma {:induction false} ParseLineShape(name: string, g: string)
    requires name != [] && forall i :: 0 <= i < |name| ==> IsWordChar(name[i])
    ensures ParseLine("#" + name + " " + g + "\n") == if Chunks(g) then Some((name, SplitWhitespace(g))) else None
  {
    var hash, sp, nl := "#", " ", "\n";
    var rest := sp + g + nl;
    var line := hash + (name + rest);
    assert line == "#" + name + " " + g + "\n";
    var body := line[1..];
    assert body == name + rest;
    RunLengthStops(name, rest, IsWordChar);
    assert body[|name|] == ' ';
    assert body[..|name|] == name;
    var g0 := body[|name| + 1..];
    assert g0 == rest[1..];
    assert rest[1..] == g + nl;
    assert g0[..|g0| - 1] == g;
    ParseLineOf(line, name, g);
  }

  /** `ParseLine` on a line whose parts are known. */
  lemma {:induction false} ParseLineOf(line: string, name: string, g: string)
    requires line != [] && line[0] == '#' && 0 < |name| < |line| - 1
    requires RunLength(line[1..], IsWordChar) == |name| && line[1..][|name|] == ' '
    requires line[1..][..|name|] == name && ValueGroup(line[1..][|name| + 1..]) == g
    ensures ParseLine(line) == if Chunks(g) then Some((name, SplitWhitespace(g))) else None
  {
  }

  /** A line written as `#name v1 v2 …` with well-formed numbers yields the name and the
      values in order. */
  lemma {:induction false} LineRoundTrip(name: string, vals: seq<string>)
    requires name != [] && forall i :: 0 <= i < |name| ==> IsWordChar(name[i])
    requires vals != [] && forall i :: 0 <= i < |vals| ==> IsNumber(vals[i])
    ensures ParseLine("#" + name + " " + Join(" ", vals) + "\n") == Some((name, vals))
  {
    var g := Join(" ", vals);
    ParseLineShape(name, g);
    JoinedNumbersRun(Start(false), vals);
    forall i | 0 <= i < |vals| ensures vals[i] != "" && NoSpace(vals[i]) {
      NumberNonEmpty(vals[i]);
    }
    SplitWhitespaceJoin(vals, "");
    assert g + "" == g;
  }

  /** The characters a matched value group can hold. */
  predicate NumberChar(c: char) { IsDigit(c) || c == '-' || c == '.' || c == ' ' }

  lemma {:induction false} NumberChars(s: string)
    requires IsNumber(s)
    ensures forall i :: 0 <= i < |s| ==> NumberChar(s[i])
  {
    var t := if s != [] && s[0] == '-' then s[1..] else s;
    var a := RunLength(t, IsDigit);
    forall i | 0 <= i < |s| ensures NumberChar(s[i]) {
      var j := if s[0] == '-' then i - 1 else i;
      if j >= 0 {
        assert s[i] == t[j];
        if j > a { assert t[j] == t[a + 1..][j - a - 1]; }
      }
    }
  }

  /** What a matching line yields fits a tab-separated annotation row: the name is a
      cell, and so is every value, which holds no `|` or `,` either. */
  lemma {:induction false} ParsedLineCells(line: string)
    requires ParseLine(line).Some?
    ensures Cell(ParseLine(line).value.0)
    ensures forall i :: 0 <= i < |ParseLine(line).value.1| ==>
      var v := ParseLine(line).value.1[i];
      Cell(v) && Excludes(v, '|') && Excludes(v, ',')
  {
    var body := line[1..];
    var n := RunLength(body, IsWordChar);
    var g := ValueGroup(body[n + 1..]);
    assert ParseLine(line).value.1 == SplitWhitespace(g) && Chunks(g);
    ChunksCells(g);
  }

  /** The words of a matched value group are cells free of `|` and `,`. */
  lemma {:induction false} ChunksCells(g: string)
    requires Chunks(g)
    ensures forall i :: 0 <= i < |SplitWhitespace(g)| ==>
      var v := SplitWhitespace(g)[i];
      Cell(v) && Excludes(v, '|') && Excludes(v, ',')
  {
    RunChars(Start(false), g);
    SplitWhitespaceExcludes(g, '\t');
    SplitWhitespaceExcludes(g, '\n');
    SplitWhitespaceExcludes(g, '|');
    SplitWhitespaceExcludes(g, ',');
  }

  // ---------------------------------------------------------------------------------
  // read_annotations

  /** Method name to value strings, in first-appearance order. */
  type Annotations = seq<(string, seq<string>)>

  /** What one line is to `read_annotations`: a blank line it skips, a matching line,
      or a line on which `m.group` fails because nothing matched. */
  datatype LineKind = Blank | Entry(name: string, values: seq<string>) | Unmatched(text: string)

  function Classify(line: string): (k: LineKind)
    ensures k.Blank? <==> line == "\n"
    ensures k.Entry? ==> line != "\n" && ParseLine(line) == Some((k.name, k.values))
    ensures k.Unmatched? ==> line != "\n" && ParseLine(line).None? && k.text == line
  {
    if line == "\n" then Blank
    else match ParseLine(line)
      case None => Unmatched(line)
      case Some(e) => Entry(e.0, e.1)
  }

  function Kinds(lines: seq<string>): (ks: seq<LineKind>)
    ensures |ks| == |lines|
  {
    seq(|lines|, i requires 0 <= i < |lines| => Classify(lines[i]))
  }

  /** The source raises on the first unmatched line; `Err` carries that line. */
  datatype ReadError = NoMatch(line: string)

  /** The dictionary after the given lines: blank lines are skipped, a repeated method
      replaces the earlier values in the earlier place. */
  function Collect(ks: seq<LineKind>): (r: Result<Annotations, ReadError>)
    decreases |ks|
  {
    if ks == [] then Ok([])
    else
      var prev := Collect(ks[..|ks| - 1]);
      match ks[|ks| - 1]
      case Blank => prev
      case Unmatched(text) => if prev.Err? then prev else Err(NoMatch(text))
      case Entry(name, values) => if prev.Err? then prev else Ok(Put(prev.value, name, values))
  }

  /** A line that is neither blank nor a match of the pattern. */
  predicate Unparsable(line: string) {
    line != "\n" && ParseLine(line).None?
  }

  /** What `read_annotations` returns for the given lines, or the error it raises: it
      fails exactly when some line is unparsable, on the first such line, and otherwise
      returns a dictionary whose methods are distinct. */
  function ReadLines(lines: seq<string>): (r: Result<Annotations, ReadError>)
    ensures r.Err? <==> exists i :: 0 <= i < |lines| && Unparsable(lines[i])
    ensures r.Err? ==> exists i :: 0 <= i < |lines| && Unparsable(lines[i]) && r.error == NoMatch(lines[i])
                                   && forall j :: 0 <= j < i ==> !Unparsable(lines[j])
    ensures r.Ok? ==> DistinctKeys(r.value)
  {
    var ks := Kinds(lines);
    KindsBad(lines);
    ReadFailsIff(ks);
    if Collect(ks).Ok? then
      ReadKeysDistinct(ks);
      Collect(ks)
    else Collect(ks)
  }

  /** The unmatched lines of the classification are the unparsable lines. */
  lemma {:induction false} KindsBad(lines: seq<string>)
    ensures forall i :: 0 <= i < |lines| ==>
              (Bad(Kinds(lines), i) <==> Unparsable(lines[i])) && (Bad(Kinds(lines), i) ==> Kinds(lines)[i].text == lines[i])
  {
    forall i | 0 <= i < |lines|
      ensures (Bad(Kinds(lines), i) <==> Unparsable(lines[i])) && (Bad(Kinds(lines), i) ==> Kinds(lines)[i].text == lines[i])
    {
      assert Kinds(lines)[i] == Classify(lines[i]);
    }
  }

  /** `read_annotations(file)` over the lines still to be read. */
  method ReadAnnotations(file: LineReader) returns (r: Result<Annotations, ReadError>)
    requires file.Valid()
    modifies file
    ensures file.Valid()
    ensures r == ReadLines(old(file.Rest()))
  {
    ghost var start := file.pos;
    ghost var rest := file.Rest();
    var annotations: Annotations := [];
    while true
      invariant file.Valid() && start <= file.pos
      invariant Collect(Kinds(rest)[..file.pos - start]) == Ok(annotations)
      decreases |file.lines| - file.pos
    {
      ghost var k := file.pos - start;
      var next := file.Next();
      if next.None? {
        assert Kinds(rest)[..k] == Kinds(rest);
        return Ok(annotations);
      }
      var line := next.value;
      assert line == rest[k] && file.pos - start == k + 1;
      LoopStep(rest, k, annotations);
      if line == "\n" {
        continue;
      }
      var m := ParseLine(line);
      if m.None? {
        return Err(NoMatch(line));
      }
      annotations := Put(annotations, m.value.0, m.value.1);
    }
  }

  /** The loop body on line `k`: a blank line changes nothing, an unmatched one ends the
      read with its error, and a matching one assigns its method. */
  lemma {:induction false} LoopStep(lines: seq<string>, k: nat, a: Annotations)
    requires k < |lines| && Collect(Kinds(lines)[..k]) == Ok(a)
    ensures lines[k] == "\n" ==> Collect(Kinds(lines)[..k + 1]) == Ok(a)
    ensures lines[k] != "\n" && ParseLine(lines[k]).None? ==> ReadLines(lines) == Err(NoMatch(lines[k]))
    ensures lines[k] != "\n" && ParseLine(lines[k]).Some? ==>
      Collect(Kinds(lines)[..k + 1]) == Ok(Put(a, ParseLine(lines[k]).value.0, ParseLine(lines[k]).value.1))
  {
    var ks := Kinds(lines);
    assert ks[k] == Classify(lines[k]);
    CollectStep(ks, k);
    if lines[k] != "\n" && ParseLine(lines[k]).None? {
      ErrorStays(ks, k + 1);
    }
  }

  /** One more line of the loop: the entries of the lines before it, updated by its kind. */
  lemma {:induction false} CollectStep(ks: seq<LineKind>, k: nat)
    requires k < |ks|
    ensures Collect(ks[..k + 1]) == match ks[k]
      case Blank => Collect(ks[..k])
      case Unmatched(text) => if Collect(ks[..k]).Err? then Collect(ks[..k]) else Err(NoMatch(text))
      case Entry(name, values) =>
        if Collect(ks[..k]).Err? then Collect(ks[..k]) else Ok(Put(Collect(ks[..k]).value, name, values))
  {
    assert ks[..k + 1][..k] == ks[..k];
  }

  /** Once a prefix fails, the whole input fails the same way. */
  lemma {:induction false} ErrorStays(ks: seq<LineKind>, k: nat)
    requires k <= |ks| && Collect(ks[..k]).Err?
    ensures Collect(ks) == Collect(ks[..k])
    decreases |ks| - k
  {
    if k < |ks| {
      assert ks[..k + 1][..k] == ks[..k];
      ErrorStays(ks, k + 1);
    } else {
      assert ks[..k] == ks;
    }
  }

  // ---------------------------------------------------------------------------------
  // What read_annotations promises

  /** Line `i` is a matching line for method `name`. */
  predicate Names(ks: seq<LineKind>, i: int, name: string) {
    0 <= i < |ks| && ks[i].Entry? && ks[i].name == name
  }

  /** Some line names `name`. */
  predicate Named(ks: seq<LineKind>, name: string) {
    exists i :: 0 <= i < |ks| && Names(ks, i, name)
  }

  /** A line that makes `read_annotations` fail. */
  predicate Bad(ks: seq<LineKind>, i: int) {
    0 <= i < |ks| && ks[i].Unmatched?
  }

  /** Line `i` is the first bad line. */
  predicate FirstBad(ks: seq<LineKind>, i: int) {
    Bad(ks, i) && forall j :: 0 <= j < i ==> !Bad(ks, j)
  }

  /** Line `i` is the last line naming `name`. */
  predicate LastNames(ks: seq<LineKind>, i: int, name: string) {
    Names(ks, i, name) && forall j :: i < j < |ks| ==> !Names(ks, j, name)
  }

  /** The classification of line `i` is what the pattern says about it. */
  lemma {:induction false} KindOf(lines: seq<string>, i: nat, name: string)
    requires i < |lines|
    ensures Bad(Kinds(lines), i) <==> lines[i] != "\n" && ParseLine(lines[i]).None?
    ensures Names(Kinds(lines), i, name) <==> ParseLine(lines[i]).Some? && ParseLine(lines[i]).value.0 == name
  {
    assert Kinds(lines)[i] == Classify(lines[i]);
    if lines[i] == "\n" {
      assert ParseLine(lines[i]).None?;
    }
  }

  /** Reading fails exactly when some line is unmatched, and then on the first one. */
  lemma {:induction false} ReadFailsIff(ks: seq<LineKind>)
    ensures Collect(ks).Err? <==> exists i :: Bad(ks, i)
    ensures Collect(ks).Err? ==> exists i :: FirstBad(ks, i) && Collect(ks).error == NoMatch(ks[i].text)
    decreases |ks|
  {
    if ks != [] {
      var p := ks[..|ks| - 1];
      var last := |ks| - 1;
      ReadFailsIff(p);
      forall i | 0 <= i < |p| ensures Bad(p, i) == Bad(ks, i) {
        assert p[i] == ks[i];
      }
      if Collect(p).Err? {
        var i :| FirstBad(p, i) && Collect(p).error == NoMatch(p[i].text);
        assert FirstBad(ks, i) && p[i] == ks[i];
      } else if Bad(ks, last) {
        assert FirstBad(ks, last);
      } else {
        forall i | 0 <= i < |ks| ensures !Bad(ks, i) {
          if i < last { assert !Bad(p, i); }
        }
      }
    }
  }

  /** The values of the last line naming `name`, None when no line names it. */
  function LastValues(ks: seq<LineKind>, name: string): (r: Option<seq<string>>)
    decreases |ks|
  {
    if ks == [] then None
    else if Names(ks, |ks| - 1, name) then Some(ks[|ks| - 1].values)
    else LastValues(ks[..|ks| - 1], name)
  }

  /** LastValues finds a line naming the method exactly when one exists, and no later
      line names it. */
  lemma {:induction false} LastValuesSpec(ks: seq<LineKind>, name: string)
    ensures LastValues(ks, name).None? <==> forall i :: 0 <= i < |ks| ==> !Names(ks, i, name)
    ensures LastValues(ks, name).Some? ==>
      exists i :: LastNames(ks, i, name) && LastValues(ks, name).value == ks[i].values
    decreases |ks|
  {
    if ks != [] {
      var p := ks[..|ks| - 1];
      LastValuesSpec(p, name);
      forall i | 0 <= i < |p| ensures Names(p, i, name) == Names(ks, i, name) {
        assert p[i] == ks[i];
      }
      if Names(ks, |ks| - 1, name) {
        assert LastNames(ks, |ks| - 1, name);
      } else if LastValues(p, name).Some? {
        var i :| LastNames(p, i, name) && LastValues(p, name).value == p[i].values;
        assert LastNames(ks, i, name) && p[i] == ks[i];
      }
    }
  }

  /** After a successful read, each method maps to the values of its last line; a name
      no line carries is absent. */
  lemma {:induction false} ReadLastWins(ks: seq<LineKind>, name: string)
    requires Collect(ks).Ok?
    ensures Get(Collect(ks).value, name) == LastValues(ks, name)
    decreases |ks|
  {
    if ks != [] {
      var p := ks[..|ks| - 1];
      ReadLastWins(p, name);
      if ks[|ks| - 1].Entry? {
        var e := ks[|ks| - 1];
        PutGet(Collect(p).value, e.name, e.values, name);
      }
    }
  }

  /** Lines of a prefix name what the same lines of the whole input name. */
  lemma {:induction false} PrefixNames(ks: seq<LineKind>, n: nat)
    requires n <= |ks|
    ensures forall j, name :: Names(ks[..n], j, name) <==> 0 <= j < n && Names(ks, j, name)
  {
    assert forall j :: 0 <= j < n ==> ks[..n][j] == ks[j];
  }

  /** What a successful read does with its last line. */
  lemma {:induction false} CollectLast(ks: seq<LineKind>)
    requires ks != [] && Collect(ks).Ok?
    ensures var p := ks[..|ks| - 1];
      && Collect(p).Ok?
      && Collect(ks).value == (if ks[|ks| - 1].Entry? then Put(Collect(p).value, ks[|ks| - 1].name, ks[|ks| - 1].values) else Collect(p).value)
      && MapKeys(Collect(ks).value) ==
           if ks[|ks| - 1].Entry? && ks[|ks| - 1].name !in MapKeys(Collect(p).value)
           then MapKeys(Collect(p).value) + [ks[|ks| - 1].name] else MapKeys(Collect(p).value)
  {
    var p := ks[..|ks| - 1];
    if ks[|ks| - 1].Entry? {
      PutOrder(Collect(p).value, ks[|ks| - 1].name, ks[|ks| - 1].values);
    }
  }

  /** The first line naming `name`. */
  ghost function FirstLine(ks: seq<LineKind>, name: string): (r: nat)
    requires Named(ks, name)
    ensures Names(ks, r, name) && forall j :: 0 <= j < r ==> !Names(ks, j, name)
    decreases |ks|
  {
    var p := ks[..|ks| - 1];
    PrefixNames(ks, |ks| - 1);
    if forall j :: 0 <= j < |p| ==> !Names(p, j, name) then
      |ks| - 1
    else
      FirstLine(p, name)
  }

  lemma {:induction false} FirstLineUnique(ks: seq<LineKind>, name: string, f: nat)
    requires Names(ks, f, name) && forall j :: 0 <= j < f ==> !Names(ks, j, name)
    ensures FirstLine(ks, name) == f
  {
    var r := FirstLine(ks, name);
    assert r < f ==> !Names(ks, r, name);
    assert f < r ==> !Names(ks, f, name);
  }

  /** The first line naming `name` in a prefix that names it is its first line in the
      whole input. */
  lemma {:induction false} FirstLinePrefix(ks: seq<LineKind>, n: nat, name: string)
    requires n <= |ks| && Named(ks[..n], name)
    ensures Named(ks, name)
    ensures FirstLine(ks, name) == FirstLine(ks[..n], name)
  {
    PrefixNames(ks, n);
    var f := FirstLine(ks[..n], name);
    FirstLineUnique(ks, name, f);
  }

  /** The methods of a successful read are distinct. */
  lemma {:induction false} ReadKeysDistinct(ks: seq<LineKind>)
    requires Collect(ks).Ok?
    ensures DistinctKeys(Collect(ks).value)
    decreases |ks|
  {
    if ks != [] {
      var p := ks[..|ks| - 1];
      ReadKeysDistinct(p);
      if ks[|ks| - 1].Entry? {
        PutDistinct(Collect(p).value, ks[|ks| - 1].name, ks[|ks| - 1].values);
      }
    }
  }

  /** Every method of a successful read is named on some line. */
  lemma {:induction false} KeysNamed(ks: seq<LineKind>)
    requires Collect(ks).Ok?
    ensures var keys := MapKeys(Collect(ks).value);
      forall a :: 0 <= a < |keys| ==> Named(ks, keys[a])
    decreases |ks|
  {
    if ks != [] {
      var n := |ks| - 1;
      var p := ks[..n];
      CollectLast(ks);
      KeysNamed(p);
      PrefixNames(ks, n);
      var oldKeys := MapKeys(Collect(p).value);
      var keys := MapKeys(Collect(ks).value);
      assert keys == if ks[n].Entry? && ks[n].name !in oldKeys then oldKeys + [ks[n].name] else oldKeys;
      forall a | 0 <= a < |keys| ensures Named(ks, keys[a]) {
        if a < |oldKeys| {
          var i :| 0 <= i < n && Names(p, i, oldKeys[a]);
        } else {
          assert Names(ks, n, keys[a]);
        }
      }
    }
  }

  /** Every name on a matching line is a method of a successful read. */
  lemma {:induction false} NamedKeys(ks: seq<LineKind>)
    requires Collect(ks).Ok?
    ensures forall i :: 0 <= i < |ks| && ks[i].Entry? ==> ks[i].name in MapKeys(Collect(ks).value)
    decreases |ks|
  {
    if ks != [] {
      var n := |ks| - 1;
      var p := ks[..n];
      CollectLast(ks);
      NamedKeys(p);
      var m := Collect(p).value;
      var oldKeys := MapKeys(m);
      var keys := MapKeys(Collect(ks).value);
      if ks[n].Entry? {
        PutKeys(m, ks[n].name, ks[n].values);
      }
      assert forall x :: x in oldKeys ==> x in keys;
      forall i | 0 <= i < n && ks[i].Entry? ensures ks[i].name in keys {
        assert p[i] == ks[i];
      }
    }
  }

  /** The methods of a successful read come in the order of their first lines. */
  lemma {:induction false} ReadKeysOrder(ks: seq<LineKind>)
    requires Collect(ks).Ok?
    ensures var keys := MapKeys(Collect(ks).value);
      forall a, b :: 0 <= a < b < |keys| ==>
        Named(ks, keys[a]) && Named(ks, keys[b]) && FirstLine(ks, keys[a]) < FirstLine(ks, keys[b])
    decreases |ks|
  {
    if ks != [] {
      var n := |ks| - 1;
      var p := ks[..n];
      CollectLast(ks);
      ReadKeysOrder(p);
      NamedKeys(p);
      KeysNamed(p);
      var oldKeys := MapKeys(Collect(p).value);
      var keys := MapKeys(Collect(ks).value);
      var isNew := ks[n].Entry? && ks[n].name !in oldKeys;
      assert keys == if isNew then oldKeys + [ks[n].name] else oldKeys;
      if isNew {
        var name := ks[n].name;
        PrefixNames(ks, n);
        forall j | 0 <= j < n ensures !Names(ks, j, name) {
          assert p[j].Entry? ==> p[j].name in oldKeys;
        }
        FirstLineUnique(ks, name, n);
      }
      forall a, b | 0 <= a < b < |keys|
        ensures Named(ks, keys[a]) && Named(ks, keys[b]) && FirstLine(ks, keys[a]) < FirstLine(ks, keys[b])
      {
        var x := oldKeys[a];
        assert keys[a] == x && Named(p, x);
        FirstLinePrefix(ks, n, x);
        if b < |oldKeys| {
          var y := oldKeys[b];
          assert keys[b] == y && Named(p, y);
          FirstLinePrefix(ks, n, y);
        } else {
          assert Names(ks, n, keys[b]);
          assert FirstLine(p, x) < n;
        }
      }
    }
  }

  // ---------------------------------------------------------------------------------
  // print_annotations_file

  /** The bar graph of one method: the method name is both label and description. */
  function MethodGraph(name: string, values: seq<string>): Graph {
    Graph(BarGraph, name, name, values)
  }

  /** The rows written, one per method in order. */
  function AnnotationRows(annotations: Annotations): (r: seq<string>)
    ensures |r| == |annotations|
  {
    seq(|annotations|, i requires 0 <= i < |annotations| => RowText(MethodGraph(annotations[i].0, annotations[i].1)))
  }

  /** `print_annotations_file(annotations, file)`. */
  method PrintAnnotationsFile(annotations: Annotations, file: Sink)
    modifies file
    ensures file.text == old(file.text) + Printed(AnnotationFileLines(annotations))
  {
    ghost var t0 := file.text;
    WriteAnnotationHeader(file);
    ghost var rows := AnnotationRows(annotations);
    ghost var h := AnnotationHeader;
    assert rows[..0] == [] && h + [] == h;
    for i := 0 to |annotations|
      invariant file.text == t0 + Printed(h + rows[..i])
    {
      var (name, values) := annotations[i];
      PrintStep(t0, h + rows[..i], rows[i], file.text);
      PrintAnnotationRow(MethodGraph(name, values), None, None, file);
      assert Printed(AnnotationRowLines(MethodGraph(name, values), None, None)) == rows[i] + "\n" by {
        assert AnnotationRowLines(MethodGraph(name, values), None, None) == [rows[i]];
        assert [rows[i]][1..] == [];
      }
      assert h + rows[..i + 1] == (h + rows[..i]) + [rows[i]];
    }
    assert rows[..|annotations|] == rows;
  }

  /** Every line of the annotation file: the header, then one row per method. */
  function AnnotationFileLines(annotations: Annotations): (r: seq<string>)
    ensures |r| == 2 + |annotations| && r[..2] == AnnotationHeader
  {
    AnnotationHeader + AnnotationRows(annotations)
  }

  /** Name and values of an entry fit an annotation row. */
  predicate EntryCells(name: string, values: seq<string>) {
    Cell(name) && forall j :: 0 <= j < |values| ==> Cell(values[j])
  }

  predicate AllCells(ks: seq<LineKind>) {
    forall i :: 0 <= i < |ks| && ks[i].Entry? ==> EntryCells(ks[i].name, ks[i].values)
  }

  lemma {:induction false} KindsCells(lines: seq<string>)
    ensures AllCells(Kinds(lines))
  {
    var ks := Kinds(lines);
    forall i | 0 <= i < |ks| && ks[i].Entry? ensures EntryCells(ks[i].name, ks[i].values) {
      assert ks[i] == Classify(lines[i]);
      ParsedLineCells(lines[i]);
    }
  }

  /** Every entry of a successful read is fit for a row. */
  lemma {:induction false} ReadCells(ks: seq<LineKind>)
    requires AllCells(ks) && Collect(ks).Ok?
    ensures var a := Collect(ks).value;
      forall i :: 0 <= i < |a| ==> EntryCells(a[i].0, a[i].1)
    decreases |ks|
  {
    if ks != [] {
      var p := ks[..|ks| - 1];
      assert AllCells(p) by {
        assert forall i :: 0 <= i < |p| ==> p[i] == ks[i];
      }
      ReadCells(p);
      if ks[|ks| - 1].Entry? {
        var e := ks[|ks| - 1];
        var m := Collect(p).value;
        PutEntries(m, e.name, e.values);
        var a := Put(m, e.name, e.values);
        forall i | 0 <= i < |a| ensures EntryCells(a[i].0, a[i].1) {
          assert a[i] in a;
        }
      }
    }
  }

  /** Every entry after an assignment is the new one or an old one. */
  lemma {:induction false} PutEntries(m: Annotations, key: string, v: seq<string>)
    ensures forall e :: e in Put(m, key, v) ==> e == (key, v) || e in m
    decreases |m|
  {
    if m != [] && m[0].0 != key {
      PutEntries(m[1..], key, v);
    }
  }

  /** The file written from what `read_annotations` returned reads back as the two
      header lines, then one line per method, which splits at its tabs into
      `BAR_GRAPH`, the method twice, and the `v,v` pairs. */
  lemma {:induction false} WrittenRows(lines: seq<string>)
    requires ReadLines(lines).Ok?
    ensures var a := ReadLines(lines).value;
      var ls := AnnotationFileLines(a);
      && Lines(Printed(ls)) == seq(|ls|, i requires 0 <= i < |ls| => ls[i] + "\n")
      && forall i :: 0 <= i < |a| ==> Split(ls[i + 2], "\t") == ["BAR_GRAPH", a[i].0, a[i].0, ValuesText(a[i].1)]
  {
    var a := ReadLines(lines).value;
    var rows := AnnotationRows(a);
    var ls := AnnotationFileLines(a);
    KindsCells(lines);
    ReadCells(Kinds(lines));
    AnnotationHeaderPrinted();
    forall i | 0 <= i < |a| ensures Excludes(ls[i + 2], '\n')
      && Split(ls[i + 2], "\t") == ["BAR_GRAPH", a[i].0, a[i].0, ValuesText(a[i].1)]
    {
      var g := MethodGraph(a[i].0, a[i].1);
      assert ls[i + 2] == rows[i] == RowText(g);
      RowDecode(g);
      RowExcludesNewline(g);
    }
    forall i | 0 <= i < |ls| ensures Excludes(ls[i], '\n') {
      if i < 2 { assert ls[i] == AnnotationHeader[i]; } else { assert ls[(i - 2) + 2] == ls[i]; }
    }
    PrintedLines(ls);
  }
}
