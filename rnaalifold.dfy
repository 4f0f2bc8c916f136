/** The RNAalifold converter: `read_structures` reads the consensus alignment and the
    structures RNAalifold prints, `print_annotations` writes them, with the base pair
    contact probabilities of `read_alifold`, as a Jalview annotation file. */
module Rnaalifold {
  import opened Wrappers
  import opened Text
  import opened Streams
  import opened OrderedMaps
  import opened RnaPatterns
  import opened RnaContacts
  import JalviewFormat

  /** The `result` dict of `read_structures`: the alignment and the MFE structure with its
      energies are always there; the partition function structure comes with its
      ensemble energy followed by the frequency and diversity pairs read after it; the
      centroid and MEA structures come with their energies and their tagged fourth
      group (`d=…`, `MEA=…`). */
  datatype Structures = Structures(
    alignment: string,
    mfe: (string, Energy),
    partition: Option<(string, seq<string>)>,
    centroid: Option<(string, Energy, string)>,
    mea: Option<(string, Energy, string)>)

  datatype StructError =
    | AlignmentExpected      // "Alignment expected."
    | MfeLineIncomplete      // unpacking `split(None, 1)` into two names fails
    | MfeStructureExpected   // "MFE structure expected"
    | EnergiesExpected       // "Energies expected after mfe structure"
    | Unrecognised(line: string)
    | NoPartition            // `result['partition']` raising KeyError

  /** `file.readline()` at index `k`: "" once the file is exhausted. */
  function LineOr(lines: seq<string>, k: nat): string {
    if k < |lines| then lines[k] else ""
  }

  function Next(lines: seq<string>, k: nat): (n: nat)
    ensures n <= |lines| || n == k
  {
    if k < |lines| then k + 1 else k
  }

  /** The first two lines: the stripped alignment, then the MFE structure and its
      energies. */
  function Header(first: string, second: string): (r: Result<Structures, StructError>)
    ensures r.Ok? ==> r.value.alignment == Strip(first) && IsAlignment(r.value.alignment)
    ensures r.Ok? ==> IsStructure(r.value.mfe.0) && EnergyFloats(r.value.mfe.1)
    ensures r.Ok? ==> r.value.partition.None? && r.value.centroid.None? && r.value.mea.None?
    ensures !IsAlignment(Strip(first)) <==> r == Err(AlignmentExpected)
    ensures r.Ok? ==> var parts := SplitFirstWord(second);
      |parts| == 2 && MfeEnergy(parts[1]).Some? && r.value.mfe == (parts[0], MfeEnergy(parts[1]).value)
    ensures IsAlignment(Strip(first)) ==> var parts := SplitFirstWord(second);
      && (|parts| != 2 ==> r == Err(MfeLineIncomplete))
      && (|parts| == 2 && !IsStructure(parts[0]) ==> r == Err(MfeStructureExpected))
      && (|parts| == 2 && IsStructure(parts[0]) && MfeEnergy(parts[1]).None? ==> r == Err(EnergiesExpected))
    ensures IsAlignment(Strip(first)) ==> var parts := SplitFirstWord(second);
      r.Ok? <==> |parts| == 2 && IsStructure(parts[0]) && MfeEnergy(parts[1]).Some?
  {
    var alignment := Strip(first);
    if !IsAlignment(alignment) then Err(AlignmentExpected)
    else
      var parts := SplitFirstWord(second);
      if |parts| != 2 then Err(MfeLineIncomplete)
      else if !IsStructure(parts[0]) then Err(MfeStructureExpected)
      else
        match MfeEnergy(parts[1])
        case None => Err(EnergiesExpected)
        case Some(e) => Ok(Structures(alignment, (parts[0], e), None, None, None))
  }

  /** The length of the `structure_pat` match at the start of a line, 0 when none. */
  function StructRun(s: string): (n: nat)
    ensures n <= |s| && (n < |s| ==> !IsStructChar(s[n]))
    decreases |s|
  {
    if s != [] && IsStructChar(s[0]) then 1 + StructRun(s[1..]) else 0
  }

  lemma {:induction false} StructRunIsStructure(s: string)
    requires StructRun(s) > 0
    ensures IsStructure(s[..StructRun(s)])
    decreases |s|
  {
    var n := StructRun(s);
    if n > 1 {
      StructRunIsStructure(s[1..]);
      assert s[..n] == [s[0]] + s[1..][..n - 1];
    } else {
      assert s[..n] == [s[0]];
    }
  }

  lemma {:induction false} StructRunStops(w: string, rest: string)
    requires forall i :: 0 <= i < |w| ==> IsStructChar(w[i])
    requires rest == [] || !IsStructChar(rest[0])
    ensures StructRun(w + rest) == |w|
    decreases |w|
  {
    if w == [] {
      assert w + rest == rest;
    } else {
      assert (w + rest)[1..] == w[1..] + rest;
      StructRunStops(w[1..], rest);
    }
  }

  /** A structure line: the energy text after the structure and the one character that
      follows it, tried as a partition function, a centroid and an MEA energy in turn. */
  function StructureLine(acc: Structures, line: string, structure: string, energy: string): (r: Result<Structures, StructError>)
  {
    match EnsembleEnergy(energy)
    case Some(x) => Ok(acc.(partition := Some((structure, [x]))))
    case None =>
      match TaggedEnergy(energy, "d=")
      case Some((e, t)) => Ok(acc.(centroid := Some((structure, e, t))))
      case None =>
        match TaggedEnergy(energy, "MEA=")
        case Some((e, t)) => Ok(acc.(mea := Some((structure, e, t))))
        case None => Err(Unrecognised(line))
  }

  /** A frequency line: its two numbers appended to the partition function scores. */
  function FrequencyScores(acc: Structures, f: string, d: string): (r: Result<Structures, StructError>)
    ensures acc.partition.None? <==> r == Err(NoPartition)
    ensures r.Ok? ==> (r.value.partition.Some? && r.value.partition.value.0 == acc.partition.value.0
                       && r.value.partition.value.1 == acc.partition.value.1 + [f, d])
  {
    match acc.partition
    case None => Err(NoPartition)
    case Some((structure, scores)) => Ok(acc.(partition := Some((structure, scores + [f, d]))))
  }

  /** One round of the `for line in file` loop. Blank lines are skipped; a line that is
      neither a structure line nor a frequency line leaves the result as it was. */
  function Step(acc: Structures, line: string): Result<Structures, StructError> {
    if line == "\n" then Ok(acc)
    else
      var n := StructRun(line);
      if n > 0 then
        StructureLine(acc, line, line[..n], if n + 1 <= |line| then line[n + 1..] else "")
      else
        match Frequency(line)
        case Some((f, d)) => FrequencyScores(acc, f, d)
        case None => Ok(acc)
  }

  /** The loop over the remaining lines. */
  function Scan(acc: Structures, lines: seq<string>): Result<Structures, StructError>
    decreases |lines|
  {
    if lines == [] then Ok(acc)
    else
      var next :- Step(acc, lines[0]);
      Scan(next, lines[1..])
  }

  /** `read_structures` on the lines from index `p` on. Whatever it returns has the
      shapes its patterns check, and the alignment of its first line. */
  function ReadStructuresFrom(lines: seq<string>, p: nat): (r: Result<Structures, StructError>)
    requires p <= |lines|
    ensures !IsAlignment(Strip(LineOr(lines, p))) ==> r == Err(AlignmentExpected)
    ensures r.Ok? ==> Valid(r.value) && r.value.alignment == Strip(LineOr(lines, p))
    ensures var h := Header(LineOr(lines, p), LineOr(lines, Next(lines, p)));
      && (h.Err? ==> r == Err(h.error))
      && (r.Ok? ==> h.Ok? && r.value.mfe == h.value.mfe)
  {
    var q := Next(lines, p);
    var acc :- Header(LineOr(lines, p), LineOr(lines, q));
    var rest := lines[Next(lines, q)..];
    if Scan(acc, rest).Ok? then
      ScanValid(acc, rest);
      Scan(acc, rest)
    else Scan(acc, rest)
  }

  /** `read_structures`: the two header lines, then the `for line in file` loop. */
  method ReadStructures(file: LineReader) returns (r: Result<Structures, StructError>)
    requires file.Valid()
    modifies file
    ensures file.Valid()
    ensures r == ReadStructuresFrom(file.lines, old(file.pos))
  {
    ghost var p := file.pos;
    var first := file.ReadLine();
    var second := file.ReadLine();
    assert first == LineOr(file.lines, p) && second == LineOr(file.lines, Next(file.lines, p));
    assert file.pos == Next(file.lines, Next(file.lines, p));
    var header := Header(first, second);
    if header.Err? {
      return Err(header.error);
    }
    r := ScanLines(file, header.value);
  }

  /** The `for line in file` loop, from the structures the header gave. */
  method ScanLines(file: LineReader, acc: Structures) returns (r: Result<Structures, StructError>)
    requires file.Valid()
    modifies file
    ensures file.Valid()
    ensures r == Scan(acc, file.lines[old(file.pos)..])
  {
    var result := acc;
    ghost var goal := Scan(acc, file.lines[file.pos..]);
    ghost var rest := file.lines[file.pos..];
    var line := file.Next();
    while line.Some?
      invariant file.Valid()
      invariant line.Some? ==> rest != [] && line.value == rest[0] && file.lines[file.pos..] == rest[1..]
      invariant line.None? ==> rest == []
      invariant Scan(result, rest) == goal
      decreases |rest|
    {
      var next := Step(result, line.value);
      if next.Err? {
        ScanErr(result, rest, next.error);
        return Err(next.error);
      }
      ScanOk(result, rest, next.value);
      result := next.value;
      rest := rest[1..];
      line := file.Next();
    }
    return Ok(result);
  }

  /** A line the loop accepts moves from the lines still to scan to the result. */
  lemma {:induction false} ScanOk(acc: Structures, rest: seq<string>, next: Structures)
    requires rest != [] && Step(acc, rest[0]) == Ok(next)
    ensures Scan(acc, rest) == Scan(next, rest[1..])
  {
  }

  /** A line the loop rejects ends it with that line's error. */
  lemma {:induction false} ScanErr(acc: Structures, rest: seq<string>, e: StructError)
    requires rest != [] && Step(acc, rest[0]) == Err(e)
    ensures Scan(acc, rest) == Err(e)
  {
  }

  // ---------------------------------------------------------------------------------
  // What a successful read holds

  predicate AllFloats(xs: seq<string>) { forall k :: 0 <= k < |xs| ==> IsFloat(xs[k]) }

  /** A tagged fourth group: the tag and a number. */
  predicate Tagged(t: string, tag: string) { tag <= t && IsFloat(t[|tag|..]) }

  predicate PartitionValid(part: (string, seq<string>)) {
    IsStructure(part.0) && AllFloats(part.1) && |part.1| % 2 == 1
  }

  predicate TaggedValid(s: (string, Energy, string), tag: string) {
    IsStructure(s.0) && EnergyFloats(s.1) && Tagged(s.2, tag)
  }

  /** The shapes the patterns let through: an alignment, structures, numbers, and an
      odd number of partition function scores (the ensemble energy, then pairs). */
  predicate Valid(d: Structures) {
    && IsAlignment(d.alignment) && IsStructure(d.mfe.0) && EnergyFloats(d.mfe.1)
    && (d.partition.Some? ==> PartitionValid(d.partition.value))
    && (d.centroid.Some? ==> TaggedValid(d.centroid.value, "d="))
    && (d.mea.Some? ==> TaggedValid(d.mea.value, "MEA="))
  }

  lemma {:induction false} StructureLineValid(acc: Structures, line: string, structure: string, energy: string)
    requires Valid(acc) && IsStructure(structure) && StructureLine(acc, line, structure, energy).Ok?
    ensures var r := StructureLine(acc, line, structure, energy).value;
      Valid(r) && r.alignment == acc.alignment && r.mfe == acc.mfe
  {
    if EnsembleEnergy(energy).Some? {
      PartitionSetValid(acc, structure, EnsembleEnergy(energy).value);
    } else if TaggedEnergy(energy, "d=").Some? {
      var (e, t) := TaggedEnergy(energy, "d=").value;
      CentroidSetValid(acc, structure, e, t);
    } else {
      var (e, t) := TaggedEnergy(energy, "MEA=").value;
      MeaSetValid(acc, structure, e, t);
    }
  }

  lemma {:induction false} PartitionSetValid(acc: Structures, structure: string, x: string)
    requires Valid(acc) && IsStructure(structure) && IsFloat(x)
    ensures Valid(acc.(partition := Some((structure, [x]))))
  {
  }

  lemma {:induction false} CentroidSetValid(acc: Structures, structure: string, e: Energy, t: string)
    requires Valid(acc) && IsStructure(structure) && EnergyFloats(e) && Tagged(t, "d=")
    ensures Valid(acc.(centroid := Some((structure, e, t))))
  {
  }

  lemma {:induction false} MeaSetValid(acc: Structures, structure: string, e: Energy, t: string)
    requires Valid(acc) && IsStructure(structure) && EnergyFloats(e) && Tagged(t, "MEA=")
    ensures Valid(acc.(mea := Some((structure, e, t))))
  {
  }

  lemma {:induction false} FrequencyValid(acc: Structures, f: string, d: string)
    requires Valid(acc) && IsFloat(f) && IsFloat(d) && FrequencyScores(acc, f, d).Ok?
    ensures var r := FrequencyScores(acc, f, d).value;
      Valid(r) && r.alignment == acc.alignment && r.mfe == acc.mfe
  {
    var scores := acc.partition.value.1;
    var s2 := scores + [f, d];
    forall k | 0 <= k < |s2| ensures IsFloat(s2[k]) {
      if k < |scores| { assert s2[k] == scores[k]; }
    }
  }

  lemma {:induction false} StepValid(acc: Structures, line: string)
    requires Valid(acc) && Step(acc, line).Ok?
    ensures Valid(Step(acc, line).value)
    ensures Step(acc, line).value.alignment == acc.alignment && Step(acc, line).value.mfe == acc.mfe
  {
    var n := StructRun(line);
    if line != "\n" {
      if n > 0 {
        StructRunIsStructure(line);
        StructureLineValid(acc, line, line[..n], if n + 1 <= |line| then line[n + 1..] else "");
      } else if Frequency(line).Some? {
        var (f, d) := Frequency(line).value;
        FrequencyValid(acc, f, d);
      }
    }
  }

  lemma {:induction false} ScanValid(acc: Structures, lines: seq<string>)
    requires Valid(acc) && Scan(acc, lines).Ok?
    ensures Valid(Scan(acc, lines).value)
    ensures Scan(acc, lines).value.alignment == acc.alignment && Scan(acc, lines).value.mfe == acc.mfe
    decreases |lines|
  {
    if lines != [] {
      StepValid(acc, lines[0]);
      ScanValid(Step(acc, lines[0]).value, lines[1..]);
    }
  }

  // ---------------------------------------------------------------------------------
  // Lines as RNAalifold writes them, and how each one is read

  /** A structure line: the structure, one space and the energy text. */
  function StructureText(structure: string, energy: string): string {
    structure + (" " + (energy + "\n"))
  }

  /** The structure and the text after the space are what the loop sees in a line the
      structure starts. */
  lemma {:induction false} StructureSplit(structure: string, energy: string)
    requires IsStructure(structure)
    ensures var line := StructureText(structure, energy);
      && line != "\n" && StructRun(line) == |structure| && line[..|structure|] == structure
      && line[|structure| + 1..] == energy + "\n"
  {
    var line := StructureText(structure, energy);
    assert !IsStructChar(' ');
    StructRunStops(structure, " " + (energy + "\n"));
    assert line[..|structure|] == structure;
    assert line[|structure| + 1..] == energy + "\n";
    assert line[0] == structure[0] && structure[0] != '\n';
  }

  /** The first two lines as RNAalifold writes them read back as the alignment and the
      MFE structure with its energies, and nothing else set. */
  lemma {:induction false} HeaderRoundTrip(first: string, structure: string, e: Energy)
    requires IsAlignment(Strip(first)) && IsStructure(structure) && EnergyFloats(e)
    ensures Header(first, StructureText(structure, MfeText(e)))
         == Ok(Structures(Strip(first), (structure, e), None, None, None))
  {
    var rest := MfeText(e) + "\n";
    assert StructureText(structure, MfeText(e)) == structure + (" " + rest);
    assert NoSpace(structure) by {
      forall i | 0 <= i < |structure| ensures !IsSpace(structure[i]) {
        assert IsStructChar(structure[i]);
      }
    }
    assert rest[0] == '(';
    SplitFirstWordOf(structure, rest);
    MfeRoundTrip(e);
  }

  lemma {:induction false} PartitionLine(acc: Structures, structure: string, x: string)
    requires IsStructure(structure) && IsFloat(x)
    ensures Step(acc, StructureText(structure, EnsembleText(x))) == Ok(acc.(partition := Some((structure, [x]))))
  {
    var line := StructureText(structure, EnsembleText(x));
    StructureSplit(structure, EnsembleText(x));
    EnsembleRoundTrip(x);
    assert Step(acc, line) == StructureLine(acc, line, structure, EnsembleText(x) + "\n");
  }

  /** A centroid line: its energies and `d=` with the distance. */
  lemma {:induction false} CentroidLine(acc: Structures, structure: string, e: Energy, x: string)
    requires IsStructure(structure) && EnergyFloats(e) && IsFloat(x)
    ensures Step(acc, StructureText(structure, TaggedText(e, "d=", x)))
         == Ok(acc.(centroid := Some((structure, e, "d=" + x))))
  {
    var t := TaggedText(e, "d=", x);
    StructureSplit(structure, t);
    TaggedRoundTrip(e, "d=", x, "\n");
    assert TaggedText(e, "d=", x)[0] == '{' && !('{' == '[');
    EnsembleNotTagged(t);
  }

  /** An MEA line is neither a partition function line nor a centroid line. */
  lemma {:induction false} MeaLine(acc: Structures, structure: string, e: Energy, x: string)
    requires IsStructure(structure) && EnergyFloats(e) && IsFloat(x)
    ensures Step(acc, StructureText(structure, TaggedText(e, "MEA=", x)))
         == Ok(acc.(mea := Some((structure, e, "MEA=" + x))))
  {
    var t := TaggedText(e, "MEA=", x);
    StructureSplit(structure, t);
    TaggedRoundTrip(e, "MEA=", x, "\n");
    EnsembleNotTagged(t);
    NotCentroid(e, x);
  }

  lemma {:induction false} EnsembleNotTagged(t: string)
    requires t != [] && t[0] == '{'
    ensures EnsembleEnergy(t + "\n") == None
  {
    assert (t + "\n")[0] == '{';
  }

  /** After the energies of an MEA line comes `M`, not `d`. */
  lemma {:induction false} NotCentroid(e: Energy, x: string)
    requires EnergyFloats(e) && IsFloat(x)
    ensures TaggedEnergy(TaggedText(e, "MEA=", x) + "\n", "d=") == None
  {
    var after := "MEA=" + (x + ("}" + "\n"));
    var s := TaggedText(e, "MEA=", x) + "\n";
    assert s == "{" + (EnergyText(e) + (" " + after)) by {
      AppendAssoc("{", EnergyText(e) + (" " + ("MEA=" + (x + "}"))), "\n");
      AppendAssoc(EnergyText(e), " " + ("MEA=" + (x + "}")), "\n");
      AppendAssoc(" ", "MEA=" + (x + "}"), "\n");
      AppendAssoc("MEA=", x + "}", "\n");
      AppendAssoc(x, "}", "\n");
    }
    assert (" " + after)[0] == ' ';
    EnergyRoundTrip(e, " " + after);
    assert after[0] == 'M';
    BlankOne(after);
    assert s[1..] == EnergyText(e) + (" " + after);
    assert Char(s, '{') == Some(s[1..]);
    assert EnergySum(s[1..]) == Some((e, " " + after));
    assert Blanks(" " + after) == after;
    assert !("d=" <= after);
    assert Word(after, "d=") == None;
  }

  /** A frequency line appends exactly its two numbers to the partition function scores,
      and fails where no partition function line came before it. */
  lemma {:induction false} FrequencyStep(acc: Structures, f: string, d: string)
    requires IsFloat(f) && IsFloat(d)
    ensures Step(acc, FrequencyLine(f, d)) == FrequencyScores(acc, f, d)
  {
    var line := FrequencyLine(f, d);
    FrequencyRoundTrip(f, d);
    assert line[0] == ' ' && !IsStructChar(' ');
    assert line != "\n" by { assert |line| > 1; }
  }

  /** A blank line changes nothing. */
  lemma {:induction false} BlankStep(acc: Structures)
    ensures Step(acc, "\n") == Ok(acc)
  {
  }

  /** A structure line whose energies match none of the three patterns is an error. */
  lemma {:induction false} UnrecognisedStep(acc: Structures, structure: string, energy: string)
    requires IsStructure(structure)
    requires EnsembleEnergy(energy + "\n").None? && TaggedEnergy(energy + "\n", "d=").None?
    requires TaggedEnergy(energy + "\n", "MEA=").None?
    ensures Step(acc, StructureText(structure, energy)) == Err(Unrecognised(StructureText(structure, energy)))
  {
    StructureSplit(structure, energy);
    StepOfStructure(acc, StructureText(structure, energy), structure, energy + "\n");
  }

  /** The loop hands a line the structure starts to `StructureLine`. */
  lemma {:induction false} StepOfStructure(acc: Structures, line: string, structure: string, rest: string)
    requires line != "\n" && structure != [] && StructRun(line) == |structure| && |structure| + 1 <= |line|
    requires line[..|structure|] == structure && line[|structure| + 1..] == rest
    ensures Step(acc, line) == StructureLine(acc, line, structure, rest)
  {
    var n := StructRun(line);
    assert n > 0 && line[..n] == structure;
    assert (if n + 1 <= |line| then line[n + 1..] else "") == rest;
  }

  // ---------------------------------------------------------------------------------
  // `structure_to_annotations`

  /** `S,c` for a paired or other character, `,.` for an unpaired one. */
  function Token(c: char): (t: string)
    ensures |t| >= 2 && t[|t| - 1] == c && t[|t| - 2] == ',' && (t[0] == 'S' <==> c != '.')
  {
    if c != '.' then "S," + [c] else ",."
  }

  function Tokens(structure: string): (r: seq<string>)
    ensures |r| == |structure| && forall k :: 0 <= k < |r| ==> r[k] == Token(structure[k])
  {
    seq(|structure|, k requires 0 <= k < |structure| => Token(structure[k]))
  }

  /** `structure_to_annotations`: one token per column, joined by `|`; a structure without
      `|` reads back from its annotations. */
  function StructureToAnnotations(structure: string): (r: string)
    ensures Excludes(structure, '|') ==> AnnotatedStructure(r) == structure
  {
    if Excludes(structure, '|') then
      JoinedTokensRoundTrip(structure);
      Join("|", Tokens(structure))
    else Join("|", Tokens(structure))
  }

  /** The structure the annotations show: the last character of each `|`-separated token. */
  function AnnotatedStructure(annotations: string): string {
    Lasts(Split(annotations, "|"))
  }

  function Lasts(tokens: seq<string>): (r: string)
    ensures |r| <= |tokens|
  {
    if tokens == [] then ""
    else (if tokens[0] == "" then "" else [tokens[0][|tokens[0]| - 1]]) + Lasts(tokens[1..])
  }

  lemma {:induction false} LastsTokens(ts: seq<string>, s: string)
    requires |ts| == |s| && forall k :: 0 <= k < |ts| ==> ts[k] == Token(s[k])
    ensures Lasts(ts) == s
    decreases |s|
  {
    if s != [] {
      var t := Token(s[0]);
      assert ts[0] == t;
      assert (if t == "" then "" else [t[|t| - 1]]) == [s[0]];
      assert forall k :: 0 <= k < |ts| - 1 ==> ts[1..][k] == Token(s[1..][k]) by {
        forall k | 0 <= k < |ts| - 1 ensures ts[1..][k] == Token(s[1..][k]) {
          assert ts[1..][k] == ts[k + 1];
        }
      }
      LastsTokens(ts[1..], s[1..]);
      assert s == [s[0]] + s[1..];
    }
  }

  /** The tokens joined by `|` give back the structure when it holds no `|`. */
  lemma {:induction false} JoinedTokensRoundTrip(structure: string)
    requires Excludes(structure, '|')
    ensures AnnotatedStructure(Join("|", Tokens(structure))) == structure
  {
    var ts := Tokens(structure);
    if structure == [] {
      assert Split("", "|") == [""];
      assert Lasts([""]) == "" + Lasts([]);
    } else {
      forall k | 0 <= k < |ts| ensures Excludes(ts[k], '|') {
        assert ts[k] == Token(structure[k]) && structure[k] != '|';
      }
      SplitJoin(ts, "|");
      LastsTokens(ts, structure);
    }
  }

  // ---------------------------------------------------------------------------------
  // `print_annotations`

  /** The data dict: the structures and, with `--alifold`, the contacts. */
  datatype Data = Data(structures: Structures, contacts: Option<Contacts>)

  datatype PrintError =
    | NoTopContact(column: int)  // `contacts[i][0]` raising IndexError on an empty list
    | ScoreCount(count: nat)     // `%` raising TypeError: three partition scores expected

  /** `'%.1f' % p`, formatting a probability. */
  type Fixed1 = real -> string

  /** One contact in a tooltip: `'%i->%i: %.1f%%'`. */
  function ContactText(c: Contact, fmt: Fixed1): string {
    IntToString(c.i) + "->" + IntToString(c.j) + ": " + fmt(c.p) + "%"
  }

  function ContactTexts(l: seq<Contact>, fmt: Fixed1): (r: seq<string>)
    ensures |r| == |l| && forall k :: 0 <= k < |l| ==> r[k] == ContactText(l[k], fmt)
  {
    seq(|l|, k requires 0 <= k < |l| => ContactText(l[k], fmt))
  }

  /** The graph entry of the 1-based column `i` holding `c`: the probability of its first
      contact, the character and the tooltip listing all of them, or 0.0 and `No data`
      where the column has no contacts. */
  function Entry(contacts: Contacts, i: int, c: char, fmt: Fixed1): Result<string, PrintError> {
    match Get(contacts, i)
    case None => Ok(fmt(0.0) + "," + [c] + "," + "No data")
    case Some(l) =>
      if l == [] then Err(NoTopContact(i))
      else Ok(fmt(l[0].p) + "," + [c] + "," + Join("; ", ContactTexts(l, fmt)))
  }

  /** The entries of the first `n` columns. */
  function Entries(structure: string, contacts: Contacts, fmt: Fixed1, n: nat): Result<seq<string>, PrintError>
    requires n <= |structure|
  {
    if n == 0 then Ok([])
    else
      var init :- Entries(structure, contacts, fmt, n - 1);
      var e :- Entry(contacts, n, structure[n - 1], fmt);
      Ok(init + [e])
  }

  /** The `for i, char in enumerate(structure)` loop. */
  method ContactGraph(structure: string, contacts: Contacts, fmt: Fixed1) returns (r: Result<seq<string>, PrintError>)
    ensures r == Entries(structure, contacts, fmt, |structure|)
  {
    var graph: seq<string> := [];
    for k := 0 to |structure|
      invariant Entries(structure, contacts, fmt, k) == Ok(graph)
    {
      var i := k + 1;
      var entry := Entry(contacts, i, structure[k], fmt);
      if entry.Err? {
        EntriesFail(structure, contacts, fmt, i, |structure|);
        return Err(entry.error);
      }
      graph := graph + [entry.value];
    }
    return Ok(graph);
  }

  /** An entry that fails makes every longer list of entries fail, with the first
      failure's error. */
  lemma {:induction false} EntriesFail(structure: string, contacts: Contacts, fmt: Fixed1, i: nat, n: nat)
    requires 1 <= i <= n <= |structure|
    requires Entries(structure, contacts, fmt, i - 1).Ok? && Entry(contacts, i, structure[i - 1], fmt).Err?
    ensures Entries(structure, contacts, fmt, n) == Err(Entry(contacts, i, structure[i - 1], fmt).error)
    decreases n
  {
    if n > i {
      EntriesFail(structure, contacts, fmt, i, n - 1);
    }
  }

  /** One entry per column, each looked up by its 1-based index, when every column that
      is present has a contact: the highest probability first, as `read_alifold` sorts
      them. */
  lemma {:induction false} EntriesShape(structure: string, contacts: Contacts, fmt: Fixed1, n: nat)
    requires n <= |structure|
    requires forall k :: 1 <= k <= n ==> Get(contacts, k) != Some([])
    ensures Entries(structure, contacts, fmt, n).Ok?
    ensures var es := Entries(structure, contacts, fmt, n).value;
      |es| == n && forall k :: 0 <= k < n ==> Ok(es[k]) == Entry(contacts, k + 1, structure[k], fmt)
    decreases n
  {
    if n > 0 {
      EntriesShape(structure, contacts, fmt, n - 1);
      var init := Entries(structure, contacts, fmt, n - 1).value;
      assert Get(contacts, n) != Some([]);
      var e := Entry(contacts, n, structure[n - 1], fmt).value;
      var es := init + [e];
      assert Entries(structure, contacts, fmt, n) == Ok(es);
      forall k | 0 <= k < n ensures Ok(es[k]) == Entry(contacts, k + 1, structure[k], fmt) {
        if k < n - 1 {
          assert es[k] == init[k];
        }
      }
    }
  }

  /** The four columns `print(…, sep='\t')` writes. */
  function Columns(kind: JalviewFormat.GraphType, title: string, description: string, values: string): string {
    Join("\t", [JalviewFormat.TypeName(kind), title, description, values])
  }

  function ConsensusRow(alignment: string): string {
    Columns(JalviewFormat.NoGraph, "RNAalifold Consensus", "Consensus alignment produced by RNAalifold",
            Join("|", seq(|alignment|, k requires 0 <= k < |alignment| => [alignment[k]])))
  }

  function MfeRow(mfe: (string, Energy)): string {
    var e := mfe.1;
    Columns(JalviewFormat.NoGraph, "MFE structure",
            "Minimum free energy structure. Energy: " + e.total + " = " + e.free + " + " + e.covariance,
            StructureToAnnotations(mfe.0))
  }

  function ContactRow(scores: seq<string>, graph: seq<string>): string
    requires |scores| == 3
  {
    Columns(JalviewFormat.BarGraph, "Contact Probabilities",
            "Base Pair Contact Probabilities. " + "Energy of Ensemble: " + scores[0] + ", frequency: "
              + scores[1] + ", diversity: " + scores[2] + ".",
            Join("|", graph))
  }

  function CentroidRow(c: (string, Energy, string)): string {
    var e := c.1;
    Columns(JalviewFormat.NoGraph, "Centroid Structure",
            "Centroid Structure. Energy: " + e.total + " = " + e.free + " + " + e.covariance + ", " + c.2,
            StructureToAnnotations(c.0))
  }

  function MeaRow(m: (string, Energy, string)): string {
    var e := m.1;
    Columns(JalviewFormat.NoGraph, "MEA Structure",
            "Maximum Expected Accuracy Values. " + e.total + " = " + e.free + " + " + e.covariance + ", " + m.2,
            StructureToAnnotations(m.0))
  }

  const Props := "scaletofit=true\tshowalllabs=true\tcentrelabs=false"

  function RowProperties(title: string): string { "ROWPROPERTIES\t" + title + "\t" + Props }

  /** The lines written, and the error that stopped the writer, if any. */
  datatype Output = Output(lines: seq<string>, error: Option<PrintError>)

  function Opt<T>(o: Option<T>, f: T -> string): seq<string> {
    if o.Some? then [f(o.value)] else []
  }

  /** The annotation header, the consensus row and the MFE row, written first. */
  function HeadLines(d: Structures): seq<string> {
    JalviewFormat.AnnotationHeader + [ConsensusRow(d.alignment), MfeRow(d.mfe)]
  }

  /** The contact row, when both the partition function structure and the contacts are
      there, or the error that stops the writer before it. */
  function ContactPart(data: Data, fmt: Fixed1): (r: Result<seq<string>, PrintError>)
    ensures r.Ok? ==> |r.value| == (if data.structures.partition.Some? && data.contacts.Some? then 1 else 0)
  {
    var d := data.structures;
    if d.partition.Some? && data.contacts.Some? then
      var structure, scores := d.partition.value.0, d.partition.value.1;
      match Entries(structure, data.contacts.value, fmt, |structure|)
      case Err(e) => Err(e)
      case Ok(graph) =>
        if |scores| != 3 then Err(ScoreCount(|scores|)) else Ok([ContactRow(scores, graph)])
    else Ok([])
  }

  /** The row properties of the MFE, centroid and MEA rows. */
  function PropertyLines(d: Structures): seq<string> {
    [RowProperties("MFE Structure")]
      + (if d.centroid.Some? then [RowProperties("Centroid Structure")] else [])
      + (if d.mea.Some? then [RowProperties("MEA Structure")] else [])
  }

  /** The closing part: the structure rows, the blank line `file.write('\n')` ends, and
      the row properties. */
  function Trailer(d: Structures): seq<string> {
    Opt(d.centroid, CentroidRow) + Opt(d.mea, MeaRow) + [""] + PropertyLines(d)
  }

  /** Everything `print_annotations` writes: the header, consensus and MFE rows always
      come first, and an error in the contact row stops the writer right after them. */
  function AnnotationOutput(data: Data, fmt: Fixed1): (r: Output)
    ensures |r.lines| >= 4 && r.lines[..4] == HeadLines(data.structures)
    ensures r.error.None? <==> ContactPart(data, fmt).Ok?
    ensures r.error.Some? ==> r.lines == HeadLines(data.structures) && r.error == Some(ContactPart(data, fmt).error)
  {
    var d := data.structures;
    match ContactPart(data, fmt)
    case Err(e) => Output(HeadLines(d), Some(e))
    case Ok(rows) => Output(HeadLines(d) + rows + Trailer(d), None)
  }

  method PrintAnnotations(data: Data, fmt: Fixed1, file: Sink) returns (error: Option<PrintError>)
    modifies file
    ensures var out := AnnotationOutput(data, fmt);
      file.text == old(file.text) + Printed(out.lines) && error == out.error
  {
    ghost var t0 := file.text;
    var d := data.structures;
    PrintHead(d, file);
    var part := ContactLines(data, fmt);
    if part.Err? {
      return Some(part.error);
    }
    ghost var written := HeadLines(d);
    if part.value != [] {
      PrintStep(t0, written, part.value[0], file.text);
      file.Print(part.value[0]);
      assert [part.value[0]] == part.value;
    } else {
      assert written + part.value == written;
    }
    written := written + part.value;
    ghost var t1 := file.text;
    PrintTrailer(d, file);
    PrintMore(t0, written, Trailer(d), t1);
    assert AnnotationOutput(data, fmt) == Output(written + Trailer(d), None);
    assert file.text == t0 + Printed(written + Trailer(d));
    return None;
  }

  method PrintHead(d: Structures, file: Sink)
    modifies file
    ensures file.text == old(file.text) + Printed(HeadLines(d))
  {
    ghost var t0 := file.text;
    JalviewFormat.WriteAnnotationHeader(file);
    var row := ConsensusRow(d.alignment);
    PrintStep(t0, JalviewFormat.AnnotationHeader, row, file.text);
    file.Print(row);
    ghost var written := JalviewFormat.AnnotationHeader + [row];
    row := MfeRow(d.mfe);
    PrintStep(t0, written, row, file.text);
    file.Print(row);
    assert written + [row] == HeadLines(d);
  }

  /** The contact graph is built before anything of its row is written. */
  method ContactLines(data: Data, fmt: Fixed1) returns (r: Result<seq<string>, PrintError>)
    ensures r == ContactPart(data, fmt)
  {
    var d := data.structures;
    if d.partition.Some? && data.contacts.Some? {
      var structure, scores := d.partition.value.0, d.partition.value.1;
      var graph := ContactGraph(structure, data.contacts.value, fmt);
      if graph.Err? {
        return Err(graph.error);
      }
      if |scores| != 3 {
        return Err(ScoreCount(|scores|));
      }
      return Ok([ContactRow(scores, graph.value)]);
    }
    return Ok([]);
  }

  method PrintTrailer(d: Structures, file: Sink)
    modifies file
    ensures file.text == old(file.text) + Printed(Trailer(d))
  {
    ghost var t0 := file.text;
    PrintOpt(d.centroid, CentroidRow, file);
    ghost var t1 := file.text;
    PrintOpt(d.mea, MeaRow, file);
    PrintMore(t0, Opt(d.centroid, CentroidRow), Opt(d.mea, MeaRow), t1);
    ghost var written := Opt(d.centroid, CentroidRow) + Opt(d.mea, MeaRow);
    WriteStep(t0, written, "", file.text);
    file.Write("\n");
    written := written + [""];
    ghost var t2 := file.text;
    PrintProperties(d, file);
    PrintMore(t0, written, PropertyLines(d), t2);
  }

  /** `if …: print(row, file=file)` for a structure that may be missing. */
  method PrintOpt<T>(o: Option<T>, row: T -> string, file: Sink)
    modifies file
    ensures file.text == old(file.text) + Printed(Opt(o, row))
  {
    if o.Some? {
      file.Print(row(o.value));
      assert Printed([row(o.value)]) == row(o.value) + "\n" + Printed([]);
    }
  }

  method PrintProperties(d: Structures, file: Sink)
    modifies file
    ensures file.text == old(file.text) + Printed(PropertyLines(d))
  {
    ghost var t0 := file.text;
    var row := RowProperties("MFE Structure");
    PrintStep(t0, [], row, file.text);
    file.Print(row);
    ghost var written := [row];
    if d.centroid.Some? {
      row := RowProperties("Centroid Structure");
      PrintStep(t0, written, row, file.text);
      file.Print(row);
      written := written + [row];
    }
    if d.mea.Some? {
      row := RowProperties("MEA Structure");
      PrintStep(t0, written, row, file.text);
      file.Print(row);
      written := written + [row];
    }
    assert written == PropertyLines(d);
  }

  // ---------------------------------------------------------------------------------
  // Properties of the output

  /** The contact row is written exactly when both the partition function structure and
      the contacts are there; the row properties follow the blank line last, for the MFE,
      centroid and MEA rows in that order and each only when that structure is there. */
  lemma {:induction false} OutputShape(data: Data, fmt: Fixed1)
    requires AnnotationOutput(data, fmt).error.None?
    ensures var d := data.structures;
      var out := AnnotationOutput(data, fmt).lines;
      var props := PropertyLines(d);
      && |props| == 1 + (if d.centroid.Some? then 1 else 0) + (if d.mea.Some? then 1 else 0)
      && props[0] == RowProperties("MFE Structure")
      && out[..4] == JalviewFormat.AnnotationHeader + [ConsensusRow(d.alignment), MfeRow(d.mfe)]
      && out[|out| - |props|..] == props
      && out[|out| - |props| - 1] == ""
      && |out| == 5 + |props| + (if d.partition.Some? && data.contacts.Some? then 1 else 0)
           + (if d.centroid.Some? then 1 else 0) + (if d.mea.Some? then 1 else 0)
  {
    var d := data.structures;
    var head := HeadLines(d);
    var rows := ContactPart(data, fmt).value;
    var mid := Opt(d.centroid, CentroidRow) + Opt(d.mea, MeaRow) + [""];
    var props := PropertyLines(d);
    var out := head + rows + (mid + props);
    AppendAssoc(head + rows, mid, props);
    assert AnnotationOutput(data, fmt).lines == out;
    assert |rows| == (if d.partition.Some? && data.contacts.Some? then 1 else 0);
    AppendAssoc(head, rows, mid + props);
    assert out[..4] == head;
    assert out[|out| - |props|..] == props;
    assert mid[|mid| - 1] == "";
  }

  /** With contacts as `read_alifold` builds them, the writer stops only on a partition
      function score count other than three, and the contact row holds one entry per
      column of the partition function structure. */
  lemma {:induction false} ReadContactsPrint(data: Data, fmt: Fixed1, parse: FloatParser, lines: seq<string>, p: nat)
    requires p <= |lines| && ReadAlifoldFrom(parse, lines, p).Ok?
    requires data.contacts == Some(ReadAlifoldFrom(parse, lines, p).value)
    requires data.structures.partition.Some?
    ensures var structure, scores := data.structures.partition.value.0, data.structures.partition.value.1;
      var out := AnnotationOutput(data, fmt);
      && (out.error.None? <==> |scores| == 3)
      && Entries(structure, data.contacts.value, fmt, |structure|).Ok?
      && |Entries(structure, data.contacts.value, fmt, |structure|).value| == |structure|
  {
    var (structure, scores) := data.structures.partition.value;
    var m := data.contacts.value;
    forall k | 1 <= k <= |structure| ensures Get(m, k) != Some([]) {
      ReadAlifoldContacts(parse, lines, p, k);
      if k in MapKeys(m) {
        var cs := Rows(parse, lines[HeaderEnd(lines, p)..]).value;
        assert multiset(Values(m, k)) == multiset(Touching(cs, k));
        assert Touching(cs, k)[0] in multiset(Values(m, k));
      }
    }
    EntriesShape(structure, m, fmt, |structure|);
  }

  /** The value shown for a column is the highest probability of its contacts. */
  lemma {:induction false} EntryTop(parse: FloatParser, lines: seq<string>, p: nat, k: int, c: char, fmt: Fixed1)
    requires p <= |lines| && ReadAlifoldFrom(parse, lines, p).Ok?
    requires k in MapKeys(ReadAlifoldFrom(parse, lines, p).value)
    ensures var m := ReadAlifoldFrom(parse, lines, p).value;
      var cs := Rows(parse, lines[HeaderEnd(lines, p)..]).value;
      var l := Values(m, k);
      && l != [] && l[0] in Touching(cs, k)
      && (forall a :: 0 <= a < |Touching(cs, k)| ==> Touching(cs, k)[a].p <= l[0].p)
      && Entry(m, k, c, fmt) == Ok(fmt(l[0].p) + "," + [c] + "," + Join("; ", ContactTexts(l, fmt)))
  {
    var m := ReadAlifoldFrom(parse, lines, p).value;
    TopContact(parse, lines, p, k);
    EntryOf(m, k, c, fmt);
  }

  lemma {:induction false} TopContact(parse: FloatParser, lines: seq<string>, p: nat, k: int)
    requires p <= |lines| && ReadAlifoldFrom(parse, lines, p).Ok?
    requires k in MapKeys(ReadAlifoldFrom(parse, lines, p).value)
    ensures var m := ReadAlifoldFrom(parse, lines, p).value;
      var cs := Rows(parse, lines[HeaderEnd(lines, p)..]).value;
      var l := Values(m, k);
      && l != [] && l[0] in Touching(cs, k)
      && (forall a :: 0 <= a < |Touching(cs, k)| ==> Touching(cs, k)[a].p <= l[0].p)
  {
    var cs := Rows(parse, lines[HeaderEnd(lines, p)..]).value;
    ReadAlifoldContacts(parse, lines, p, k);
    SortedHead(Touching(cs, k));
  }

  lemma {:induction false} EntryOf(m: Contacts, k: int, c: char, fmt: Fixed1)
    requires k in MapKeys(m) && Values(m, k) != []
    ensures var l := Values(m, k);
      Entry(m, k, c, fmt) == Ok(fmt(l[0].p) + "," + [c] + "," + Join("; ", ContactTexts(l, fmt)))
  {
    assert Get(m, k).Some?;
  }
}
