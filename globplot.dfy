/** The GlobPlot converter: `read_file` turns the predictor's output — per sequence a
    `>name` header, a `# GlobDoms a-b, …` line, a `# Disorder a-b, …` line, one line it
    skips and one row of four scores per residue up to a blank line — into an ordered
    dictionary, and the two writers turn that into a Jalview annotation file and a
    Jalview features file. */
module Globplot {
  import opened Wrappers
  import opened Text
  import opened OrderedMaps
  import opened Streams
  import opened JalviewFormat
  import opened PredictorText

  // ---------------------------------------------------------------------------------
  // Data model

  /** The value stored per sequence: `(doms, dis, annots)`. */
  datatype Record = Record(doms: seq<Region>, dis: seq<Region>, annots: seq<string>)

  /** The `OrderedDict` from sequence name to record. */
  type Predictions = seq<(string, Record)>

  datatype ReadError =
    | NoHeader(line: string)    // the header pattern does not match: `.group` of None
    | NoDomains(line: string)   // the `# GlobDoms` pattern does not match
    | NoDisorder(line: string)  // the `# Disorder` pattern does not match
    | EndOfFile                 // `next(file)` past the last line raises StopIteration
    | BadRow(line: string)      // `line.split()` does not give the four names to unpack

  // ---------------------------------------------------------------------------------
  // Line patterns

  /** Group 1 of `^# <label>\s*((?:\d+-\d+(?:, )?)*)`, split into regions, or None when
      the pattern does not match. */
  function Regions(line: string, tag: string): (r: Option<seq<Region>>)
    ensures r.Some? <==> LabelledRanges(line, tag).Some?
  {
    var g := LabelledRanges(line, tag);
    if g.None? then None else Some(ParseRanges(g.value))
  }

  /** The second of the four fields of `line.split()`, or None where there are not
      exactly four and the unpacking raises `ValueError`. */
  function RowValue(line: string): Option<string> {
    var fields := SplitWhitespace(line);
    if |fields| == 4 then Some(fields[1]) else None
  }

  /** Everything the reader may ask of one line, worked out once: the patterns are
      only ever applied to a line through this. */
  datatype LineInfo = LineInfo(text: string, blank: bool, header: Option<string>, doms: Option<seq<Region>>,
                               dis: Option<seq<Region>>, row: Option<string>)

  function Info(line: string): LineInfo {
    LineInfo(line, line == "\n", HeaderName(line), Regions(line, "GlobDoms"), Regions(line, "Disorder"), RowValue(line))
  }

  function Infos(lines: seq<string>): (xs: seq<LineInfo>)
    ensures |xs| == |lines|
    decreases |lines|
  {
    if lines == [] then [] else [Info(lines[0])] + Infos(lines[1..])
  }

  /** Line `k` as the reader sees it; the lemmas after it give one part each, so that
      a proof about a few lines only unfolds the pattern it needs. */
  lemma {:induction false} InfosAt(lines: seq<string>, k: nat)
    requires k < |lines|
    ensures Infos(lines)[k] == Info(lines[k])
    decreases k
  {
    if k > 0 {
      InfosAt(lines[1..], k - 1);
    }
  }

  /** `xs` is what the reader sees in `lines`, line by line. A proof learns what it
      sees in line `k` by mentioning `Info(lines[k])`, and nothing else unfolds. */
  ghost predicate Sees(xs: seq<LineInfo>, lines: seq<string>) {
    |xs| == |lines| && forall k {:trigger Info(lines[k])} :: 0 <= k < |lines| ==> xs[k] == Info(lines[k])
  }

  lemma {:induction false} InfosSees(lines: seq<string>)
    ensures Sees(Infos(lines), lines)
  {
    forall k | 0 <= k < |lines| ensures Infos(lines)[k] == Info(lines[k]) {
      InfosAt(lines, k);
    }
  }

  // ---------------------------------------------------------------------------------
  // What `read_file` computes

  /** The inner loop from index `j` on: the dydx values after `vals`, and the index the
      shared iterator stands at once the blank line that ends the rows, or the end of
      the file, is reached. */
  function RowsFrom(xs: seq<LineInfo>, j: nat, vals: seq<string>): (r: Result<(seq<string>, nat), ReadError>)
    requires j <= |xs|
    ensures r.Ok? ==> j <= r.value.1 <= |xs| && |vals| <= |r.value.0| && r.value.0[..|vals|] == vals
    decreases |xs| - j
  {
    if j == |xs| then Ok((vals, j))
    else if xs[j].blank then Ok((vals, j + 1))
    else if xs[j].row.None? then Err(BadRow(xs[j].text))
    else
      var r := RowsFrom(xs, j + 1, vals + [xs[j].row.value]);
      assert r.Ok? ==> r.value.0[..|vals| + 1][..|vals|] == vals;
      r
  }

  /** The header, the two region lines and the skipped line that start the block at
      index `i`: the name and the two region lists; or the error that ends the read. */
  function HeadAt(xs: seq<LineInfo>, i: nat): (r: Result<(string, seq<Region>, seq<Region>), ReadError>)
    requires i < |xs|
    ensures r.Ok? <==> i + 3 < |xs| && xs[i].header.Some? && xs[i + 1].doms.Some? && xs[i + 2].dis.Some?
  {
    if xs[i].header.None? then Err(NoHeader(xs[i].text))
    else if i + 1 == |xs| then Err(EndOfFile)
    else if xs[i + 1].doms.None? then Err(NoDomains(xs[i + 1].text))
    else if i + 2 == |xs| then Err(EndOfFile)
    else if xs[i + 2].dis.None? then Err(NoDisorder(xs[i + 2].text))
    else if i + 3 == |xs| then Err(EndOfFile)
    else Ok((xs[i].header.value, xs[i + 1].doms.value, xs[i + 2].dis.value))
  }

  /** The block whose header is the line at index `i`: its name, its record and the
      index after its rows; or the error that ends the read. */
  function BlockAt(xs: seq<LineInfo>, i: nat): (r: Result<(string, Record, nat), ReadError>)
    requires i < |xs|
    ensures r.Ok? ==> i + 4 <= r.value.2 <= |xs|
  {
    var h :- HeadAt(xs, i);
    match RowsFrom(xs, i + 4, [])
    case Err(e) => Err(e)
    case Ok((annots, m)) => Ok((h.0, Record(h.1, h.2, annots), m))
  }

  /** The blocks from index `i` on, added to `acc`: a blank line is skipped, any other
      line must start a block. */
  function Blocks(xs: seq<LineInfo>, i: nat, acc: Predictions): Result<Predictions, ReadError>
    requires i <= |xs|
    decreases |xs| - i
  {
    if i == |xs| then Ok(acc)
    else if xs[i].blank then Blocks(xs, i + 1, acc)
    else
      match BlockAt(xs, i)
      case Err(e) => Err(e)
      case Ok((name, rec, m)) => Blocks(xs, m, Put(acc, name, rec))
  }

  /** Storing block after block keeps the sequence names distinct. */
  lemma {:induction false} BlocksDistinct(xs: seq<LineInfo>, i: nat, acc: Predictions)
    requires i <= |xs| && DistinctKeys(acc) && Blocks(xs, i, acc).Ok?
    ensures DistinctKeys(Blocks(xs, i, acc).value)
    decreases |xs| - i
  {
    if i < |xs| {
      if xs[i].blank {
        BlocksDistinct(xs, i + 1, acc);
      } else {
        var (name, rec, m) := BlockAt(xs, i).value;
        PutDistinct(acc, name, rec);
        BlocksDistinct(xs, m, Put(acc, name, rec));
      }
    }
  }

  /** `read_file` on the lines from index `p` on: a dictionary, so no sequence name
      appears twice in it. */
  function ReadFrom(lines: seq<string>, p: nat): (r: Result<Predictions, ReadError>)
    requires p <= |lines|
    ensures r.Ok? ==> DistinctKeys(r.value)
  {
    if Blocks(Infos(lines), p, []).Ok? then
      BlocksDistinct(Infos(lines), p, []);
      Blocks(Infos(lines), p, [])
    else Blocks(Infos(lines), p, [])
  }

  // ---------------------------------------------------------------------------------
  // `read_file`: one iterator over the file, advanced by both `for` loops and by `next`

  method ReadFile(file: LineReader) returns (r: Result<Predictions, ReadError>)
    requires file.Valid()
    modifies file
    ensures file.Valid()
    ensures r == ReadFrom(file.lines, old(file.pos))
  {
    ghost var xs := Infos(file.lines);
    InfosSees(file.lines);
    ghost var p0 := file.pos;
    var result: Predictions := [];
    while true
      invariant file.Valid() && p0 <= file.pos
      invariant Blocks(xs, file.pos, result) == Blocks(xs, p0, [])
      decreases |file.lines| - file.pos
    {
      ghost var at := file.pos;
      var next := file.Next();
      if next.None? {
        return Ok(result);
      }
      var line := next.value;
      assert xs[at] == Info(line);
      if line == "\n" {
        continue;
      }
      var block := ReadBlock(file, xs, line, at);
      if block.Err? {
        return Err(block.error);
      }
      var (name, rec) := block.value;
      result := Put(result, name, rec);
    }
  }

  /** One round of the outer loop from the header line on. */
  method ReadBlock(file: LineReader, ghost xs: seq<LineInfo>, line: string, ghost at: nat)
      returns (block: Result<(string, Record), ReadError>)
    requires file.Valid() && Sees(xs, file.lines)
    requires at < |file.lines| && line == file.lines[at] && file.pos == at + 1
    modifies file
    ensures file.Valid()
    ensures BlockAt(xs, at).Err? ==> block == Err(BlockAt(xs, at).error)
    ensures BlockAt(xs, at).Ok? ==> var (name, rec, m) := BlockAt(xs, at).value;
      block == Ok((name, rec)) && file.pos == m
  {
    var head := ReadHead(file, xs, line, at);
    if head.Err? {
      return Err(head.error);
    }
    var annots := ReadRows(file, xs);
    if annots.Err? {
      return Err(annots.error);
    }
    var (name, doms, dis) := head.value;
    return Ok((name, Record(doms, dis, annots.value)));
  }

  /** The header line, the `GlobDoms` and `Disorder` lines and the skipped line. */
  method ReadHead(file: LineReader, ghost xs: seq<LineInfo>, line: string, ghost at: nat)
      returns (head: Result<(string, seq<Region>, seq<Region>), ReadError>)
    requires file.Valid() && Sees(xs, file.lines)
    requires at < |file.lines| && line == file.lines[at] && file.pos == at + 1
    modifies file
    ensures file.Valid()
    ensures head == HeadAt(xs, at)
    ensures head.Ok? ==> file.pos == at + 4
  {
    SeenHeader(xs, file.lines, at);
    var name := HeaderName(line);
    if name.None? {
      return Err(NoHeader(line));
    }
    var domsLine := file.Next();
    if domsLine.None? {
      assert at + 1 == |xs|;
      return Err(EndOfFile);
    }
    assert domsLine.value == file.lines[at + 1] && file.pos == at + 2;
    SeenRegions(xs, file.lines, at + 1);
    var doms := Regions(domsLine.value, "GlobDoms");
    if doms.None? {
      assert xs[at + 1].doms.None?;
      return Err(NoDomains(domsLine.value));
    }
    var disLine := file.Next();
    if disLine.None? {
      assert at + 2 == |xs|;
      return Err(EndOfFile);
    }
    assert disLine.value == file.lines[at + 2] && file.pos == at + 3;
    SeenRegions(xs, file.lines, at + 2);
    var dis := Regions(disLine.value, "Disorder");
    if dis.None? {
      assert xs[at + 2].dis.None?;
      return Err(NoDisorder(disLine.value));
    }
    var skipped := file.Next();
    if skipped.None? {
      assert at + 3 == |xs|;
      return Err(EndOfFile);
    }
    return Ok((name.value, doms.value, dis.value));
  }

  lemma {:induction false} SeenHeader(xs: seq<LineInfo>, lines: seq<string>, k: nat)
    requires Sees(xs, lines) && k < |lines|
    ensures xs[k].text == lines[k] && xs[k].header == HeaderName(lines[k])
  {
    assert xs[k] == Info(lines[k]);
  }

  lemma {:induction false} SeenRegions(xs: seq<LineInfo>, lines: seq<string>, k: nat)
    requires Sees(xs, lines) && k < |lines|
    ensures xs[k].text == lines[k]
    ensures xs[k].doms == Regions(lines[k], "GlobDoms") && xs[k].dis == Regions(lines[k], "Disorder")
  {
    assert xs[k] == Info(lines[k]);
  }

  /** The inner `for` loop: the dydx column of each row up to the blank line. */
  method ReadRows(file: LineReader, ghost xs: seq<LineInfo>) returns (r: Result<seq<string>, ReadError>)
    requires file.Valid() && Sees(xs, file.lines)
    modifies file
    ensures file.Valid()
    ensures var rows := RowsFrom(xs, old(file.pos), []);
      && (rows.Err? ==> r == Err(rows.error))
      && (rows.Ok? ==> r == Ok(rows.value.0) && file.pos == rows.value.1)
  {
    ghost var p0 := file.pos;
    var annots: seq<string> := [];
    while true
      invariant file.Valid() && p0 <= file.pos
      invariant RowsFrom(xs, file.pos, annots) == RowsFrom(xs, p0, [])
      decreases |file.lines| - file.pos
    {
      ghost var j := file.pos;
      var next := file.Next();
      if next.None? {
        return Ok(annots);
      }
      var line := next.value;
      assert xs[j] == Info(line);
      if line == "\n" {
        return Ok(annots);
      }
      var fields := SplitWhitespace(line);
      if |fields| != 4 {
        return Err(BadRow(line));
      }
      annots := annots + [fields[1]];
    }
  }

  // ---------------------------------------------------------------------------------
  // Properties of the reader

  /** The index of the first blank line at or after `j`, or the end of the file. */
  function BlankFrom(lines: seq<string>, j: nat): (e: nat)
    requires j <= |lines|
    ensures j <= e <= |lines| && (e < |lines| ==> lines[e] == "\n")
    ensures forall k :: j <= k < e ==> lines[k] != "\n"
    decreases |lines| - j
  {
    if j == |lines| || lines[j] == "\n" then j else BlankFrom(lines, j + 1)
  }

  /** Every line in `[j, e)` has four whitespace-separated fields. */
  predicate FourFields(lines: seq<string>, j: nat, e: nat)
    requires j <= e <= |lines|
  {
    forall k :: j <= k < e ==> |SplitWhitespace(lines[k])| == 4
  }

  /** The second field of each line in `[j, e)`. */
  function SecondFields(lines: seq<string>, j: nat, e: nat): (r: seq<string>)
    requires j <= e <= |lines| && FourFields(lines, j, e)
    ensures |r| == e - j && forall k :: j <= k < e ==> r[k - j] == SplitWhitespace(lines[k])[1]
  {
    seq(e - j, k requires 0 <= k < e - j => SplitWhitespace(lines[j + k])[1])
  }

  /** The rows end at the first blank line or at the end of the file. They are read
      when each has exactly four fields, and then give their second fields in order,
      with the iterator past the blank line. Otherwise the first row without four
      fields is the error. */
  lemma {:induction false} RowsSpec(xs: seq<LineInfo>, lines: seq<string>, j: nat, vals: seq<string>)
    requires Sees(xs, lines) && j <= |lines|
    ensures var e := BlankFrom(lines, j); var r := RowsFrom(xs, j, vals);
      && (r.Ok? <==> FourFields(lines, j, e))
      && (r.Ok? ==> r.value == (vals + SecondFields(lines, j, e), if e < |lines| then e + 1 else e))
      && (r.Err? ==> exists k :: j <= k < e && r.error == BadRow(lines[k]) && |SplitWhitespace(lines[k])| != 4
                                && FourFields(lines, j, k))
  {
    RowsOk(xs, lines, j, vals);
    RowsErr(xs, lines, j, vals);
  }

  lemma {:induction false} RowsOk(xs: seq<LineInfo>, lines: seq<string>, j: nat, vals: seq<string>)
    requires Sees(xs, lines) && j <= |lines|
    ensures var e := BlankFrom(lines, j); var r := RowsFrom(xs, j, vals);
      && (r.Ok? <==> FourFields(lines, j, e))
      && (r.Ok? ==> r.value == (vals + SecondFields(lines, j, e), if e < |lines| then e + 1 else e))
    decreases |lines| - j
  {
    var e := BlankFrom(lines, j);
    if j == |lines| {
      assert vals + SecondFields(lines, j, e) == vals;
    } else {
      assert xs[j] == Info(lines[j]);
      if lines[j] == "\n" {
        assert vals + SecondFields(lines, j, e) == vals;
      } else if |SplitWhitespace(lines[j])| == 4 {
        var vals' := vals + [SplitWhitespace(lines[j])[1]];
        assert RowsFrom(xs, j, vals) == RowsFrom(xs, j + 1, vals');
        RowsOk(xs, lines, j + 1, vals');
        assert BlankFrom(lines, j + 1) == e;
        if FourFields(lines, j + 1, e) {
          SecondFieldsCons(lines, j, e, vals);
        }
      } else {
        assert !FourFields(lines, j, e);
      }
    }
  }

  lemma {:induction false} SecondFieldsCons(lines: seq<string>, j: nat, e: nat, vals: seq<string>)
    requires j < e <= |lines| && FourFields(lines, j, e)
    ensures (vals + [SplitWhitespace(lines[j])[1]]) + SecondFields(lines, j + 1, e) == vals + SecondFields(lines, j, e)
  {
    var s := SecondFields(lines, j, e);
    assert s == [SplitWhitespace(lines[j])[1]] + SecondFields(lines, j + 1, e);
  }

  lemma {:induction false} RowsErr(xs: seq<LineInfo>, lines: seq<string>, j: nat, vals: seq<string>)
    requires Sees(xs, lines) && j <= |lines|
    ensures var e := BlankFrom(lines, j); var r := RowsFrom(xs, j, vals);
      r.Err? ==> exists k :: j <= k < e && r.error == BadRow(lines[k]) && |SplitWhitespace(lines[k])| != 4
                            && FourFields(lines, j, k)
    decreases |lines| - j
  {
    var e := BlankFrom(lines, j);
    if j < |lines| {
      assert xs[j] == Info(lines[j]);
      if lines[j] != "\n" {
        if |SplitWhitespace(lines[j])| == 4 {
          var vals' := vals + [SplitWhitespace(lines[j])[1]];
          RowsErr(xs, lines, j + 1, vals');
          assert BlankFrom(lines, j + 1) == e;
          if RowsFrom(xs, j, vals).Err? {
            var k :| j + 1 <= k < e && RowsFrom(xs, j, vals).error == BadRow(lines[k])
                     && |SplitWhitespace(lines[k])| != 4 && FourFields(lines, j + 1, k);
            assert FourFields(lines, j, k);
          }
        } else {
          assert FourFields(lines, j, j);
        }
      }
    }
  }

  /** Every region is a pair of digit strings, except possibly a last region holding
      only an empty string, left by a list that ends with `, `. */
  predicate WellFormedRegions(r: seq<Region>) {
    forall k :: 0 <= k < |r| ==>
      (|r[k]| == 2 && r[k][0] != "" && AllDigits(r[k][0]) && r[k][1] != "" && AllDigits(r[k][1]))
      || (k == |r| - 1 && r[k] == [""])
  }

  /** The domains and the disordered regions of a block read are well formed. */
  lemma {:induction false} BlockRegions(xs: seq<LineInfo>, lines: seq<string>, i: nat)
    requires Sees(xs, lines) && i < |xs| && BlockAt(xs, i).Ok?
    ensures var rec := BlockAt(xs, i).value.1; WellFormedRegions(rec.doms) && WellFormedRegions(rec.dis)
  {
    BlockShape(xs, i);
    assert xs[i + 1] == Info(lines[i + 1]) && xs[i + 2] == Info(lines[i + 2]);
    LabelledRegions(lines[i + 1], "GlobDoms");
    LabelledRegions(lines[i + 2], "Disorder");
  }

  /** Where a block that is read takes its parts from. */
  lemma {:induction false} BlockShape(xs: seq<LineInfo>, i: nat)
    requires i < |xs| && BlockAt(xs, i).Ok?
    ensures var (name, rec, _) := BlockAt(xs, i).value;
      && i + 3 < |xs| && xs[i].header == Some(name)
      && xs[i + 1].doms == Some(rec.doms) && xs[i + 2].dis == Some(rec.dis)
  {
  }

  // ---------------------------------------------------------------------------------
  // Reading back what the predictor writes

  /** A score row of the predictor: the residue and its three scores. */
  datatype ScoreRow = ScoreRow(residue: string, dydx: string, raw: string, smoothed: string)

  predicate IsWord(s: string) { s != "" && NoSpace(s) }

  predicate RowFits(s: ScoreRow) {
    IsWord(s.residue) && IsWord(s.dydx) && IsWord(s.raw) && IsWord(s.smoothed)
  }

  /** The row's four columns, separated by `sep`, and the newline. */
  function RowLine(s: ScoreRow, sep: string): string {
    s.residue + sep + s.dydx + sep + s.raw + sep + s.smoothed + "\n"
  }

  /** What the predictor reports for one sequence: `skipped` is the line after the
      region lines, which the reader never looks at, and `sep` the whitespace character
      between the columns of a row. */
  datatype Written = Written(name: string, doms: seq<(string, string)>, dis: seq<(string, string)>,
                             skipped: string, sep: string, rows: seq<ScoreRow>)

  predicate NameFits(name: string) {
    name != [] && !IsSpace(name[0]) && !IsSpace(name[|name| - 1]) && Excludes(name, '\n')
  }

  predicate Fits(w: Written) {
    && NameFits(w.name) && NumberPairs(w.doms) && NumberPairs(w.dis)
    && |w.sep| == 1 && IsSpace(w.sep[0])
    && forall i :: 0 <= i < |w.rows| ==> RowFits(w.rows[i])
  }

  /** Its block of lines: the header, the two region lines, the skipped line and the
      rows. */
  function WrittenBlock(w: Written): (r: seq<string>)
    ensures |r| == 4 + |w.rows|
  {
    BlockHead(w) + RowLines(w.rows, w.sep)
  }

  function BlockHead(w: Written): (r: seq<string>)
    ensures |r| == 4
  {
    [">" + w.name + "\n", RangesLine("GlobDoms", w.doms), RangesLine("Disorder", w.dis), w.skipped]
  }

  function RowLines(rows: seq<ScoreRow>, sep: string): (r: seq<string>)
    ensures |r| == |rows| && forall k :: 0 <= k < |rows| ==> r[k] == RowLine(rows[k], sep)
  {
    seq(|rows|, k requires 0 <= k < |rows| => RowLine(rows[k], sep))
  }

  function Dydx(rows: seq<ScoreRow>): (r: seq<string>)
    ensures |r| == |rows| && forall i :: 0 <= i < |rows| ==> r[i] == rows[i].dydx
  {
    seq(|rows|, i requires 0 <= i < |rows| => rows[i].dydx)
  }

  /** The record that block should give. */
  function WrittenRecord(w: Written): Record {
    Record(PairRegions(w.doms), PairRegions(w.dis), Dydx(w.rows))
  }

  /** A row splits back into its four columns, and is not a blank line. */
  lemma {:induction false} RowLineFields(s: ScoreRow, sep: string)
    requires RowFits(s) && |sep| == 1 && IsSpace(sep[0])
    ensures SplitWhitespace(RowLine(s, sep)) == [s.residue, s.dydx, s.raw, s.smoothed]
    ensures RowLine(s, sep) != "\n"
  {
    var words := [s.residue, s.dydx, s.raw, s.smoothed];
    assert forall i :: 0 <= i < |words| ==> words[i] != "" && NoSpace(words[i]);
    assert forall i :: 0 <= i < |"\n"| ==> IsSpace("\n"[i]);
    JoinFour(sep, s.residue, s.dydx, s.raw, s.smoothed);
    SplitWhitespaceJoinBy(words, sep, "\n");
    assert |RowLine(s, sep)| >= |s.residue| + 1;
  }

  lemma {:induction false} HeaderLine(name: string)
    requires NameFits(name)
    ensures HeaderName(">" + name + "\n") == Some(name)
    ensures ">" + name + "\n" != "\n"
  {
    HeaderRoundTrip("", name, "\n");
    assert ">" + "" + name + "\n" == ">" + name + "\n";
    assert |">" + name + "\n"| >= 2;
  }

  lemma {:induction false} DomsLine(pairs: seq<(string, string)>)
    requires NumberPairs(pairs)
    ensures Regions(RangesLine("GlobDoms", pairs), "GlobDoms") == Some(PairRegions(pairs))
  {
    LabelledRoundTrip("GlobDoms", pairs);
  }

  lemma {:induction false} DisorderLine(pairs: seq<(string, string)>)
    requires NumberPairs(pairs)
    ensures Regions(RangesLine("Disorder", pairs), "Disorder") == Some(PairRegions(pairs))
  {
    LabelledRoundTrip("Disorder", pairs);
  }

  /** What the reader sees in a header line, a `# GlobDoms` line, a `# Disorder` line
      and a row as the predictor writes them. */
  lemma {:induction false} HeaderAt(xs: seq<LineInfo>, lines: seq<string>, k: nat, name: string)
    requires Sees(xs, lines) && k < |lines| && NameFits(name) && lines[k] == ">" + name + "\n"
    ensures !xs[k].blank && xs[k].header == Some(name)
  {
    HeaderLine(name);
    assert xs[k] == Info(lines[k]);
  }

  lemma {:induction false} DomsAt(xs: seq<LineInfo>, lines: seq<string>, k: nat, pairs: seq<(string, string)>)
    requires Sees(xs, lines) && k < |lines| && NumberPairs(pairs) && lines[k] == RangesLine("GlobDoms", pairs)
    ensures xs[k].doms == Some(PairRegions(pairs))
  {
    DomsLine(pairs);
    assert xs[k] == Info(lines[k]);
  }

  lemma {:induction false} DisAt(xs: seq<LineInfo>, lines: seq<string>, k: nat, pairs: seq<(string, string)>)
    requires Sees(xs, lines) && k < |lines| && NumberPairs(pairs) && lines[k] == RangesLine("Disorder", pairs)
    ensures xs[k].dis == Some(PairRegions(pairs))
  {
    DisorderLine(pairs);
    assert xs[k] == Info(lines[k]);
  }

  lemma {:induction false} RowAt(xs: seq<LineInfo>, lines: seq<string>, k: nat, s: ScoreRow, sep: string)
    requires Sees(xs, lines) && k < |lines| && |sep| == 1 && IsSpace(sep[0])
    requires RowFits(s) && lines[k] == RowLine(s, sep)
    ensures !xs[k].blank && xs[k].row == Some(s.dydx)
  {
    RowLineFields(s, sep);
    assert xs[k] == Info(lines[k]);
  }

  lemma {:induction false} BlankAt(xs: seq<LineInfo>, lines: seq<string>, k: nat)
    requires Sees(xs, lines) && k < |lines| && lines[k] == "\n"
    ensures xs[k].blank
  {
    assert xs[k] == Info(lines[k]);
  }

  /** The rows of a written block, where they stand in the file. */
  lemma {:induction false} RowsAt(xs: seq<LineInfo>, lines: seq<string>, j: nat, rows: seq<ScoreRow>, sep: string)
    requires Sees(xs, lines) && |sep| == 1 && IsSpace(sep[0]) && j + |rows| <= |lines|
    requires (forall k :: 0 <= k < |rows| ==> RowFits(rows[k])) && lines[j..j + |rows|] == RowLines(rows, sep)
    ensures forall k :: j <= k < j + |rows| ==> !xs[k].blank && xs[k].row == Some(rows[k - j].dydx)
  {
    forall k | j <= k < j + |rows| ensures !xs[k].blank && xs[k].row == Some(rows[k - j].dydx) {
      assert lines[k] == lines[j..j + |rows|][k - j];
      RowAt(xs, lines, k, rows[k - j], sep);
    }
  }

  /** The lines of a written block where the block stands in the file. */
  lemma {:induction false} WrittenBlockAt(lines: seq<string>, i: nat, w: Written)
    requires i + 4 + |w.rows| <= |lines| && lines[i..i + 4 + |w.rows|] == WrittenBlock(w)
    ensures lines[i] == ">" + w.name + "\n"
    ensures lines[i + 1] == RangesLine("GlobDoms", w.doms)
    ensures lines[i + 2] == RangesLine("Disorder", w.dis)
    ensures lines[i + 4..i + 4 + |w.rows|] == RowLines(w.rows, w.sep)
  {
    SliceConcat(lines, i, BlockHead(w), RowLines(w.rows, w.sep));
    var head := BlockHead(w);
    assert lines[i] == head[0] && lines[i + 1] == head[1] && lines[i + 2] == head[2] by {
      assert lines[i..i + 4] == head;
      assert lines[i] == lines[i..i + 4][0];
      assert lines[i + 1] == lines[i..i + 4][1];
      assert lines[i + 2] == lines[i..i + 4][2];
    }
  }

  /** What the reader sees in each line of a written block. */
  lemma {:induction false} BlockInfos(xs: seq<LineInfo>, lines: seq<string>, i: nat, w: Written)
    requires Sees(xs, lines) && Fits(w)
    requires i + 4 + |w.rows| <= |lines| && lines[i..i + 4 + |w.rows|] == WrittenBlock(w)
    ensures && !xs[i].blank && xs[i].header == Some(w.name)
      && xs[i + 1].doms == Some(PairRegions(w.doms))
      && xs[i + 2].dis == Some(PairRegions(w.dis))
      && forall k :: i + 4 <= k < i + 4 + |w.rows| ==> !xs[k].blank && xs[k].row == Some(w.rows[k - i - 4].dydx)
  {
    WrittenBlockAt(lines, i, w);
    HeaderAt(xs, lines, i, w.name);
    DomsAt(xs, lines, i + 1, w.doms);
    DisAt(xs, lines, i + 2, w.dis);
    RowsAt(xs, lines, i + 4, w.rows, w.sep);
  }

  /** A run of rows ended by a blank line or by the end of the file gives their dydx
      values. */
  lemma {:induction false} RowsRun(xs: seq<LineInfo>, j: nat, vs: seq<string>, vals: seq<string>)
    requires j + |vs| <= |xs|
    requires forall k :: j <= k < j + |vs| ==> !xs[k].blank && xs[k].row == Some(vs[k - j])
    requires j + |vs| < |xs| ==> xs[j + |vs|].blank
    ensures RowsFrom(xs, j, vals) == Ok((vals + vs, if j + |vs| < |xs| then j + |vs| + 1 else j + |vs|))
    decreases |vs|
  {
    if vs == [] {
      assert vals + vs == vals;
    } else {
      assert !xs[j].blank && xs[j].row == Some(vs[j - j]);
      RowsRun(xs, j + 1, vs[1..], vals + [vs[0]]);
      assert (vals + [vs[0]]) + vs[1..] == vals + vs;
    }
  }

  /** The same block, from what the reader sees in each line. */
  lemma {:induction false} BlockSeen(xs: seq<LineInfo>, i: nat, w: Written)
    requires i + 4 + |w.rows| <= |xs|
    requires && xs[i].header == Some(w.name)
      && xs[i + 1].doms == Some(PairRegions(w.doms))
      && xs[i + 2].dis == Some(PairRegions(w.dis))
      && forall k :: i + 4 <= k < i + 4 + |w.rows| ==> !xs[k].blank && xs[k].row == Some(w.rows[k - i - 4].dydx)
    requires i + 4 + |w.rows| < |xs| ==> xs[i + 4 + |w.rows|].blank
    ensures var m := i + 4 + |w.rows|;
      BlockAt(xs, i) == Ok((w.name, WrittenRecord(w), if m < |xs| then m + 1 else m))
  {
    var rec := WrittenRecord(w);
    RowsRun(xs, i + 4, rec.annots, []);
    assert [] + rec.annots == rec.annots;
  }

  /** A block as the predictor writes it, followed by a blank line or by the end of the
      file, reads back as its record. */
  lemma {:induction false} BlockRead(xs: seq<LineInfo>, lines: seq<string>, i: nat, w: Written)
    requires Sees(xs, lines) && Fits(w)
    requires i + 4 + |w.rows| <= |lines| && lines[i..i + 4 + |w.rows|] == WrittenBlock(w)
    requires i + 4 + |w.rows| < |lines| ==> lines[i + 4 + |w.rows|] == "\n"
    ensures var m := i + 4 + |w.rows|;
      && !xs[i].blank
      && BlockAt(xs, i) == Ok((w.name, WrittenRecord(w), if m < |lines| then m + 1 else m))
  {
    BlockInfos(xs, lines, i, w);
    var m := i + 4 + |w.rows|;
    if m < |lines| {
      BlankAt(xs, lines, m);
    }
    BlockSeen(xs, i, w);
  }

  /** A block that is read is stored and the read goes on after it. */
  lemma {:induction false} BlocksStep(xs: seq<LineInfo>, i: nat, acc: Predictions, name: string, rec: Record, m: nat)
    requires i < |xs| && !xs[i].blank && BlockAt(xs, i) == Ok((name, rec, m))
    ensures Blocks(xs, i, acc) == Blocks(xs, m, Put(acc, name, rec))
  {
  }

  /** A predictor output file: every block followed by a blank line. */
  function FileLines(ws: seq<Written>): seq<string> {
    if ws == [] then [] else WrittenBlock(ws[0]) + ["\n"] + FileLines(ws[1..])
  }

  /** The dictionary after storing each block's record under its name, in order. */
  function Stored(acc: Predictions, ws: seq<Written>): Predictions
    decreases |ws|
  {
    if ws == [] then acc else Stored(Put(acc, ws[0].name, WrittenRecord(ws[0])), ws[1..])
  }

  lemma {:induction false} StoredSnoc(acc: Predictions, ws: seq<Written>, w: Written)
    ensures Stored(acc, ws + [w]) == Put(Stored(acc, ws), w.name, WrittenRecord(w))
    decreases |ws|
  {
    if ws == [] {
      assert [w][1..] == [];
    } else {
      assert (ws + [w])[1..] == ws[1..] + [w];
      StoredSnoc(Put(acc, ws[0].name, WrittenRecord(ws[0])), ws[1..], w);
    }
  }

  /** Reading whole blocks: whatever follows them is read from the line after the last
      one's blank line, with their records stored. */
  lemma {:induction false} BlocksRead(xs: seq<LineInfo>, lines: seq<string>, i: nat, ws: seq<Written>,
                                      rest: seq<string>, acc: Predictions)
    requires Sees(xs, lines) && forall k :: 0 <= k < |ws| ==> Fits(ws[k])
    requires i <= |lines| && lines[i..] == FileLines(ws) + rest
    ensures Blocks(xs, i, acc) == Blocks(xs, |lines| - |rest|, Stored(acc, ws))
    decreases |ws|
  {
    if ws == [] {
      assert lines[i..] == rest;
    } else {
      var w := ws[0];
      var m := i + 5 + |w.rows|;
      FirstBlock(xs, lines, i, ws, rest);
      BlocksStep(xs, i, acc, w.name, WrittenRecord(w), m);
      assert forall k :: 0 <= k < |ws| - 1 ==> ws[1..][k] == ws[k + 1];
      BlocksRead(xs, lines, m, ws[1..], rest, Put(acc, w.name, WrittenRecord(w)));
    }
  }

  /** The first of whole blocks is read as its record, and the read goes on after its
      blank line. */
  lemma {:induction false} FirstBlock(xs: seq<LineInfo>, lines: seq<string>, i: nat, ws: seq<Written>, rest: seq<string>)
    requires Sees(xs, lines) && ws != [] && Fits(ws[0]) && i <= |lines| && lines[i..] == FileLines(ws) + rest
    ensures var m := i + 5 + |ws[0].rows|;
      && m <= |lines| && !xs[i].blank && BlockAt(xs, i) == Ok((ws[0].name, WrittenRecord(ws[0]), m))
      && lines[m..] == FileLines(ws[1..]) + rest
  {
    FileSplit(lines, i, ws, rest);
    BlockRead(xs, lines, i, ws[0]);
  }

  lemma {:induction false} FileSplit(lines: seq<string>, i: nat, ws: seq<Written>, rest: seq<string>)
    requires ws != [] && i <= |lines| && lines[i..] == FileLines(ws) + rest
    ensures var m := i + 4 + |ws[0].rows|;
      && m < |lines| && lines[i..m] == WrittenBlock(ws[0])
      && lines[m] == "\n" && lines[m + 1..] == FileLines(ws[1..]) + rest
  {
    var block := WrittenBlock(ws[0]);
    var tail := FileLines(ws[1..]);
    assert FileLines(ws) == (block + ["\n"]) + tail;
    AppendAssoc(block + ["\n"], tail, rest);
    BlankSplit(lines, i, block, tail + rest);
  }

  /** A block, a blank line and the rest, where they stand in the file. */
  lemma {:induction false} BlankSplit(lines: seq<string>, i: nat, block: seq<string>, more: seq<string>)
    requires i <= |lines| && lines[i..] == block + ["\n"] + more
    ensures var m := i + |block|;
      m < |lines| && lines[i..m] == block && lines[m] == "\n" && lines[m + 1..] == more
  {
    var m := i + |block|;
    assert lines[i..m] == lines[i..][..|block|];
    assert lines[m] == lines[i..][|block|];
    assert lines[m + 1..] == lines[i..][|block| + 1..];
  }

  /** Whole blocks at the start of the file are read as their records, and the read
      goes on with what follows them. */
  lemma {:induction false} ReadAfter(lines: seq<string>, ws: seq<Written>, rest: seq<string>)
    requires forall k :: 0 <= k < |ws| ==> Fits(ws[k])
    requires lines == FileLines(ws) + rest
    ensures ReadFrom(lines, 0) == Blocks(Infos(lines), |lines| - |rest|, Stored([], ws))
  {
    assert lines[0..] == lines;
    InfosSees(lines);
    BlocksRead(Infos(lines), lines, 0, ws, rest, []);
  }

  /** `read_file` on a whole predictor output file gives each sequence's record, under
      its name, in the order of the file. */
  lemma {:induction false} FileRoundTrip(lines: seq<string>, ws: seq<Written>)
    requires forall k :: 0 <= k < |ws| ==> Fits(ws[k])
    requires lines == FileLines(ws)
    ensures ReadFrom(lines, 0) == Ok(Stored([], ws))
  {
    assert lines == FileLines(ws) + [];
    ReadAfter(lines, ws, []);
  }

  /** The last block may end with the file instead of a blank line. */
  lemma {:induction false} OpenEndRoundTrip(lines: seq<string>, ws: seq<Written>, w: Written)
    requires forall k :: 0 <= k < |ws| ==> Fits(ws[k])
    requires Fits(w) && lines == FileLines(ws) + WrittenBlock(w)
    ensures ReadFrom(lines, 0) == Ok(Stored([], ws + [w]))
  {
    var p := |lines| - |WrittenBlock(w)|;
    ReadAfter(lines, ws, WrittenBlock(w));
    assert lines[p..] == WrittenBlock(w);
    InfosSees(lines);
    LastBlockRead(Infos(lines), lines, p, w, Stored([], ws));
    StoredSnoc([], ws, w);
  }

  lemma {:induction false} LastBlockRead(xs: seq<LineInfo>, lines: seq<string>, p: nat, w: Written, acc: Predictions)
    requires Sees(xs, lines) && Fits(w) && p <= |lines| && lines[p..] == WrittenBlock(w)
    ensures Blocks(xs, p, acc) == Ok(Put(acc, w.name, WrittenRecord(w)))
  {
    assert lines[p..p + 4 + |w.rows|] == lines[p..];
    BlockRead(xs, lines, p, w);
    BlocksStep(xs, p, acc, w.name, WrittenRecord(w), |lines|);
  }

  /** A file that ends within the first three lines after a header raises
      StopIteration. */
  lemma {:induction false} TruncatedBlock(lines: seq<string>, ws: seq<Written>, w: Written, n: nat)
    requires forall k :: 0 <= k < |ws| ==> Fits(ws[k])
    requires Fits(w) && 1 <= n <= 3 && lines == FileLines(ws) + WrittenBlock(w)[..n]
    ensures ReadFrom(lines, 0) == Err(EndOfFile)
  {
    var head := WrittenBlock(w)[..n];
    var p := |lines| - n;
    ReadAfter(lines, ws, head);
    assert lines[p..] == head;
    InfosSees(lines);
    TruncatedAt(Infos(lines), lines, p, w, n, Stored([], ws));
  }

  lemma {:induction false} TruncatedAt(xs: seq<LineInfo>, lines: seq<string>, p: nat, w: Written, n: nat, acc: Predictions)
    requires Sees(xs, lines) && Fits(w) && 1 <= n <= 3 && p + n == |lines| && lines[p..] == WrittenBlock(w)[..n]
    ensures Blocks(xs, p, acc) == Err(EndOfFile)
  {
    assert lines[p] == ">" + w.name + "\n";
    HeaderAt(xs, lines, p, w.name);
    if n >= 2 {
      assert lines[p + 1] == RangesLine("GlobDoms", w.doms);
      DomsAt(xs, lines, p + 1, w.doms);
    }
    if n == 3 {
      assert lines[p + 2] == RangesLine("Disorder", w.dis);
      DisAt(xs, lines, p + 2, w.dis);
    }
  }

  /** A block whose `# GlobDoms` line does not match stops the read with the error
      naming that line. */
  lemma {:induction false} MissingDomains(lines: seq<string>, ws: seq<Written>, name: string, bad: string,
                                          more: seq<string>)
    requires forall k :: 0 <= k < |ws| ==> Fits(ws[k])
    requires NameFits(name) && LabelledRanges(bad, "GlobDoms").None?
    requires lines == FileLines(ws) + [">" + name + "\n", bad] + more
    ensures ReadFrom(lines, 0) == Err(NoDomains(bad))
  {
    var rest := [">" + name + "\n", bad] + more;
    var p := |lines| - |rest|;
    ReadAfter(lines, ws, rest);
    assert lines[p..] == rest;
    assert lines[p] == rest[0] && lines[p + 1] == rest[1];
    InfosSees(lines);
    MissingDomainsAt(Infos(lines), lines, p, name, bad, Stored([], ws));
  }

  lemma {:induction false} MissingDomainsAt(xs: seq<LineInfo>, lines: seq<string>, p: nat, name: string, bad: string,
                                            acc: Predictions)
    requires Sees(xs, lines) && p + 1 < |lines| && NameFits(name) && LabelledRanges(bad, "GlobDoms").None?
    requires lines[p] == ">" + name + "\n" && lines[p + 1] == bad
    ensures Blocks(xs, p, acc) == Err(NoDomains(bad))
  {
    HeaderAt(xs, lines, p, name);
    assert xs[p + 1] == Info(lines[p + 1]);
  }

  /** The same for the `# Disorder` line. */
  lemma {:induction false} MissingDisorder(lines: seq<string>, ws: seq<Written>, name: string,
                                           doms: seq<(string, string)>, bad: string, more: seq<string>)
    requires forall k :: 0 <= k < |ws| ==> Fits(ws[k])
    requires NameFits(name) && NumberPairs(doms) && LabelledRanges(bad, "Disorder").None?
    requires lines == FileLines(ws) + [">" + name + "\n", RangesLine("GlobDoms", doms), bad] + more
    ensures ReadFrom(lines, 0) == Err(NoDisorder(bad))
  {
    var rest := [">" + name + "\n", RangesLine("GlobDoms", doms), bad] + more;
    var p := |lines| - |rest|;
    ReadAfter(lines, ws, rest);
    assert lines[p..] == rest;
    assert lines[p] == rest[0] && lines[p + 1] == rest[1] && lines[p + 2] == rest[2];
    InfosSees(lines);
    MissingDisorderAt(Infos(lines), lines, p, name, doms, bad, Stored([], ws));
  }

  lemma {:induction false} MissingDisorderAt(xs: seq<LineInfo>, lines: seq<string>, p: nat, name: string,
                                             doms: seq<(string, string)>, bad: string, acc: Predictions)
    requires Sees(xs, lines) && p + 2 < |lines| && NameFits(name) && NumberPairs(doms)
    requires LabelledRanges(bad, "Disorder").None?
    requires lines[p] == ">" + name + "\n" && lines[p + 1] == RangesLine("GlobDoms", doms) && lines[p + 2] == bad
    ensures Blocks(xs, p, acc) == Err(NoDisorder(bad))
  {
    HeaderAt(xs, lines, p, name);
    DomsAt(xs, lines, p + 1, doms);
    assert xs[p + 2] == Info(lines[p + 2]);
  }

  // ---------------------------------------------------------------------------------
  // `print_annotations_file`

  const DydxStyle := ScoreStyle(
    "GlobPlotWS (Dydx)",
    "<html>Protein Disorder with GlobPlotWS - raw scores<br/>Above 0.0 indicates disorder</html>",
    Graphline("0.0", "Above 0.0 indicates disorder", "ff0000"),
    "8123cc")

  /** Each sequence with its dydx scores. */
  function DydxScores(data: Predictions): (r: seq<(string, seq<string>)>)
    ensures |r| == |data| && forall i :: 0 <= i < |data| ==> r[i] == (data[i].0, data[i].1.annots)
  {
    seq(|data|, i requires 0 <= i < |data| => (data[i].0, data[i].1.annots))
  }

  method PrintAnnotationsFile(data: Predictions, file: Sink)
    modifies file
    ensures file.text == old(file.text) + Printed(ScoreFileLines(DydxStyle, DydxScores(data)))
  {
    PrintScoreFile(DydxStyle, DydxScores(data), file);
  }

  // ---------------------------------------------------------------------------------
  // `print_features_file`

  /** The colour lines, the blank line and `STARTGROUP` the features file starts with. */
  const FeatureHeader: seq<string> := ["Protein Disorder\tc5b938", "Globular Domain\t876d2a", "", "STARTGROUP\tGlobPlotWS"]

  const EndGroup := "ENDGROUP\tGlobPlotWS"

  /** The header as the source writes it: one string literal split over three lines. */
  method WriteFeatureHeader(file: Sink)
    modifies file
    ensures file.text == old(file.text) + Printed(FeatureHeader)
  {
    var l1, l2, l4 := "Protein Disorder\tc5b938", "Globular Domain\t876d2a", "STARTGROUP\tGlobPlotWS";
    PrintedFour(l1, l2, "", l4);
    file.Write(l1 + "\n" + l2 + "\n" + "\n" + l4 + "\n");
  }

  /** The globular domains, then the disordered regions, each with its description and
      feature type. */
  function Groups(rec: Record): seq<Group> {
    [(rec.doms, "Predicted globular domain", "Globular Domain"),
     (rec.dis, "Probable unstructured peptide region", "Protein Disorder")]
  }

  function FeatureGroups(data: Predictions): (r: seq<(string, seq<Group>)>)
    ensures |r| == |data| && forall i :: 0 <= i < |data| ==> r[i] == (data[i].0, Groups(data[i].1))
  {
    seq(|data|, i requires 0 <= i < |data| => (data[i].0, Groups(data[i].1)))
  }

  predicate RecordPaired(rec: Record) {
    Paired(rec.doms) && Paired(rec.dis)
  }

  /** The features file is written to its `ENDGROUP` line exactly when every region of
      every sequence has a start and an end; it then holds the header, each sequence's
      rows with no blank line between sequences, and the `ENDGROUP` line. */
  lemma {:induction false} FeaturesComplete(data: Predictions)
    ensures var out := FeatureFileLines(FeatureHeader, FeatureGroups(data), false, EndGroup);
      && (out.done <==> forall i :: 0 <= i < |data| ==> RecordPaired(data[i].1))
      && (out.done ==> out.lines == FeatureHeader + PredictorText.BlockLines(FeatureGroups(data), false) + [EndGroup])
  {
    var blocks := FeatureGroups(data);
    FeatureFileSpec(FeatureHeader, blocks, false, EndGroup);
    forall i | 0 <= i < |data| ensures GroupsPaired(blocks[i].1) <==> RecordPaired(data[i].1) {
      var gs := Groups(data[i].1);
      assert gs[0].0 == data[i].1.doms && gs[1].0 == data[i].1.dis;
    }
  }

  /** `print_features_file`: false where a region of fewer than two parts raises
      `IndexError`, with the lines before it written. */
  method PrintFeaturesFile(data: Predictions, file: Sink) returns (ok: bool)
    modifies file
    ensures var out := FeatureFileLines(FeatureHeader, FeatureGroups(data), false, EndGroup);
      file.text == old(file.text) + Printed(out.lines) && ok == out.done
  {
    ghost var t0 := file.text;
    WriteFeatureHeader(file);
    PrintMore(t0, FeatureHeader, BlocksThenEnd(FeatureGroups(data), false, EndGroup).lines, file.text);
    ok := PrintFeatureBlocks(FeatureGroups(data), false, EndGroup, file);
  }
}
