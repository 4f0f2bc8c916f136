/** The DisEMBL converter: `read_file` turns the predictor's output — per sequence a
    `>name` header, `# COILS|REM465|HOTLOOPS a-b, …` region lines, a column header and
    one score row per residue — into an ordered dictionary, and the two writers turn
    that into a Jalview annotation file and a Jalview features file. */
module Disembl {
  import opened Wrappers
  import opened Text
  import opened OrderedMaps
  import opened Streams
  import opened JalviewFormat
  import opened PredictorText

  // ---------------------------------------------------------------------------------
  // Data model

  datatype Category = Coils | Rem465 | Hotloops

  /** The value stored per sequence: `(coils, rem465, hotloops, annots)`. */
  datatype Record = Record(coils: seq<Region>, rem465: seq<Region>, hotloops: seq<Region>, annots: seq<string>)

  /** The `OrderedDict` from sequence name to record. */
  type Predictions = seq<(string, Record)>

  datatype ReadError =
    | NoHeader(line: string)   // the header pattern does not match: `.group` of None
    | BadColumns(line: string) // the column header assertion fails

  const NoRanges := Record([], [], [], [])

  /** The line that must follow the region lines. */
  const ColumnsLine := "# RESIDUE\tCOILS\tREM465\tHOTLOOPS\n"

  // ---------------------------------------------------------------------------------
  // Line patterns

  /** `if match.group(1) == 'COILS': coils = ranges` and so on. */
  function Assign(rec: Record, c: Category, ranges: seq<Region>): (r: Record)
    ensures r.annots == rec.annots
    ensures r.coils == (if c == Coils then ranges else rec.coils)
    ensures r.rem465 == (if c == Rem465 then ranges else rec.rem465)
    ensures r.hotloops == (if c == Hotloops then ranges else rec.hotloops)
  {
    match c
    case Coils => rec.(coils := ranges)
    case Rem465 => rec.(rem465 := ranges)
    case Hotloops => rec.(hotloops := ranges)
  }

  /** `^# (COILS|REM465|HOTLOOPS)\s*((?:\d+-\d+(?:, )?)*)` and the regions of its second
      group. No label is a prefix of another, so at most one alternative applies. */
  function RangeLine(line: string): (r: Option<(Category, seq<Region>)>)
    ensures line == "" ==> r.None?
  {
    var coils, rem465, hotloops := "COILS", "REM465", "HOTLOOPS";
    if LabelledRanges(line, coils).Some? then Some((Coils, ParseRanges(LabelledRanges(line, coils).value)))
    else if LabelledRanges(line, rem465).Some? then Some((Rem465, ParseRanges(LabelledRanges(line, rem465).value)))
    else if LabelledRanges(line, hotloops).Some? then Some((Hotloops, ParseRanges(LabelledRanges(line, hotloops).value)))
    else None
  }

  /** `\d+\.\d+` matched in full. */
  predicate IsDecimal(s: string) {
    var a := RunLength(s, IsDigit);
    0 < a && a + 1 < |s| && s[a] == '.' && AllDigits(s[a + 1..])
  }

  /** A line without the newline `$` may match before. */
  function Chomp(line: string): (r: string)
    ensures r <= line && |line| - 1 <= |r|
  {
    if line != [] && line[|line| - 1] == '\n' then line[..|line| - 1] else line
  }

  /** The REM465 score of a row matching `^[A-Za-z\-](?:\t\d+\.\d+){3}$`, or None. After
      the residue the row is a tab, then three decimals separated by tabs; a decimal
      holds no tab, so splitting at the tabs recovers them. The source takes the third
      field of `line.split()`, which `DataFields` shows is the same value. */
  function DataValue(line: string): (r: Option<string>)
    ensures line == "" ==> r.None?
  {
    var b := Chomp(line);
    if b == [] || !(IsAsciiLetter(b[0]) || b[0] == '-') then None
    else
      var cols := Split(b[1..], "\t");
      if |cols| == 4 && cols[0] == "" && IsDecimal(cols[1]) && IsDecimal(cols[2]) && IsDecimal(cols[3])
      then Some(cols[2])
      else None
  }

  /** Everything the reader may ask of one line, worked out once: the patterns are
      only ever applied to a line through this. */
  datatype LineInfo = LineInfo(text: string, header: Option<string>, range: Option<(Category, seq<Region>)>,
                               columns: bool, data: Option<string>)

  function Info(line: string): LineInfo {
    LineInfo(line, HeaderName(line), RangeLine(line), line == ColumnsLine, DataValue(line))
  }

  function Infos(lines: seq<string>): (xs: seq<LineInfo>)
    ensures |xs| == |lines|
    decreases |lines|
  {
    if lines == [] then [] else [Info(lines[0])] + Infos(lines[1..])
  }

  /** Line `k` as the reader sees it. This is kept out of `Infos`'s contract, and the
      lemmas after it give one part each, so that a proof about a few lines only
      unfolds the pattern it needs. */
  lemma {:induction false} InfosAt(lines: seq<string>, k: nat)
    requires k < |lines|
    ensures Infos(lines)[k] == Info(lines[k])
    decreases k
  {
    if k > 0 {
      InfosAt(lines[1..], k - 1);
    }
  }

  /** `xs` is what the reader sees in `lines`, line by line. */
  ghost predicate Sees(xs: seq<LineInfo>, lines: seq<string>) {
    |xs| == |lines| && forall j :: 0 <= j < |lines| ==> xs[j] == Info(lines[j])
  }

  lemma {:induction false} InfosSees(lines: seq<string>)
    ensures Sees(Infos(lines), lines)
  {
    forall j | 0 <= j < |lines| ensures Infos(lines)[j] == Info(lines[j]) {
      InfosAt(lines, j);
    }
  }

  lemma {:induction false} TextOf(lines: seq<string>, k: nat)
    requires k < |lines|
    ensures Infos(lines)[k].text == lines[k]
  {
    InfosAt(lines, k);
  }

  lemma {:induction false} HeaderOf(lines: seq<string>, k: nat)
    requires k < |lines|
    ensures Infos(lines)[k].header == HeaderName(lines[k])
  {
    InfosAt(lines, k);
  }

  lemma {:induction false} RangeOf(lines: seq<string>, k: nat)
    requires k < |lines|
    ensures Infos(lines)[k].range == RangeLine(lines[k])
  {
    InfosAt(lines, k);
  }

  lemma {:induction false} ColumnsOf(lines: seq<string>, k: nat)
    requires k < |lines|
    ensures Infos(lines)[k].columns == (lines[k] == ColumnsLine)
  {
    InfosAt(lines, k);
  }

  lemma {:induction false} DataOf(lines: seq<string>, k: nat)
    requires k < |lines|
    ensures Infos(lines)[k].data == DataValue(lines[k])
  {
    InfosAt(lines, k);
  }

  /** The line `readline()` returns at index `k`: "" past the end. */
  function LineAt(lines: seq<string>, k: nat): string {
    if k < |lines| then lines[k] else ""
  }

  // ---------------------------------------------------------------------------------
  // What `read_file` computes

  /** The region lines from index `j` on: the record they leave and the index of the
      first line that is not one. */
  function RangesFrom(xs: seq<LineInfo>, j: nat, rec: Record): (r: (Record, nat))
    requires j <= |xs|
    ensures j <= r.1 <= |xs| && (r.1 < |xs| ==> xs[r.1].range.None?)
    ensures r.0.annots == rec.annots
    decreases |xs| - j
  {
    if j < |xs| && xs[j].range.Some? then RangesFrom(xs, j + 1, Assign(rec, xs[j].range.value.0, xs[j].range.value.1))
    else (rec, j)
  }

  /** The score rows from index `j` on: their REM465 values after `vals` and the index
      of the first line that is not one. */
  function DataFrom(xs: seq<LineInfo>, j: nat, vals: seq<string>): (r: (seq<string>, nat))
    requires j <= |xs|
    ensures j <= r.1 <= |xs| && (r.1 < |xs| ==> xs[r.1].data.None?)
    ensures |r.0| == |vals| + (r.1 - j) && r.0[..|vals|] == vals
    decreases |xs| - j
  {
    if j < |xs| && xs[j].data.Some? then
      var r := DataFrom(xs, j + 1, vals + [xs[j].data.value]);
      assert r.0[..|vals| + 1][..|vals|] == vals;
      r
    else (vals, j)
  }

  /** The block whose header is the line at index `i`: its name, its record and the
      index of the line after its score rows; or the error that ends the read. */
  function BlockAt(xs: seq<LineInfo>, i: nat): (r: Result<(string, Record, nat), ReadError>)
    requires i < |xs|
    ensures r.Ok? ==> i < r.value.2 <= |xs|
  {
    if xs[i].header.None? then Err(NoHeader(xs[i].text))
    else
      var (rec, k) := RangesFrom(xs, i + 1, NoRanges);
      if k == |xs| then Err(BadColumns(""))
      else if !xs[k].columns then Err(BadColumns(xs[k].text))
      else
        var (vals, m) := DataFrom(xs, k + 1, []);
        Ok((xs[i].header.value, rec.(annots := vals), m))
  }

  /** The blocks from index `i` on, added to `acc`: blank lines are skipped; any other
      line must start a block; the first line after its score rows starts the next
      round. */
  function Blocks(xs: seq<LineInfo>, i: nat, acc: Predictions): Result<Predictions, ReadError>
    requires i <= |xs|
    decreases |xs| - i, 1
  {
    if i == |xs| then Ok(acc)
    else if xs[i].text == "\n" then Blocks(xs, i + 1, acc)
    else BlockThen(xs, i, acc)
  }

  /** The block starting at line `i` stored, then the blocks after it. */
  function BlockThen(xs: seq<LineInfo>, i: nat, acc: Predictions): Result<Predictions, ReadError>
    requires i < |xs|
    decreases |xs| - i, 0
  {
    match BlockAt(xs, i)
    case Err(e) => Err(e)
    case Ok((name, rec, m)) => Blocks(xs, m, Put(acc, name, rec))
  }

  /** Storing block after block keeps the sequence names distinct. */
  lemma {:induction false} BlocksDistinct(xs: seq<LineInfo>, i: nat, acc: Predictions)
    requires i <= |xs| && DistinctKeys(acc) && Blocks(xs, i, acc).Ok?
    ensures DistinctKeys(Blocks(xs, i, acc).value)
    decreases |xs| - i, 1
  {
    if i < |xs| {
      if xs[i].text == "\n" {
        BlocksDistinct(xs, i + 1, acc);
      } else {
        BlockThenDistinct(xs, i, acc);
      }
    }
  }

  lemma {:induction false} BlockThenDistinct(xs: seq<LineInfo>, i: nat, acc: Predictions)
    requires i < |xs| && DistinctKeys(acc) && BlockThen(xs, i, acc).Ok?
    ensures DistinctKeys(BlockThen(xs, i, acc).value)
    decreases |xs| - i, 0
  {
    var (name, rec, m) := BlockAt(xs, i).value;
    PutDistinct(acc, name, rec);
    BlocksDistinct(xs, m, Put(acc, name, rec));
  }

  /** `read_file` on the lines from index `p` on: a dictionary, so no sequence name
      appears twice in it. */
  function ReadFrom(lines: seq<string>, p: nat): (r: Result<Predictions, ReadError>)
    requires p <= |lines|
    ensures r.Ok? ==> DistinctKeys(r.value)
  {
    if Blocks(Infos(lines), p, []).Ok? then
      BlocksDistinct(Infos(lines), p, []);
      Blocks(Infos(lines), p, [])
    else Blocks(Infos(lines), p, [])
  }

  // ---------------------------------------------------------------------------------
  // `read_file`

  /** Where the cursor stands once the line at index `k` has been read. */
  function After(lines: seq<string>, k: nat): nat {
    if k < |lines| then k + 1 else k
  }

  method ReadFile(file: LineReader) returns (r: Result<Predictions, ReadError>)
    requires file.Valid()
    modifies file
    ensures file.Valid()
    ensures r == ReadFrom(file.lines, old(file.pos))
  {
    ghost var xs := Infos(file.lines);
    InfosSees(file.lines);
    ghost var p0 := file.pos;
    ghost var at := file.pos;
    var result: Predictions := [];
    var line := file.ReadLine();
    while line != ""
      invariant file.Valid() && p0 <= at <= |file.lines|
      invariant line == LineAt(file.lines, at) && file.pos == After(file.lines, at)
      invariant Blocks(xs, at, result) == Blocks(xs, p0, [])
      decreases |file.lines| - at
    {
      assert at < |file.lines| && xs[at].text == line;
      if line == "\n" {
        line := file.ReadLine();
        at := at + 1;
        continue;
      }
      var block;
      block, line := ReadBlock(file, xs, line, at);
      if block.Err? {
        return Err(block.error);
      }
      var (name, rec) := block.value;
      result := Put(result, name, rec);
      at := BlockAt(xs, at).value.2;
    }
    return Ok(result);
  }

  /** One round of the outer loop from the header line on: the name and record stored,
      and the line after the score rows that the next round starts from. */
  method ReadBlock(file: LineReader, ghost xs: seq<LineInfo>, line: string, ghost at: nat)
      returns (block: Result<(string, Record), ReadError>, next: string)
    requires file.Valid() && Sees(xs, file.lines)
    requires at < |file.lines| && line == file.lines[at] && file.pos == at + 1
    modifies file
    ensures file.Valid()
    ensures BlockAt(xs, at).Err? ==> block == Err(BlockAt(xs, at).error)
    ensures BlockAt(xs, at).Ok? ==> var (name, rec, m) := BlockAt(xs, at).value;
      block == Ok((name, rec)) && next == LineAt(file.lines, m) && file.pos == After(file.lines, m)
  {
    assert xs[at] == Info(line);
    var name := HeaderName(line);
    if name.None? {
      return Err(NoHeader(line)), line;
    }
    var rec;
    rec, next := ReadRegions(file, xs);
    ghost var k := RangesFrom(xs, at + 1, NoRanges).1;
    if next != ColumnsLine {
      if k < |xs| {
        assert xs[k] == Info(next);
      }
      return Err(BadColumns(next)), next;
    }
    assert k < |xs| && xs[k].columns;
    var annots;
    annots, next := ReadRows(file, xs);
    block := Ok((name.value, rec.(annots := annots)));
  }

  /** The `while True` loop over the region lines: the record they leave, and the first
      line that is not one. */
  method ReadRegions(file: LineReader, ghost xs: seq<LineInfo>) returns (rec: Record, line: string)
    requires file.Valid() && |xs| == |file.lines|
    requires forall j :: 0 <= j < |xs| ==> xs[j].range == RangeLine(file.lines[j])
    modifies file
    ensures file.Valid()
    ensures rec == RangesFrom(xs, old(file.pos), NoRanges).0
    ensures line == LineAt(file.lines, RangesFrom(xs, old(file.pos), NoRanges).1)
    ensures file.pos == After(file.lines, RangesFrom(xs, old(file.pos), NoRanges).1)
  {
    ghost var p0 := file.pos;
    ghost var at := file.pos;
    rec := NoRanges;
    line := file.ReadLine();
    var m := RangeLine(line);
    while m.Some?
      invariant file.Valid() && p0 <= at <= |file.lines|
      invariant line == LineAt(file.lines, at) && file.pos == After(file.lines, at)
      invariant m == RangeLine(line)
      invariant RangesFrom(xs, at, rec) == RangesFrom(xs, p0, NoRanges)
      decreases |file.lines| - at
    {
      assert at < |file.lines| && xs[at].range == m;
      RangesGo(xs, at, rec, m.value);
      rec := Assign(rec, m.value.0, m.value.1);
      line := file.ReadLine();
      m := RangeLine(line);
      at := at + 1;
    }
    if at < |file.lines| {
      assert xs[at].range == m;
    }
    RangesEnd(xs, at, rec);
  }

  lemma {:induction false} RangesGo(xs: seq<LineInfo>, j: nat, rec: Record, m: (Category, seq<Region>))
    requires j < |xs| && xs[j].range == Some(m)
    ensures RangesFrom(xs, j, rec) == RangesFrom(xs, j + 1, Assign(rec, m.0, m.1))
  {
  }

  lemma {:induction false} RangesEnd(xs: seq<LineInfo>, j: nat, rec: Record)
    requires j <= |xs| && (j < |xs| ==> xs[j].range.None?)
    ensures RangesFrom(xs, j, rec) == (rec, j)
  {
  }

  /** The `readline` after the column header and the loop over the score rows: their
      REM465 values, and the first line that is not one. */
  method ReadRows(file: LineReader, ghost xs: seq<LineInfo>) returns (annots: seq<string>, line: string)
    requires file.Valid() && |xs| == |file.lines|
    requires forall j :: 0 <= j < |xs| ==> xs[j].data == DataValue(file.lines[j])
    modifies file
    ensures file.Valid()
    ensures annots == DataFrom(xs, old(file.pos), []).0
    ensures line == LineAt(file.lines, DataFrom(xs, old(file.pos), []).1)
    ensures file.pos == After(file.lines, DataFrom(xs, old(file.pos), []).1)
  {
    ghost var p0 := file.pos;
    ghost var at := file.pos;
    line := file.ReadLine();
    annots := [];
    while line != ""
      invariant file.Valid() && p0 <= at <= |file.lines|
      invariant line == LineAt(file.lines, at) && file.pos == After(file.lines, at)
      invariant DataFrom(xs, at, annots) == DataFrom(xs, p0, [])
      decreases |file.lines| - at
    {
      var v := DataValue(line);
      assert xs[at].data == v;
      if v.None? {
        DataEnd(xs, at, annots);
        return;
      }
      DataGo(xs, at, annots, v.value);
      annots := annots + [v.value];
      line := file.ReadLine();
      at := at + 1;
    }
    assert at == |file.lines|;
    DataEnd(xs, at, annots);
  }

  lemma {:induction false} DataGo(xs: seq<LineInfo>, j: nat, vals: seq<string>, v: string)
    requires j < |xs| && xs[j].data == Some(v)
    ensures DataFrom(xs, j, vals) == DataFrom(xs, j + 1, vals + [v])
  {
  }

  lemma {:induction false} DataEnd(xs: seq<LineInfo>, j: nat, vals: seq<string>)
    requires j <= |xs| && (j < |xs| ==> xs[j].data.None?)
    ensures DataFrom(xs, j, vals) == (vals, j)
  {
  }

  // ---------------------------------------------------------------------------------
  // Properties of the reader

  /** A decimal is made of digits and one point. */
  lemma {:induction false} DecimalChars(s: string)
    requires IsDecimal(s)
    ensures s != [] && forall i :: 0 <= i < |s| ==> IsDigit(s[i]) || s[i] == '.'
  {
    var a := RunLength(s, IsDigit);
    forall i | 0 <= i < |s| ensures IsDigit(s[i]) || s[i] == '.' {
      if i > a {
        assert s[i] == s[a + 1..][i - a - 1];
      }
    }
  }

  /** A decimal is one word of `split()`. */
  lemma {:induction false} DecimalWord(s: string)
    requires IsDecimal(s)
    ensures s != [] && NoSpace(s) && Excludes(s, '\t')
  {
    DecimalChars(s);
  }

  /** What `$` leaves after the part of the line the pattern matched: nothing, or the
      newline. */
  lemma {:induction false} ChompTail(line: string)
    ensures var t := line[|Chomp(line)|..]; line == Chomp(line) + t && (t == "" || t == "\n")
  {
  }

  /** `line.split()` on a row the data pattern accepts has four fields, the third of
      which is the REM465 score the model takes from the tab-separated columns. */
  lemma {:induction false} DataFields(line: string)
    requires DataValue(line).Some?
    ensures var fields := SplitWhitespace(line); |fields| == 4 && fields[2] == DataValue(line).value
  {
    var r, c1, c2, c3, tail := DataParts(line);
    RowWords(r, c1, c2, c3, tail);
  }

  /** The pieces of a row the data pattern accepts. */
  lemma {:induction false} DataParts(line: string) returns (r: char, c1: string, c2: string, c3: string, tail: string)
    requires DataValue(line).Some?
    ensures !IsSpace(r) && IsDecimal(c1) && IsDecimal(c2) && IsDecimal(c3) && (tail == "" || tail == "\n")
    ensures line == [r] + ("\t" + c1 + "\t" + c2 + "\t" + c3) + tail && DataValue(line) == Some(c2)
  {
    var b := Chomp(line);
    var rest := b[1..];
    var cols := Split(rest, "\t");
    FourColumns(rest);
    r, c1, c2, c3 := b[0], cols[1], cols[2], cols[3];
    assert IsAsciiLetter(r) || r == '-';
    assert !IsSpace(r);
    ChompTail(line);
    tail := line[|b|..];
    assert line == [b[0]] + rest + tail;
  }

  /** Text that splits at its tabs into an empty field and three more is a tab before
      each of the three. */
  lemma {:induction false} FourColumns(rest: string)
    requires var cols := Split(rest, "\t"); |cols| == 4 && cols[0] == ""
    ensures var cols := Split(rest, "\t"); rest == "\t" + cols[1] + "\t" + cols[2] + "\t" + cols[3]
  {
    JoinSplit(rest, "\t");
    JoinOfFour("\t", Split(rest, "\t"));
  }

  lemma {:induction false} JoinOfFour(sep: string, ws: seq<string>)
    requires |ws| == 4 && ws[0] == ""
    ensures Join(sep, ws) == sep + ws[1] + sep + ws[2] + sep + ws[3]
  {
    assert ws == [ws[0], ws[1], ws[2], ws[3]];
    JoinFour(sep, ws[0], ws[1], ws[2], ws[3]);
  }

  /** A residue and three decimals, separated by tabs and followed by at most a
      newline, are the four words of `split()`. */
  lemma {:induction false} RowWords(r: char, a: string, b: string, c: string, tail: string)
    requires !IsSpace(r) && IsDecimal(a) && IsDecimal(b) && IsDecimal(c)
    requires tail == "" || tail == "\n"
    ensures SplitWhitespace([r] + ("\t" + a + "\t" + b + "\t" + c) + tail) == [[r], a, b, c]
  {
    DecimalWord(a);
    DecimalWord(b);
    DecimalWord(c);
    var words := [[r], a, b, c];
    JoinFour("\t", [r], a, b, c);
    forall i | 0 <= i < |words| ensures words[i] != "" && NoSpace(words[i]) {
      if i == 0 { assert words[i] == [r]; }
    }
    assert forall i :: 0 <= i < |tail| ==> IsSpace(tail[i]);
    assert "\t"[0] == '\t';
    SplitWhitespaceJoinBy(words, "\t", tail);
    var cols := "\t" + a + "\t" + b + "\t" + c;
    assert Join("\t", words) == [r] + cols;
  }

  /** The regions the last line in `[j, k)` that names the category gives it, or None:
      found by looking backwards from `k`. */
  function LastNamed(xs: seq<LineInfo>, j: nat, k: nat, c: Category): Option<seq<Region>>
    requires j <= k <= |xs|
    decreases k - j
  {
    if k == j then None
    else if xs[k - 1].range.Some? && xs[k - 1].range.value.0 == c then Some(xs[k - 1].range.value.1)
    else LastNamed(xs, j, k - 1, c)
  }

  /** Looking from `j` rather than `j + 1` only adds line `j`, the earliest. */
  lemma {:induction false} LastNamedFront(xs: seq<LineInfo>, j: nat, k: nat, c: Category)
    requires j < k <= |xs|
    ensures LastNamed(xs, j, k, c) == match LastNamed(xs, j + 1, k, c)
      case Some(r) => Some(r)
      case None => if xs[j].range.Some? && xs[j].range.value.0 == c then Some(xs[j].range.value.1) else None
    decreases k - j
  {
    if k > j + 1 {
      LastNamedFront(xs, j, k - 1, c);
    }
  }

  /** The regions of the category in a record. */
  function Field(rec: Record, c: Category): seq<Region> {
    match c
    case Coils => rec.coils
    case Rem465 => rec.rem465
    case Hotloops => rec.hotloops
  }

  /** The region lines: each category holds what the last line naming it gave it, and
      a category no line names keeps what it had. */
  lemma {:induction false} RangesLastWins(xs: seq<LineInfo>, j: nat, rec: Record, c: Category)
    requires j <= |xs|
    ensures var (r, k) := RangesFrom(xs, j, rec);
      Field(r, c) == match LastNamed(xs, j, k, c) case None => Field(rec, c) case Some(g) => g
    decreases |xs| - j
  {
    if j < |xs| && xs[j].range.Some? {
      var (cat, ranges) := xs[j].range.value;
      RangesLastWins(xs, j + 1, Assign(rec, cat, ranges), c);
      LastNamedFront(xs, j, RangesFrom(xs, j, rec).1, c);
    }
  }

  /** The regions a region line gives are digit pairs, except possibly a last one
      holding only an empty string. */
  lemma {:induction false} RangeLineRegions(line: string)
    requires RangeLine(line).Some?
    ensures var r := RangeLine(line).value.1;
      forall k :: 0 <= k < |r| ==>
        (|r[k]| == 2 && r[k][0] != "" && AllDigits(r[k][0]) && r[k][1] != "" && AllDigits(r[k][1]))
        || (k == |r| - 1 && r[k] == [""])
  {
    var coils, rem465, hotloops := "COILS", "REM465", "HOTLOOPS";
    if LabelledRanges(line, coils).Some? {
      LabelledRegions(line, coils);
    } else if LabelledRanges(line, rem465).Some? {
      LabelledRegions(line, rem465);
    } else {
      LabelledRegions(line, hotloops);
    }
  }

  /** A header followed by anything but the column header line fails the column
      assertion, whatever the region lines before it. */
  lemma {:induction false} MissingColumns(lines: seq<string>, i: nat)
    requires i < |lines| && HeaderName(lines[i]).Some?
    requires var k := RangesFrom(Infos(lines), i + 1, NoRanges).1; k == |lines| || lines[k] != ColumnsLine
    ensures BlockAt(Infos(lines), i).Err? && BlockAt(Infos(lines), i).error.BadColumns?
  {
    HeaderOf(lines, i);
    var k := RangesFrom(Infos(lines), i + 1, NoRanges).1;
    if k < |lines| {
      ColumnsOf(lines, k);
    }
  }

  // ---------------------------------------------------------------------------------
  // Reading back what the predictor writes

  /** A score row of the predictor: the residue and its three scores. */
  datatype ScoreRow = ScoreRow(residue: char, coil: string, rem465: string, hotloop: string)

  predicate RowFits(s: ScoreRow) {
    (IsAsciiLetter(s.residue) || s.residue == '-') && IsDecimal(s.coil) && IsDecimal(s.rem465) && IsDecimal(s.hotloop)
  }

  function RowLine(s: ScoreRow): string {
    [s.residue] + ("\t" + s.coil + "\t" + s.rem465 + "\t" + s.hotloop) + "\n"
  }

  /** What the predictor reports for one sequence. */
  datatype Written = Written(name: string, coils: seq<(string, string)>, rem465: seq<(string, string)>,
                             hotloops: seq<(string, string)>, rows: seq<ScoreRow>)

  predicate Fits(w: Written) {
    && w.name != [] && !IsSpace(w.name[0]) && !IsSpace(w.name[|w.name| - 1]) && Excludes(w.name, '\n')
    && NumberPairs(w.coils) && NumberPairs(w.rem465) && NumberPairs(w.hotloops)
    && forall i :: 0 <= i < |w.rows| ==> RowFits(w.rows[i])
  }

  /** Its block of lines: the header, the three region lines, the column header and the
      score rows. */
  function WrittenBlock(w: Written): (r: seq<string>)
    ensures |r| == 5 + |w.rows|
  {
    [">" + w.name + "\n", RangesLine("COILS", w.coils), RangesLine("REM465", w.rem465),
     RangesLine("HOTLOOPS", w.hotloops), ColumnsLine] + seq(|w.rows|, i requires 0 <= i < |w.rows| => RowLine(w.rows[i]))
  }

  /** The record that block should give. */
  function WrittenRecord(w: Written): Record {
    Record(PairRegions(w.coils), PairRegions(w.rem465), PairRegions(w.hotloops),
           seq(|w.rows|, i requires 0 <= i < |w.rows| => w.rows[i].rem465))
  }

  lemma {:induction false} RowLineData(s: ScoreRow)
    requires RowFits(s)
    ensures DataValue(RowLine(s)) == Some(s.rem465)
  {
    var cols := "\t" + s.coil + "\t" + s.rem465 + "\t" + s.hotloop;
    var b := [s.residue] + cols;
    assert Chomp(RowLine(s)) == b;
    assert b[1..] == cols;
    DecimalWord(s.coil);
    DecimalWord(s.rem465);
    DecimalWord(s.hotloop);
    var parts := ["", s.coil, s.rem465, s.hotloop];
    JoinFour("\t", "", s.coil, s.rem465, s.hotloop);
    assert Join("\t", parts) == cols;
    forall i | 0 <= i < |parts| ensures Excludes(parts[i], "\t"[0]) {
    }
    SplitJoin(parts, "\t");
  }

  lemma {:induction false} CoilsLineWritten(pairs: seq<(string, string)>)
    requires NumberPairs(pairs)
    ensures RangeLine(RangesLine("COILS", pairs)) == Some((Coils, PairRegions(pairs)))
  {
    LabelledRoundTrip("COILS", pairs);
  }

  lemma {:induction false} Rem465LineWritten(pairs: seq<(string, string)>)
    requires NumberPairs(pairs)
    ensures RangeLine(RangesLine("REM465", pairs)) == Some((Rem465, PairRegions(pairs)))
  {
    var r := "REM465";
    LabelledRoundTrip(r, pairs);
    LabelledMismatch(RangesLine(r, pairs), "COILS", 0);
  }

  lemma {:induction false} HotloopsLineWritten(pairs: seq<(string, string)>)
    requires NumberPairs(pairs)
    ensures RangeLine(RangesLine("HOTLOOPS", pairs)) == Some((Hotloops, PairRegions(pairs)))
  {
    var h := "HOTLOOPS";
    LabelledRoundTrip(h, pairs);
    LabelledMismatch(RangesLine(h, pairs), "COILS", 0);
    LabelledMismatch(RangesLine(h, pairs), "REM465", 0);
  }

  /** The column header is not a region line: the region loop stops at it. */
  lemma {:induction false} ColumnsNotRanges()
    ensures RangeLine(ColumnsLine) == None
  {
    assert ColumnsLine[2] == 'R' && ColumnsLine[4] == 'S';
    LabelledMismatch(ColumnsLine, "COILS", 0);
    LabelledMismatch(ColumnsLine, "REM465", 2);
    LabelledMismatch(ColumnsLine, "HOTLOOPS", 0);
  }

  /** The lines of a written block where the block stands in the file. */
  lemma {:induction false} WrittenBlockAt(lines: seq<string>, i: nat, w: Written)
    requires i + 5 + |w.rows| <= |lines| && lines[i..i + 5 + |w.rows|] == WrittenBlock(w)
    ensures lines[i] == ">" + w.name + "\n"
    ensures lines[i + 1] == RangesLine("COILS", w.coils)
    ensures lines[i + 2] == RangesLine("REM465", w.rem465)
    ensures lines[i + 3] == RangesLine("HOTLOOPS", w.hotloops)
    ensures lines[i + 4] == ColumnsLine
    ensures forall k :: 0 <= k < |w.rows| ==> lines[i + 5 + k] == RowLine(w.rows[k])
  {
    var block := WrittenBlock(w);
    forall k | 0 <= k < |block| ensures lines[i + k] == block[k] {
      assert lines[i + k] == lines[i..i + 5 + |w.rows|][k];
    }
    assert block[0] == ">" + w.name + "\n" && block[1] == RangesLine("COILS", w.coils);
    assert block[2] == RangesLine("REM465", w.rem465) && block[3] == RangesLine("HOTLOOPS", w.hotloops);
    assert block[4] == ColumnsLine;
    assert lines[i] == block[0] && lines[i + 1] == block[1] && lines[i + 2] == block[2];
    assert lines[i + 3] == block[3] && lines[i + 4] == block[4];
    forall k | 0 <= k < |w.rows| ensures lines[i + 5 + k] == RowLine(w.rows[k]) {
      assert lines[i + 5 + k] == block[5 + k];
    }
  }

  lemma {:induction false} TextAt(lines: seq<string>, k: nat)
    requires k < |lines|
    ensures Infos(lines)[k].text == lines[k]
  {
    TextOf(lines, k);
  }

  lemma {:induction false} HeaderAt(lines: seq<string>, k: nat, name: string)
    requires k < |lines| && lines[k] == ">" + name + "\n"
    requires name != [] && !IsSpace(name[0]) && !IsSpace(name[|name| - 1]) && Excludes(name, '\n')
    ensures Infos(lines)[k].header == Some(name)
  {
    HeaderOf(lines, k);
    HeaderLine(name);
  }

  lemma {:induction false} HeaderLine(name: string)
    requires name != [] && !IsSpace(name[0]) && !IsSpace(name[|name| - 1]) && Excludes(name, '\n')
    ensures HeaderName(">" + name + "\n") == Some(name)
  {
    HeaderRoundTrip("", name, "\n");
    assert ">" + "" + name + "\n" == ">" + name + "\n";
  }

  lemma {:induction false} RangeAt(lines: seq<string>, k: nat, expected: Option<(Category, seq<Region>)>)
    requires k < |lines| && RangeLine(lines[k]) == expected
    ensures Infos(lines)[k].range == expected
  {
    RangeOf(lines, k);
  }

  lemma {:induction false} ColumnsAt(lines: seq<string>, k: nat)
    requires k < |lines| && lines[k] == ColumnsLine
    ensures Infos(lines)[k].columns && Infos(lines)[k].range == None
  {
    ColumnsOf(lines, k);
    RangeOf(lines, k);
    ColumnsNotRanges();
  }

  lemma {:induction false} DataAt(lines: seq<string>, k: nat, v: Option<string>)
    requires k < |lines| && DataValue(lines[k]) == v
    ensures Infos(lines)[k].data == v
  {
    DataOf(lines, k);
  }

  /** What the reader sees in each line of a written block. */
  lemma {:induction false} BlockInfos(lines: seq<string>, i: nat, w: Written)
    requires Fits(w) && i + 5 + |w.rows| <= |lines| && lines[i..i + 5 + |w.rows|] == WrittenBlock(w)
    ensures var xs := Infos(lines);
      && xs[i].header == Some(w.name)
      && xs[i + 1].range == Some((Coils, PairRegions(w.coils)))
      && xs[i + 2].range == Some((Rem465, PairRegions(w.rem465)))
      && xs[i + 3].range == Some((Hotloops, PairRegions(w.hotloops)))
      && xs[i + 4].range == None && xs[i + 4].columns
      && forall k :: 0 <= k < |w.rows| ==> xs[i + 5 + k].data == Some(w.rows[k].rem465)
  {
    BlockHeadInfos(lines, i, w);
    BlockRowInfos(lines, i, w);
  }

  lemma {:induction false} BlockHeadInfos(lines: seq<string>, i: nat, w: Written)
    requires Fits(w) && i + 5 + |w.rows| <= |lines| && lines[i..i + 5 + |w.rows|] == WrittenBlock(w)
    ensures var xs := Infos(lines);
      && xs[i].header == Some(w.name)
      && xs[i + 1].range == Some((Coils, PairRegions(w.coils)))
      && xs[i + 2].range == Some((Rem465, PairRegions(w.rem465)))
      && xs[i + 3].range == Some((Hotloops, PairRegions(w.hotloops)))
      && xs[i + 4].range == None && xs[i + 4].columns
  {
    WrittenBlockAt(lines, i, w);
    HeaderAt(lines, i, w.name);
    CoilsAt(lines, i + 1, w.coils);
    Rem465At(lines, i + 2, w.rem465);
    HotloopsAt(lines, i + 3, w.hotloops);
    ColumnsAt(lines, i + 4);
  }

  lemma {:induction false} CoilsAt(lines: seq<string>, k: nat, pairs: seq<(string, string)>)
    requires k < |lines| && lines[k] == RangesLine("COILS", pairs) && NumberPairs(pairs)
    ensures Infos(lines)[k].range == Some((Coils, PairRegions(pairs)))
  {
    CoilsLineWritten(pairs);
    RangeAt(lines, k, Some((Coils, PairRegions(pairs))));
  }

  lemma {:induction false} Rem465At(lines: seq<string>, k: nat, pairs: seq<(string, string)>)
    requires k < |lines| && lines[k] == RangesLine("REM465", pairs) && NumberPairs(pairs)
    ensures Infos(lines)[k].range == Some((Rem465, PairRegions(pairs)))
  {
    Rem465LineWritten(pairs);
    RangeAt(lines, k, Some((Rem465, PairRegions(pairs))));
  }

  lemma {:induction false} HotloopsAt(lines: seq<string>, k: nat, pairs: seq<(string, string)>)
    requires k < |lines| && lines[k] == RangesLine("HOTLOOPS", pairs) && NumberPairs(pairs)
    ensures Infos(lines)[k].range == Some((Hotloops, PairRegions(pairs)))
  {
    HotloopsLineWritten(pairs);
    RangeAt(lines, k, Some((Hotloops, PairRegions(pairs))));
  }

  lemma {:induction false} BlockRowInfos(lines: seq<string>, i: nat, w: Written)
    requires Fits(w) && i + 5 + |w.rows| <= |lines| && lines[i..i + 5 + |w.rows|] == WrittenBlock(w)
    ensures forall k :: 0 <= k < |w.rows| ==> Infos(lines)[i + 5 + k].data == Some(w.rows[k].rem465)
  {
    forall k | 0 <= k < |w.rows| ensures Infos(lines)[i + 5 + k].data == Some(w.rows[k].rem465) {
      RowAt(lines, i, w, k);
      RowDataAt(lines, i + 5 + k, w.rows[k]);
    }
  }

  lemma {:induction false} RowDataAt(lines: seq<string>, k: nat, s: ScoreRow)
    requires k < |lines| && lines[k] == RowLine(s) && RowFits(s)
    ensures Infos(lines)[k].data == Some(s.rem465)
  {
    RowLineData(s);
    DataAt(lines, k, Some(s.rem465));
  }

  lemma {:induction false} RowAt(lines: seq<string>, i: nat, w: Written, k: nat)
    requires i + 5 + |w.rows| <= |lines| && lines[i..i + 5 + |w.rows|] == WrittenBlock(w)
    requires k < |w.rows|
    ensures lines[i + 5 + k] == RowLine(w.rows[k])
  {
    WrittenBlockAt(lines, i, w);
  }

  /** A header is not a score row. */
  lemma {:induction false} HeaderNotData(name: string)
    ensures DataValue(">" + name + "\n").None?
  {
    assert (">" + name + "\n")[0] == '>';
  }

  /** The three region lines and the column header. */
  lemma {:induction false} RegionsRead(xs: seq<LineInfo>, j: nat, rec: Record)
    requires j + 3 < |xs|
    requires xs[j].range == Some((Coils, rec.coils)) && xs[j + 1].range == Some((Rem465, rec.rem465))
    requires xs[j + 2].range == Some((Hotloops, rec.hotloops)) && xs[j + 3].range == None
    ensures RangesFrom(xs, j, NoRanges) == (rec.(annots := []), j + 3)
  {
    var r1 := Record(rec.coils, [], [], []);
    var r2 := Record(rec.coils, rec.rem465, [], []);
    var r3 := rec.(annots := []);
    assert RangesFrom(xs, j + 3, r3) == (r3, j + 3);
    assert RangesFrom(xs, j + 2, r2) == RangesFrom(xs, j + 3, r3);
    assert RangesFrom(xs, j + 1, r1) == RangesFrom(xs, j + 2, r2);
    assert RangesFrom(xs, j, NoRanges) == RangesFrom(xs, j + 1, r1);
  }

  /** A run of score rows gives their REM465 scores and ends where they end. */
  lemma {:induction false} DataRun(xs: seq<LineInfo>, j: nat, vs: seq<string>, vals: seq<string>)
    requires j + |vs| <= |xs|
    requires forall i :: 0 <= i < |vs| ==> xs[j + i].data == Some(vs[i])
    requires j + |vs| < |xs| ==> xs[j + |vs|].data.None?
    ensures DataFrom(xs, j, vals) == (vals + vs, j + |vs|)
    decreases |vs|
  {
    if vs == [] {
      assert vals + vs == vals;
    } else {
      assert xs[j + 0].data == Some(vs[0]);
      DataRun(xs, j + 1, vs[1..], vals + [vs[0]]);
      assert (vals + [vs[0]]) + vs[1..] == vals + vs;
    }
  }

  /** What the reader sees in the lines of a block as the predictor writes it, and a
      next line, if any, that is not a score row. */
  ghost predicate BlockSeenAt(xs: seq<LineInfo>, i: nat, w: Written) {
    && i + 5 + |w.rows| <= |xs|
    && xs[i].header == Some(w.name)
    && xs[i + 1].range == Some((Coils, PairRegions(w.coils)))
    && xs[i + 2].range == Some((Rem465, PairRegions(w.rem465)))
    && xs[i + 3].range == Some((Hotloops, PairRegions(w.hotloops)))
    && xs[i + 4].range == None && xs[i + 4].columns
    && (forall k :: 0 <= k < |w.rows| ==> xs[i + 5 + k].data == Some(w.rows[k].rem465))
    && (i + 5 + |w.rows| < |xs| ==> xs[i + 5 + |w.rows|].data.None?)
  }

  /** Such a block reads back as its record, and the read goes on after its last row. */
  lemma {:induction false} BlockSeen(xs: seq<LineInfo>, i: nat, w: Written)
    requires BlockSeenAt(xs, i, w)
    ensures BlockAt(xs, i) == Ok((w.name, WrittenRecord(w), i + 5 + |w.rows|))
  {
    var rec := WrittenRecord(w);
    RegionsRead(xs, i + 1, rec);
    DataRun(xs, i + 5, rec.annots, []);
    assert [] + rec.annots == rec.annots;
  }

  /** A predictor output file: every block, each followed by a blank line when `blank`. */
  function FileLines(ws: seq<Written>, blank: bool): seq<string>
    decreases |ws|, 1
  {
    if ws == [] then [] else BlockFollowed(ws, blank)
  }

  /** The first block, its blank line when `blank`, then the rest of the file. */
  function BlockFollowed(ws: seq<Written>, blank: bool): seq<string>
    requires ws != []
    decreases |ws|, 0
  {
    WrittenBlock(ws[0]) + (if blank then ["\n"] else []) + FileLines(ws[1..], blank)
  }

  /** The dictionary after storing each block's record under its name, in order. */
  function Stored(acc: Predictions, ws: seq<Written>): Predictions
    decreases |ws|
  {
    if ws == [] then acc else Stored(Put(acc, ws[0].name, WrittenRecord(ws[0])), ws[1..])
  }

  /** What the reader sees in a predictor output file from index `i` on. */
  ghost predicate FileSeen(xs: seq<LineInfo>, i: nat, ws: seq<Written>, blank: bool)
    decreases |ws|, 1
  {
    if ws == [] then i == |xs| else BlockSeenThen(xs, i, ws, blank)
  }

  /** The first block seen, then the rest of the file. */
  ghost predicate BlockSeenThen(xs: seq<LineInfo>, i: nat, ws: seq<Written>, blank: bool)
    requires ws != []
    decreases |ws|, 0
  {
    var m := i + 5 + |ws[0].rows|;
    && i < |xs| && xs[i].text != "\n" && BlockSeenAt(xs, i, ws[0])
    && if blank then m < |xs| && xs[m].text == "\n" && FileSeen(xs, m + 1, ws[1..], blank)
       else FileSeen(xs, m, ws[1..], blank)
  }

  /** The loop over such lines stores every block under its name, in order. */
  lemma {:induction false} BlocksSeen(xs: seq<LineInfo>, i: nat, ws: seq<Written>, blank: bool, acc: Predictions)
    requires i <= |xs| && FileSeen(xs, i, ws, blank)
    ensures Blocks(xs, i, acc) == Ok(Stored(acc, ws))
    decreases |ws|
  {
    if ws != [] {
      var m := i + 5 + |ws[0].rows|;
      var acc' := Put(acc, ws[0].name, WrittenRecord(ws[0]));
      var rest := Ok(Stored(acc', ws[1..]));
      SeenFirst(xs, i, ws, blank);
      if blank {
        BlocksSeen(xs, m + 1, ws[1..], blank, acc');
        BlocksSkip(xs, m, acc');
      } else {
        BlocksSeen(xs, m, ws[1..], blank, acc');
      }
      assert Blocks(xs, m, acc') == rest;
      StoredFirst(xs, i, ws[0], acc);
      assert Stored(acc, ws) == Stored(acc', ws[1..]);
    }
  }

  /** The first block of such lines, and where the rest starts. */
  lemma {:induction false} SeenFirst(xs: seq<LineInfo>, i: nat, ws: seq<Written>, blank: bool)
    requires ws != [] && FileSeen(xs, i, ws, blank)
    ensures var m := i + 5 + |ws[0].rows|;
      && i < |xs| && xs[i].text != "\n" && BlockSeenAt(xs, i, ws[0])
      && (blank ==> m < |xs| && xs[m].text == "\n" && FileSeen(xs, m + 1, ws[1..], blank))
      && (!blank ==> FileSeen(xs, m, ws[1..], blank))
  {
    assert BlockSeenThen(xs, i, ws, blank);
  }

  /** A block seen as written is stored under its name, and the loop goes on after it. */
  lemma {:induction false} StoredFirst(xs: seq<LineInfo>, i: nat, w: Written, acc: Predictions)
    requires i < |xs| && xs[i].text != "\n" && BlockSeenAt(xs, i, w)
    ensures var m := i + 5 + |w.rows|;
      m <= |xs| && Blocks(xs, i, acc) == Blocks(xs, m, Put(acc, w.name, WrittenRecord(w)))
  {
    BlockSeen(xs, i, w);
    BlocksTake(xs, i, acc, w.name, WrittenRecord(w), i + 5 + |w.rows|);
  }

  /** The lines of a predictor output file are seen as such. */
  lemma {:induction false} FileSeenOf(lines: seq<string>, i: nat, ws: seq<Written>, blank: bool)
    requires forall k :: 0 <= k < |ws| ==> Fits(ws[k])
    requires i <= |lines| && lines[i..] == FileLines(ws, blank)
    ensures FileSeen(Infos(lines), i, ws, blank)
    decreases |ws|
  {
    if ws == [] {
      assert i == |lines|;
    } else {
      var m := i + 5 + |ws[0].rows|;
      BlockSeenIn(lines, i, ws, blank);
      FitsTail(ws);
      if blank {
        FileSeenOf(lines, m + 1, ws[1..], blank);
      } else {
        FileSeenOf(lines, m, ws[1..], blank);
      }
      FileSeenCons(Infos(lines), i, ws, blank);
    }
  }

  /** One block seen, then the rest of the file. */
  lemma {:induction false} FileSeenCons(xs: seq<LineInfo>, i: nat, ws: seq<Written>, blank: bool)
    requires ws != [] && i < |xs| && xs[i].text != "\n" && BlockSeenAt(xs, i, ws[0])
    requires var m := i + 5 + |ws[0].rows|;
      && (blank ==> m < |xs| && xs[m].text == "\n" && FileSeen(xs, m + 1, ws[1..], blank))
      && (!blank ==> FileSeen(xs, m, ws[1..], blank))
    ensures FileSeen(xs, i, ws, blank)
  {
  }

  /** The first block of the rest of the file is seen as written, and what follows it. */
  lemma {:induction false} BlockSeenIn(lines: seq<string>, i: nat, ws: seq<Written>, blank: bool)
    requires ws != [] && Fits(ws[0]) && i <= |lines| && lines[i..] == FileLines(ws, blank)
    ensures var xs, m := Infos(lines), i + 5 + |ws[0].rows|;
      && i < |xs| && xs[i].text != "\n" && BlockSeenAt(xs, i, ws[0])
      && (blank ==> m < |xs| && xs[m].text == "\n" && lines[m + 1..] == FileLines(ws[1..], blank))
      && (!blank ==> m <= |lines| && lines[m..] == FileLines(ws[1..], blank))
  {
    BlockStep(lines, i, ws, blank);
    BlockInfos(lines, i, ws[0]);
  }

  lemma {:induction false} FitsTail(ws: seq<Written>)
    requires ws != [] && forall k :: 0 <= k < |ws| ==> Fits(ws[k])
    ensures forall k :: 0 <= k < |ws| - 1 ==> Fits(ws[1..][k])
  {
    forall k | 0 <= k < |ws| - 1 ensures Fits(ws[1..][k]) {
      assert ws[1..][k] == ws[k + 1];
    }
  }

  /** A blank line between blocks is skipped. */
  lemma {:induction false} BlocksSkip(xs: seq<LineInfo>, i: nat, acc: Predictions)
    requires i < |xs| && xs[i].text == "\n"
    ensures Blocks(xs, i, acc) == Blocks(xs, i + 1, acc)
  {
  }

  /** A block that reads is stored and the loop goes on after it. */
  lemma {:induction false} BlocksTake(xs: seq<LineInfo>, i: nat, acc: Predictions, name: string, rec: Record, m: nat)
    requires i < |xs| && xs[i].text != "\n" && BlockAt(xs, i) == Ok((name, rec, m))
    ensures m <= |xs| && Blocks(xs, i, acc) == Blocks(xs, m, Put(acc, name, rec))
  {
  }

  /** Where the first block of the rest of the file ends and what follows it. */
  lemma {:induction false} BlockStep(lines: seq<string>, i: nat, ws: seq<Written>, blank: bool)
    requires ws != [] && i <= |lines| && lines[i..] == FileLines(ws, blank)
    ensures var m := i + 5 + |ws[0].rows|;
      && m <= |lines| && lines[i..m] == WrittenBlock(ws[0]) && Infos(lines)[i].text != "\n"
      && (m < |lines| ==> Infos(lines)[m].data.None?)
      && (blank ==> m < |lines| && Infos(lines)[m].text == "\n" && lines[m + 1..] == FileLines(ws[1..], blank))
      && (!blank ==> lines[m..] == FileLines(ws[1..], blank))
  {
    var m := i + 5 + |ws[0].rows|;
    FileSplit(lines, i, ws, blank);
    TextOf(lines, i);
    assert lines[i][0] == '>';
    if m < |lines| {
      DataOf(lines, m);
      if blank {
        TextOf(lines, m);
        assert Chomp("\n") == "";
      } else {
        HeaderNotData(ws[1].name);
      }
    }
  }

  /** The same in terms of the lines alone. */
  lemma {:induction false} FileSplit(lines: seq<string>, i: nat, ws: seq<Written>, blank: bool)
    requires ws != [] && i <= |lines| && lines[i..] == FileLines(ws, blank)
    ensures var m := i + 5 + |ws[0].rows|;
      && m <= |lines| && lines[i..m] == WrittenBlock(ws[0]) && lines[i] == ">" + ws[0].name + "\n"
      && (blank ==> m < |lines| && lines[m] == "\n" && lines[m + 1..] == FileLines(ws[1..], blank))
      && (!blank ==> lines[m..] == FileLines(ws[1..], blank))
      && (!blank && m < |lines| ==> |ws| > 1 && lines[m] == ">" + ws[1].name + "\n")
  {
    var block := WrittenBlock(ws[0]);
    var gap: seq<string> := if blank then ["\n"] else [];
    var m := i + |block|;
    var more := FileLines(ws[1..], blank);
    assert lines[i..] == BlockFollowed(ws, blank) == block + gap + more;
    assert lines[i..m] == block;
    assert lines[i] == block[0];
    assert lines[m..] == gap + more;
    if m < |lines| {
      assert lines[m] == (gap + more)[0];
      if blank {
        assert lines[m + 1..] == more;
      } else {
        assert ws[1..] != [] && more == BlockFollowed(ws[1..], blank);
        assert more[0] == WrittenBlock(ws[1..][0])[0];
      }
    }
  }

  /** `read_file` on a whole predictor output file gives each sequence's record, under
      its name, in the order of the file. */
  lemma {:induction false} FileRoundTrip(ws: seq<Written>, blank: bool)
    requires forall k :: 0 <= k < |ws| ==> Fits(ws[k])
    ensures ReadFrom(FileLines(ws, blank), 0) == Ok(Stored([], ws))
  {
    FileSeenOf(FileLines(ws, blank), 0, ws, blank);
    BlocksSeen(Infos(FileLines(ws, blank)), 0, ws, blank, []);
  }

  // ---------------------------------------------------------------------------------
  // `print_annotations_file`

  const Rem465Style := ScoreStyle(
    "DisemblWS (REM465)",
    "<html>Protein Disorder with DisemblWS - raw scores<br/>Above 0.1204 indicates disorder</html>",
    Graphline("0.1204", "Above 0.1204 indicates disorder", "ff0000"),
    "2385b0")

  /** Each sequence with its REM465 scores. */
  function Rem465Scores(data: Predictions): (r: seq<(string, seq<string>)>)
    ensures |r| == |data| && forall i :: 0 <= i < |data| ==> r[i] == (data[i].0, data[i].1.annots)
  {
    seq(|data|, i requires 0 <= i < |data| => (data[i].0, data[i].1.annots))
  }

  method PrintAnnotationsFile(data: Predictions, file: Sink)
    modifies file
    ensures file.text == old(file.text) + Printed(ScoreFileLines(Rem465Style, Rem465Scores(data)))
  {
    PrintScoreFile(Rem465Style, Rem465Scores(data), file);
  }

  // ---------------------------------------------------------------------------------
  // `print_features_file`

  /** The colour lines, the blank line and `STARTGROUP` the features file starts with. */
  const FeatureHeader: seq<string> := ["HOTLOOPS\t511e29", "REM465\t1e5146", "COILS\tcfdb48", "", "STARTGROUP\tDisemblWS"]

  const EndGroup := "ENDGROUP\tDisemblWS"

  /** The header as the source writes it: one string literal split over four lines. */
  method WriteFeatureHeader(file: Sink)
    modifies file
    ensures file.text == old(file.text) + Printed(FeatureHeader)
  {
    var l1, l2, l3, l5 := "HOTLOOPS\t511e29", "REM465\t1e5146", "COILS\tcfdb48", "STARTGROUP\tDisemblWS";
    PrintedFive(l1, l2, l3, "", l5);
    file.Write(l1 + "\n" + l2 + "\n" + l3 + "\n" + "\n" + l5 + "\n");
  }

  /** `zip(groups, descs, types)`: each region list with its description and type. */
  function Groups(rec: Record): seq<Group> {
    [(rec.coils, "Random coil", "COILS"), (rec.rem465, "Missing density", "REM465"), (rec.hotloops, "Flexible loops", "HOTLOOPS")]
  }

  function FeatureGroups(data: Predictions): (r: seq<(string, seq<Group>)>)
    ensures |r| == |data| && forall i :: 0 <= i < |data| ==> r[i] == (data[i].0, Groups(data[i].1))
  {
    seq(|data|, i requires 0 <= i < |data| => (data[i].0, Groups(data[i].1)))
  }

  /** Every region of the record has a start and an end. */
  predicate RecordPaired(rec: Record) {
    Paired(rec.coils) && Paired(rec.rem465) && Paired(rec.hotloops)
  }

  /** The features file is written to its `ENDGROUP` line exactly when every region
      of every sequence has a start and an end; it then holds the header, per sequence
      one row per region and a blank line, and the `ENDGROUP` line. */
  lemma {:induction false} FeaturesComplete(data: Predictions)
    ensures var out := FeatureFileLines(FeatureHeader, FeatureGroups(data), true, EndGroup);
      && (out.done <==> forall i :: 0 <= i < |data| ==> RecordPaired(data[i].1))
      && (out.done ==> out.lines == FeatureHeader + PredictorText.BlockLines(FeatureGroups(data), true) + [EndGroup])
  {
    var blocks := FeatureGroups(data);
    FeatureFileSpec(FeatureHeader, blocks, true, EndGroup);
    forall i | 0 <= i < |data| ensures GroupsPaired(blocks[i].1) <==> RecordPaired(data[i].1) {
      var gs := Groups(data[i].1);
      assert gs[0].0 == data[i].1.coils && gs[1].0 == data[i].1.rem465 && gs[2].0 == data[i].1.hotloops;
    }
  }

  /** `print_features_file`: false where a region of fewer than two parts raises
      `IndexError`, with the lines before it written. */
  method PrintFeaturesFile(data: Predictions, file: Sink) returns (ok: bool)
    modifies file
    ensures var out := FeatureFileLines(FeatureHeader, FeatureGroups(data), true, EndGroup);
      file.text == old(file.text) + Printed(out.lines) && ok == out.done
  {
    ghost var t0 := file.text;
    WriteFeatureHeader(file);
    PrintMore(t0, FeatureHeader, BlocksThenEnd(FeatureGroups(data), true, EndGroup).lines, file.text);
    ok := PrintFeatureBlocks(FeatureGroups(data), true, EndGroup, file);
  }
}
