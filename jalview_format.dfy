/** The two Jalview text formats the converters write: annotation rows
    (`print_annotation_row`, identical in all four converters) and sequence feature
    rows (`print_feature_row`). */
module JalviewFormat {
  import opened Wrappers
  import opened Text
  import opened Streams

  datatype GraphType = BarGraph | LineGraph | NoGraph

  /** The two lines every annotation file starts with, as `file.write` puts them. */
  const AnnotationHeader: seq<string> := ["JALVIEW_ANNOTATION", ""]

  const AnnotationHeaderText := "JALVIEW_ANNOTATION\n\n"

  lemma {:induction false} AnnotationHeaderPrinted()
    ensures Printed(AnnotationHeader) == AnnotationHeaderText
    ensures forall i :: 0 <= i < |AnnotationHeader| ==> Excludes(AnnotationHeader[i], '\n')
  {
    var h := "JALVIEW_ANNOTATION";
    assert AnnotationHeader[1..] == [""];
    assert [""][1..] == [];
    assert Printed([""]) == "\n";
  }

  /** `file.write('JALVIEW_ANNOTATION\n\n')`. */
  method WriteAnnotationHeader(file: Sink)
    modifies file
    ensures file.text == old(file.text) + Printed(AnnotationHeader)
  {
    AnnotationHeaderPrinted();
    file.Write(AnnotationHeaderText);
  }

  /** `graph.type.name`. */
  function TypeName(t: GraphType): (r: string)
    ensures r != "" && Excludes(r, '\t') && Excludes(r, '\n')
  {
    match t
    case BarGraph => "BAR_GRAPH"
    case LineGraph => "LINE_GRAPH"
    case NoGraph => "NO_GRAPH"
  }

  /** A `Graph` namedtuple; `title` is its `label` field. */
  datatype Graph = Graph(kind: GraphType, title: string, description: string, values: seq<string>)

  /** A `Graphline` namedtuple; `caption` is its `label` field. */
  datatype Graphline = Graphline(value: string, caption: string, colour: string)

  /** `'{0},{0}'.format(v)` for every value. */
  function Pairs(values: seq<string>): (r: seq<string>)
    ensures |r| == |values| && forall i :: 0 <= i < |values| ==> r[i] == values[i] + "," + values[i]
  {
    seq(|values|, i requires 0 <= i < |values| => values[i] + "," + values[i])
  }

  /** The values column: the pairs joined by `|`. */
  function ValuesText(values: seq<string>): string {
    Join("|", Pairs(values))
  }

  /** The first line of a row: type, label, description and values, tab-separated. */
  function RowText(g: Graph): string {
    TypeName(g.kind) + "\t" + g.title + "\t" + g.description + "\t" + ValuesText(g.values)
  }

  function GraphlineText(g: Graph, line: Graphline): string {
    "GRAPHLINE\t" + g.title + "\t" + line.value + "\t" + line.caption + "\t" + line.colour
  }

  function ColourText(g: Graph, colour: string): string {
    "COLOUR\t" + g.title + "\t" + colour
  }

  /** The lines `print_annotation_row` prints: the row, then, for a line graph only,
      the threshold line and the colour line when they are given. */
  function AnnotationRowLines(g: Graph, graphline: Option<Graphline>, colour: Option<string>): (r: seq<string>)
    ensures 1 <= |r| <= 3 && r[0] == RowText(g)
    ensures g.kind != LineGraph ==> |r| == 1
    ensures g.kind == LineGraph ==> |r| == 1 + (if graphline.Some? then 1 else 0) + (if colour.Some? then 1 else 0)
  {
    [RowText(g)] + ThresholdLines(g, graphline, colour)
  }

  function ThresholdLines(g: Graph, graphline: Option<Graphline>, colour: Option<string>): seq<string> {
    if g.kind != LineGraph then []
    else (if graphline.Some? then [GraphlineText(g, graphline.value)] else [])
         + (if colour.Some? then [ColourText(g, colour.value)] else [])
  }

  /** `print_annotation_row`. */
  method PrintAnnotationRow(g: Graph, graphline: Option<Graphline>, colour: Option<string>, file: Sink)
    modifies file
    ensures file.text == old(file.text) + Printed(AnnotationRowLines(g, graphline, colour))
  {
    ghost var t0 := file.text;
    ghost var written: seq<string> := [];
    var row := RowText(g);
    PrintStep(t0, written, row, file.text);
    file.Print(row);
    written := written + [row];
    if g.kind == LineGraph {
      if graphline.Some? {
        var l := GraphlineText(g, graphline.value);
        PrintStep(t0, written, l, file.text);
        file.Print(l);
        written := written + [l];
      }
      if colour.Some? {
        var l := ColourText(g, colour.value);
        PrintStep(t0, written, l, file.text);
        file.Print(l);
        written := written + [l];
      }
    }
    assert written == AnnotationRowLines(g, graphline, colour);
  }

  /** A field fit for a tab-separated column. */
  predicate Cell(s: string) { Excludes(s, '\t') && Excludes(s, '\n') }

  /** The values column splits back into the `v,v` pairs, and each pair into its value
      twice, when no value contains a `|` or a `,`. */
  lemma {:induction false} ValuesDecode(values: seq<string>)
    requires values != []
    requires forall i :: 0 <= i < |values| ==> Excludes(values[i], '|') && Excludes(values[i], ',')
    ensures Split(ValuesText(values), "|") == Pairs(values)
    ensures forall i :: 0 <= i < |values| ==> Split(Pairs(values)[i], ",") == [values[i], values[i]]
  {
    var ps := Pairs(values);
    forall i | 0 <= i < |ps| ensures Excludes(ps[i], '|') {
      assert ps[i] == values[i] + "," + values[i];
    }
    SplitJoin(ps, "|");
    forall i | 0 <= i < |values| ensures Split(ps[i], ",") == [values[i], values[i]] {
      assert Join(",", [values[i], values[i]]) == ps[i];
      SplitJoin([values[i], values[i]], ",");
    }
  }

  /** A row splits back at its tabs into its four columns. */
  lemma {:induction false} RowDecode(g: Graph)
    requires Cell(g.title) && Cell(g.description)
    requires forall i :: 0 <= i < |g.values| ==> Cell(g.values[i])
    ensures Split(RowText(g), "\t") == [TypeName(g.kind), g.title, g.description, ValuesText(g.values)]
    ensures Cell(ValuesText(g.values))
  {
    var ps := Pairs(g.values);
    forall i | 0 <= i < |ps| ensures Cell(ps[i]) {
      assert ps[i] == g.values[i] + "," + g.values[i];
    }
    JoinExcludes("|", ps, '\t');
    JoinExcludes("|", ps, '\n');
    var cols := [TypeName(g.kind), g.title, g.description, ValuesText(g.values)];
    assert Join("\t", cols[2..]) == g.description + "\t" + ValuesText(g.values);
    assert Join("\t", cols[1..]) == g.title + "\t" + Join("\t", cols[2..]);
    assert Join("\t", cols) == TypeName(g.kind) + "\t" + Join("\t", cols[1..]);
    assert Join("\t", cols) == RowText(g);
    assert "\t"[0] == '\t';
    forall i | 0 <= i < |cols| ensures Excludes(cols[i], '\t') {
      if i == 3 { assert cols[i] == ValuesText(g.values); }
    }
    SplitJoin(cols, "\t");
  }

  /** A bar graph row is a single line of the file. */
  lemma {:induction false} BarGraphOneLine(g: Graph, graphline: Option<Graphline>, colour: Option<string>)
    requires g.kind == BarGraph && Cell(g.title) && Cell(g.description)
    requires forall i :: 0 <= i < |g.values| ==> Cell(g.values[i])
    ensures Lines(Printed(AnnotationRowLines(g, graphline, colour))) == [RowText(g) + "\n"]
  {
    RowDecode(g);
    RowExcludesNewline(g);
    PrintedLines([RowText(g)]);
  }

  lemma {:induction false} RowExcludesNewline(g: Graph)
    requires Cell(g.title) && Cell(g.description) && Cell(ValuesText(g.values))
    ensures Excludes(RowText(g), '\n')
  {
  }

  // ---------------------------------------------------------------------------------
  // Sequence features

  /** `Feature(description, name, index, start, end, feature_type, score)`. */
  datatype Feature = Feature(description: string, name: string, index: string, start: string,
                             end: string, featureType: string, score: Option<string>)

  /** The fields that are not None, in order: the score is dropped when it is None. */
  function FeatureFields(f: Feature): (r: seq<string>)
    ensures |r| == if f.score.Some? then 7 else 6
    ensures r[..6] == [f.description, f.name, f.index, f.start, f.end, f.featureType]
    ensures f.score.Some? ==> r[6] == f.score.value
  {
    var r := [f.description, f.name, f.index, f.start, f.end, f.featureType]
             + (if f.score.Some? then [f.score.value] else []);
    assert r[..6] == [f.description, f.name, f.index, f.start, f.end, f.featureType];
    r
  }

  function FeatureRowText(f: Feature): string {
    Join("\t", FeatureFields(f))
  }

  /** `print_feature_row`. */
  method PrintFeatureRow(f: Feature, file: Sink)
    modifies file
    ensures file.text == old(file.text) + Printed([FeatureRowText(f)])
  {
    file.Print(FeatureRowText(f));
  }

  predicate FeatureCells(f: Feature) {
    && Cell(f.description) && Cell(f.name) && Cell(f.index) && Cell(f.start) && Cell(f.end)
    && Cell(f.featureType) && (f.score.Some? ==> Cell(f.score.value))
  }

  /** A feature row splits back at its tabs into the feature's fields. */
  lemma {:induction false} FeatureDecode(f: Feature)
    requires FeatureCells(f)
    ensures Split(FeatureRowText(f), "\t") == FeatureFields(f)
    ensures Excludes(FeatureRowText(f), '\n')
  {
    var fs := FeatureFields(f);
    assert forall i :: 0 <= i < |fs| ==> Cell(fs[i]);
    SplitJoin(fs, "\t");
    JoinExcludes("\t", fs, '\n');
  }
}
