/** The two kinds of text stream the scripts use: an output file that is written to
    piece by piece, and an input file read one line at a time. */
module Streams {
  import opened Wrappers
  import opened Text

  /** A text file opened for writing; `text` is everything written so far. */
  class Sink {
    var text: string

    constructor ()
      ensures text == ""
    {
      text := "";
    }

    /** `file.write(s)`. */
    method Write(s: string)
      modifies this
      ensures text == old(text) + s
    {
      text := text + s;
    }

    /** `print(s, file=file)`: the text and a newline. */
    method Print(s: string)
      modifies this
      ensures text == old(text) + s + "\n"
    {
      text := text + s + "\n";
    }
  }

  /** A text file opened for reading. `lines` are the lines of its content and `pos` is
      the number already consumed, by `readline()` or by iteration. */
  class LineReader {
    const lines: seq<string>
    var pos: nat

    ghost predicate Valid()
      reads this
    {
      pos <= |lines| && forall i :: 0 <= i < |lines| ==> IsLine(lines[i])
    }

    constructor (content: string)
      ensures Valid() && lines == Lines(content) && pos == 0
    {
      lines := Lines(content);
      pos := 0;
    }

    /** The lines not read yet. */
    function Rest(): seq<string>
      reads this
      requires Valid()
    {
      lines[pos..]
    }

    /** `file.readline()`: the next line, or "" once the file is exhausted. */
    method ReadLine() returns (line: string)
      requires Valid()
      modifies this
      ensures Valid()
      ensures old(pos) < |lines| ==> line == lines[old(pos)] && pos == old(pos) + 1
      ensures old(pos) == |lines| ==> line == "" && pos == old(pos)
    {
      if pos < |lines| {
        line := lines[pos];
        pos := pos + 1;
      } else {
        line := "";
      }
    }

    /** `next(file)`: the next line, or None where Python raises StopIteration. */
    method Next() returns (line: Option<string>)
      requires Valid()
      modifies this
      ensures Valid()
      ensures old(pos) < |lines| ==> line == Some(lines[old(pos)]) && pos == old(pos) + 1
      ensures old(pos) == |lines| ==> line == None && pos == old(pos)
    {
      if pos < |lines| {
        line := Some(lines[pos]);
        pos := pos + 1;
      } else {
        line := None;
      }
    }
  }

  /** Each line followed by its newline, as `print` writes it. */
  function Printed(ls: seq<string>): (r: string)
    ensures |r| >= |ls|
  {
    if ls == [] then "" else ls[0] + "\n" + Printed(ls[1..])
  }

  lemma {:induction false} PrintedAppend(a: seq<string>, b: seq<string>)
    ensures Printed(a + b) == Printed(a) + Printed(b)
    decreases |a|
  {
    if a == [] {
      assert a + b == b;
    } else {
      assert (a + b)[1..] == a[1..] + b;
      PrintedAppend(a[1..], b);
      assert Printed(a + b) == a[0] + "\n" + Printed(a[1..] + b);
    }
  }

  /** Printed lines without newlines of their own read back as the same lines, each
      terminated. */
  lemma {:induction false} PrintedLines(ls: seq<string>)
    requires forall i :: 0 <= i < |ls| ==> Excludes(ls[i], '\n')
    ensures Lines(Printed(ls)) == seq(|ls|, i requires 0 <= i < |ls| => ls[i] + "\n")
    decreases |ls|
  {
    if ls != [] {
      PrintedLines(ls[1..]);
      var l := ls[0] + "\n";
      assert Printed(ls) == l + Printed(ls[1..]);
      assert l[..|l| - 1] == ls[0];
      LinesCons(l, Printed(ls[1..]));
      TerminatedCons(ls);
    }
  }

  lemma {:induction false} TerminatedCons(ls: seq<string>)
    requires ls != []
    ensures seq(|ls|, i requires 0 <= i < |ls| => ls[i] + "\n")
         == [ls[0] + "\n"] + seq(|ls| - 1, i requires 0 <= i < |ls| - 1 => ls[1..][i] + "\n")
  {
    var t := seq(|ls|, i requires 0 <= i < |ls| => ls[i] + "\n");
    var t' := seq(|ls| - 1, i requires 0 <= i < |ls| - 1 => ls[1..][i] + "\n");
    forall i | 0 <= i < |t| ensures t[i] == ([ls[0] + "\n"] + t')[i] {
      if i > 0 { assert ls[i] == ls[1..][i - 1]; }
    }
  }

  /** Printing one more line extends the printed text by that line and a newline. */
  lemma {:induction false} PrintedSnoc(ls: seq<string>, l: string)
    ensures Printed(ls + [l]) == Printed(ls) + l + "\n"
  {
    PrintedAppend(ls, [l]);
    assert [l][1..] == [];
  }

  /** A file holding `t0` and then the printed lines `ls` holds `t0` and the printed
      `ls + [l]` once `l` is printed. */
  lemma {:induction false} PrintStep(t0: string, ls: seq<string>, l: string, t: string)
    requires t == t0 + Printed(ls)
    ensures t + l + "\n" == t0 + Printed(ls + [l])
  {
    PrintedSnoc(ls, l);
  }

  /** Writing one more line with its newline, as `file.write(l + '\n')` does. */
  lemma {:induction false} WriteStep(t0: string, ls: seq<string>, l: string, t: string)
    requires t == t0 + Printed(ls)
    ensures t + (l + "\n") == t0 + Printed(ls + [l])
  {
    PrintedSnoc(ls, l);
  }

  /** Printing several lines after what is already written. */
  lemma {:induction false} PrintMore(t0: string, ls: seq<string>, ms: seq<string>, t: string)
    requires t == t0 + Printed(ls)
    ensures t + Printed(ms) == t0 + Printed(ls + ms)
  {
    PrintedAppend(ls, ms);
  }

  lemma {:induction false} PrintedFour(a: string, b: string, c: string, d: string)
    ensures Printed([a, b, c, d]) == a + "\n" + b + "\n" + c + "\n" + d + "\n"
  {
    assert [d][1..] == [];
    assert Printed([d]) == d + "\n";
    assert [c, d][1..] == [d];
    assert Printed([c, d]) == c + "\n" + d + "\n";
    assert [b, c, d][1..] == [c, d];
    assert Printed([b, c, d]) == b + "\n" + c + "\n" + d + "\n";
    assert [a, b, c, d][1..] == [b, c, d];
  }

  lemma {:induction false} PrintedFive(a: string, b: string, c: string, d: string, e: string)
    ensures Printed([a, b, c, d, e]) == a + "\n" + b + "\n" + c + "\n" + d + "\n" + e + "\n"
  {
    PrintedFour(b, c, d, e);
    assert [a, b, c, d, e][1..] == [b, c, d, e];
  }
}
