/** The pieces of Python's `str` behaviour the scripts rely on: character classes,
    `str.join`, `str.split`, `str.strip`, line splitting of a text file, and
    decimal integers. */
module Text {
  import opened Wrappers

  /** `\d` restricted to ASCII. */
  predicate IsDigit(c: char) { '0' <= c <= '9' }

  predicate IsAsciiLetter(c: char) { 'a' <= c <= 'z' || 'A' <= c <= 'Z' }

  /** `\w` restricted to ASCII. */
  predicate IsWordChar(c: char) { IsAsciiLetter(c) || IsDigit(c) || c == '_' }

  /** `str.isspace()` for one character, which is also what `\s` and `str.split()` use. */
  predicate IsSpace(c: char) {
    || c == ' ' || '\t' <= c <= '\r' || '\U{1c}' <= c <= '\U{1f}'
    || c == '\U{85}' || c == '\U{a0}' || c == '\U{1680}' || '\U{2000}' <= c <= '\U{200a}'
    || c == '\U{2028}' || c == '\U{2029}' || c == '\U{202f}' || c == '\U{205f}' || c == '\U{3000}'
  }

  predicate AllDigits(s: string) { forall i :: 0 <= i < |s| ==> IsDigit(s[i]) }

  predicate NoSpace(s: string) { forall i :: 0 <= i < |s| ==> !IsSpace(s[i]) }

  predicate Excludes(s: string, c: char) { forall i :: 0 <= i < |s| ==> s[i] != c }

  /** `sep.join(parts)`. */
  function Join(sep: string, parts: seq<string>): string
    decreases |parts|
  {
    if |parts| == 0 then "" else if |parts| == 1 then parts[0] else parts[0] + sep + Join(sep, parts[1..])
  }

  /** `''.join(parts)`: writing the parts one after the other. */
  function Concat(parts: seq<string>): string
    decreases |parts|
  {
    if parts == [] then "" else parts[0] + Concat(parts[1..])
  }

  lemma {:induction false} ConcatAppend(a: seq<string>, b: seq<string>)
    ensures Concat(a + b) == Concat(a) + Concat(b)
    decreases |a|
  {
    if a == [] {
      assert a + b == b;
    } else {
      assert (a + b)[1..] == a[1..] + b;
      ConcatAppend(a[1..], b);
    }
  }

  ghost predicate OccursAt(s: string, sub: string, i: nat) {
    i + |sub| <= |s| && s[i..i + |sub|] == sub
  }

  lemma {:induction false} OccursAtTail(s: string, sub: string)
    requires s != []
    ensures forall j: nat {:trigger OccursAt(s, sub, j)} :: 1 <= j ==> (OccursAt(s, sub, j) <==> OccursAt(s[1..], sub, j - 1))
  {
    forall j: nat | 1 <= j ensures OccursAt(s, sub, j) <==> OccursAt(s[1..], sub, j - 1) {
      if j + |sub| <= |s| {
        assert s[j..j + |sub|] == s[1..][j - 1..j - 1 + |sub|];
      }
    }
  }

  /** A position whose character differs from the first one of `sub` is not an occurrence. */
  lemma {:induction false} NotOccursAt(s: string, sub: string, j: nat)
    requires sub != [] && j < |s| && s[j] != sub[0]
    ensures !OccursAt(s, sub, j)
  {
    if j + |sub| <= |s| { assert s[j..j + |sub|][0] == s[j]; }
  }

  /** `s.find(sub)`, with -1 as None. */
  function Find(s: string, sub: string): (r: Option<nat>)
    ensures r.Some? ==> OccursAt(s, sub, r.value)
    decreases |s|
  {
    if sub <= s then
      Some(0)
    else if s == [] then
      None
    else
      match Find(s[1..], sub)
      case Some(k) =>
        assert s[k + 1..k + 1 + |sub|] == s[1..][k..k + |sub|];
        Some(k + 1)
      case None => None
  }

  /** Find gives the first occurrence, and None only when there is none. */
  lemma {:induction false} FindFirst(s: string, sub: string)
    ensures Find(s, sub).Some? ==> forall j :: 0 <= j < Find(s, sub).value ==> !OccursAt(s, sub, j)
    ensures Find(s, sub).None? ==> forall j :: 0 <= j <= |s| ==> !OccursAt(s, sub, j)
    decreases |s|
  {
    if !(sub <= s) && s != [] {
      FindFirst(s[1..], sub);
      OccursAtTail(s, sub);
      assert !OccursAt(s, sub, 0);
    }
  }

  /** A character in neither the parts nor the separator is not in their join. */
  lemma {:induction false} JoinExcludes(sep: string, parts: seq<string>, c: char)
    requires Excludes(sep, c) && forall i :: 0 <= i < |parts| ==> Excludes(parts[i], c)
    ensures Excludes(Join(sep, parts), c)
    decreases |parts|
  {
    if |parts| > 1 {
      JoinExcludes(sep, parts[1..], c);
      var j := Join(sep, parts[1..]);
      assert Join(sep, parts) == parts[0] + sep + j;
    }
  }

  /** `s.split(sep)` for a non-empty separator: the pieces between the occurrences of
      `sep` found from left to right. */
  function Split(s: string, sep: string): (r: seq<string>)
    requires sep != ""
    ensures |r| >= 1
    decreases |s|
  {
    match Find(s, sep)
    case None => [s]
    case Some(k) => [s[..k]] + Split(s[k + |sep|..], sep)
  }

  lemma {:induction false} JoinCons(p: string, parts: seq<string>, sep: string)
    requires |parts| >= 1
    ensures Join(sep, [p] + parts) == p + sep + Join(sep, parts)
  {
    assert ([p] + parts)[1..] == parts;
  }

  lemma {:induction false} JoinFour(sep: string, a: string, b: string, c: string, d: string)
    ensures Join(sep, [a, b, c, d]) == a + sep + b + sep + c + sep + d
  {
    assert [c, d][1..] == [d];
    assert Join(sep, [c, d]) == c + sep + d;
    assert [b, c, d][1..] == [c, d];
    assert Join(sep, [b, c, d]) == b + sep + (c + sep + d);
    assert [a, b, c, d][1..] == [b, c, d];
  }

  /** Joining the pieces with the separator gives back the string. */
  lemma {:induction false} JoinSplit(s: string, sep: string)
    requires sep != ""
    ensures Join(sep, Split(s, sep)) == s
    decreases |s|
  {
    var f := Find(s, sep);
    if f.None? {
      assert Split(s, sep) == [s];
    } else {
      var k := f.value;
      var rest := s[k + |sep|..];
      JoinSplit(rest, sep);
      JoinSplitAt(s, sep, k);
    }
  }

  /** The step of `JoinSplit` at the first occurrence of the separator. */
  lemma {:induction false} JoinSplitAt(s: string, sep: string, k: nat)
    requires sep != "" && Find(s, sep) == Some(k)
    requires Join(sep, Split(s[k + |sep|..], sep)) == s[k + |sep|..]
    ensures Join(sep, Split(s, sep)) == s
  {
    var rest := s[k + |sep|..];
    var tp := Split(rest, sep);
    assert Split(s, sep) == [s[..k]] + tp;
    JoinCons(s[..k], tp, sep);
    assert s[k..k + |sep|] == sep;
    SliceAround(s, k, |sep|);
  }

  lemma {:induction false} FindAt(s: string, sub: string, k: nat)
    requires OccursAt(s, sub, k)
    requires forall j :: 0 <= j < k ==> !OccursAt(s, sub, j)
    ensures Find(s, sub) == Some(k)
  {
    FindFirst(s, sub);
  }

  lemma {:induction false} FindNone(s: string, sub: string)
    requires forall j :: 0 <= j <= |s| ==> !OccursAt(s, sub, j)
    ensures Find(s, sub) == None
  {
  }

  /** Splitting a join gives back the parts, when no part holds the separator's first
      character. */
  lemma {:induction false} SplitJoin(parts: seq<string>, sep: string)
    requires sep != "" && |parts| >= 1
    requires forall i :: 0 <= i < |parts| ==> Excludes(parts[i], sep[0])
    ensures Split(Join(sep, parts), sep) == parts
    decreases |parts|
  {
    var s := Join(sep, parts);
    var p := parts[0];
    if |parts| == 1 {
      assert s == p;
      forall j | 0 <= j <= |s| ensures !OccursAt(s, sep, j) {
        if j < |s| { NotOccursAt(s, sep, j); }
      }
      FindNone(s, sep);
    } else {
      var rest := Join(sep, parts[1..]);
      assert s == p + sep + rest;
      assert OccursAt(s, sep, |p|) by { assert s[|p|..|p| + |sep|] == sep; }
      forall j | 0 <= j < |p| ensures !OccursAt(s, sep, j) {
        assert s[j] == p[j];
        NotOccursAt(s, sep, j);
      }
      FindAt(s, sep, |p|);
      assert s[..|p|] == p;
      assert s[|p| + |sep|..] == rest;
      SplitJoin(parts[1..], sep);
    }
  }

  /** Length of the leading run of characters satisfying `f`. */
  function RunLength(s: string, f: char -> bool): (n: nat)
    ensures n <= |s|
    ensures forall i :: 0 <= i < n ==> f(s[i])
    ensures n < |s| ==> !f(s[n])
    decreases |s|
  {
    if s != [] && f(s[0]) then 1 + RunLength(s[1..], f) else 0
  }

  lemma {:induction false} RunLengthStops(w: string, rest: string, f: char -> bool)
    requires forall i :: 0 <= i < |w| ==> f(w[i])
    requires rest != [] ==> !f(rest[0])
    ensures RunLength(w + rest, f) == |w|
    decreases |w|
  {
    if w == [] {
      assert w + rest == rest;
    } else {
      assert (w + rest)[1..] == w[1..] + rest;
      RunLengthStops(w[1..], rest, f);
    }
  }

  lemma {:induction false} AppendAssoc<T>(a: seq<T>, b: seq<T>, c: seq<T>)
    ensures (a + b) + c == a + (b + c)
  {
  }

  /** A sequence is its part before `k`, the `n` elements from `k` and the rest. */
  lemma {:induction false} SliceAround<T>(s: seq<T>, k: nat, n: nat)
    requires k + n <= |s|
    ensures s == s[..k] + s[k..k + n] + s[k + n..]
  {
  }

  /** The two parts of a slice that is a concatenation. */
  lemma {:induction false} SliceConcat<T>(s: seq<T>, i: nat, a: seq<T>, b: seq<T>)
    requires i + |a| + |b| <= |s| && s[i..i + |a| + |b|] == a + b
    ensures s[i..i + |a|] == a && s[i + |a|..i + |a| + |b|] == b
  {
    assert s[i..i + |a|] == s[i..i + |a| + |b|][..|a|];
    assert s[i + |a|..i + |a| + |b|] == s[i..i + |a| + |b|][|a|..];
  }

  lemma {:induction false} PrefixRest(p: string, s: string)
    requires p <= s
    ensures s == p + s[|p|..]
  {
  }

  lemma {:induction false} PrefixPrepend(a: string, p: string, s: string)
    requires p <= s
    ensures a + p <= a + s
  {
    assert (a + s)[..|a + p|] == a + s[..|p|];
  }

  /** The leading run of characters satisfying `f`. */
  function Span(s: string, f: char -> bool): (r: string)
    ensures r <= s
    ensures forall i :: 0 <= i < |r| ==> f(r[i])
    ensures |r| < |s| ==> !f(s[|r|])
  {
    s[..RunLength(s, f)]
  }

  lemma {:induction false} SpanStops(w: string, rest: string, f: char -> bool)
    requires forall i :: 0 <= i < |w| ==> f(w[i])
    requires rest != [] ==> !f(rest[0])
    ensures Span(w + rest, f) == w
  {
    RunLengthStops(w, rest, f);
    assert (w + rest)[..|w|] == w;
  }


  predicate NotSpace(c: char) { !IsSpace(c) }

  function DropSpaces(s: string): string {
    s[RunLength(s, IsSpace)..]
  }

  /** `s.split()` with no argument: the maximal runs of non-space characters. */
  function SplitWhitespace(s: string): (r: seq<string>)
    ensures forall i :: 0 <= i < |r| ==> r[i] != "" && NoSpace(r[i])
    decreases |s|
  {
    if s == [] then []
    else if IsSpace(s[0]) then SplitWhitespace(s[1..])
    else
      var n := RunLength(s, NotSpace);
      [s[..n]] + SplitWhitespace(s[n..])
  }

  lemma {:induction false} SplitAllSpaces(s: string)
    requires forall i :: 0 <= i < |s| ==> IsSpace(s[i])
    ensures SplitWhitespace(s) == []
    decreases |s|
  {
    if s != [] { SplitAllSpaces(s[1..]); }
  }

  /** A character the text does not hold is in none of its words. */
  lemma {:induction false} SplitWhitespaceExcludes(s: string, c: char)
    requires Excludes(s, c)
    ensures forall i :: 0 <= i < |SplitWhitespace(s)| ==> Excludes(SplitWhitespace(s)[i], c)
    decreases |s|
  {
    if s != [] {
      if IsSpace(s[0]) {
        SplitWhitespaceExcludes(s[1..], c);
      } else {
        var n := RunLength(s, NotSpace);
        SplitWhitespaceExcludes(s[n..], c);
        var r := SplitWhitespace(s);
        assert r == [s[..n]] + SplitWhitespace(s[n..]);
        forall i | 0 <= i < |r| ensures Excludes(r[i], c) {
          if i > 0 { assert r[i] == SplitWhitespace(s[n..])[i - 1]; }
        }
      }
    }
  }

  /** Words separated by single spaces split back into the words, whatever
      whitespace ends the text. */
  lemma {:induction false} SplitWhitespaceJoin(words: seq<string>, tail: string)
    requires forall i :: 0 <= i < |words| ==> words[i] != "" && NoSpace(words[i])
    requires forall i :: 0 <= i < |tail| ==> IsSpace(tail[i])
    ensures SplitWhitespace(Join(" ", words) + tail) == words
  {
    SplitWhitespaceJoinBy(words, " ", tail);
  }

  /** The same for words separated by any one whitespace character. */
  lemma {:induction false} SplitWhitespaceJoinBy(words: seq<string>, sep: string, tail: string)
    requires forall i :: 0 <= i < |words| ==> words[i] != "" && NoSpace(words[i])
    requires |sep| == 1 && IsSpace(sep[0])
    requires forall i :: 0 <= i < |tail| ==> IsSpace(tail[i])
    ensures SplitWhitespace(Join(sep, words) + tail) == words
    decreases |words|
  {
    if words == [] {
      assert Join(sep, words) + tail == tail;
      SplitAllSpaces(tail);
    } else {
      var w := words[0];
      var rest := if |words| == 1 then tail else sep + (Join(sep, words[1..]) + tail);
      assert Join(sep, words) + tail == w + rest;
      SplitWordFirst(w, rest);
      if |words| == 1 {
        SplitAllSpaces(tail);
        assert words == [w];
      } else {
        SplitWhitespaceJoinBy(words[1..], sep, tail);
        assert rest[1..] == Join(sep, words[1..]) + tail;
        assert IsSpace(rest[0]) && SplitWhitespace(rest) == SplitWhitespace(rest[1..]);
        assert words == [w] + words[1..];
      }
    }
  }

  predicate AllSpace(s: string) { forall i :: 0 <= i < |s| ==> IsSpace(s[i]) }

  /** Each word followed by its own run of whitespace, as columns padded for alignment. */
  function Spaced(words: seq<string>, gaps: seq<string>): string
    requires |gaps| == |words|
    decreases |words|
  {
    if words == [] then "" else words[0] + (gaps[0] + Spaced(words[1..], gaps[1..]))
  }

  /** Leading whitespace does not change the words. */
  lemma {:induction false} SplitLeadingSpaces(lead: string, s: string)
    requires AllSpace(lead)
    ensures SplitWhitespace(lead + s) == SplitWhitespace(s)
    decreases |lead|
  {
    if lead != [] {
      assert (lead + s)[0] == lead[0];
      assert (lead + s)[1..] == lead[1..] + s;
      SplitLeadingSpaces(lead[1..], s);
    } else {
      assert lead + s == s;
    }
  }

  /** Words padded by any non-empty runs of whitespace, after any leading whitespace,
      split back into the words. */
  lemma {:induction false} SplitWhitespaceSpaced(lead: string, words: seq<string>, gaps: seq<string>)
    requires |gaps| == |words|
    requires forall i :: 0 <= i < |words| ==> words[i] != "" && NoSpace(words[i])
    requires AllSpace(lead) && forall i :: 0 <= i < |gaps| ==> gaps[i] != "" && AllSpace(gaps[i])
    ensures SplitWhitespace(lead + Spaced(words, gaps)) == words
    decreases |words|
  {
    SplitLeadingSpaces(lead, Spaced(words, gaps));
    if words != [] {
      var rest := Spaced(words[1..], gaps[1..]);
      assert gaps[0][0] == (gaps[0] + rest)[0];
      SplitWordFirst(words[0], gaps[0] + rest);
      SplitWhitespaceSpaced(gaps[0], words[1..], gaps[1..]);
      assert words == [words[0]] + words[1..];
    }
  }

  /** A word followed by nothing or by whitespace is the first word. */
  lemma {:induction false} SplitWordFirst(w: string, rest: string)
    requires w != "" && NoSpace(w) && (rest != [] ==> IsSpace(rest[0]))
    ensures SplitWhitespace(w + rest) == [w] + SplitWhitespace(rest)
  {
    var s := w + rest;
    assert s[0] == w[0] && !IsSpace(s[0]);
    RunLengthStops(w, rest, NotSpace);
    assert s[..|w|] == w && s[|w|..] == rest;
  }

  /** `s.rstrip()`. */
  function TrimEnd(s: string): (r: string)
    ensures r <= s
    ensures r == [] || !IsSpace(r[|r| - 1])
    ensures forall i :: |r| <= i < |s| ==> IsSpace(s[i])
    decreases |s|
  {
    if s != [] && IsSpace(s[|s| - 1]) then TrimEnd(s[..|s| - 1]) else s
  }

  /** `s.strip()`. */
  function Strip(s: string): (r: string)
    ensures r == [] || (!IsSpace(r[0]) && !IsSpace(r[|r| - 1]))
  {
    TrimEnd(DropSpaces(s))
  }

  /** `s.split(None, 1)`: the first word and, when anything but whitespace follows it,
      the rest of the text after that whitespace (trailing whitespace kept). */
  function SplitFirstWord(s: string): (r: seq<string>)
    ensures |r| <= 2
    ensures forall i :: 0 <= i < |r| ==> r[i] != ""
    ensures |r| >= 1 ==> NoSpace(r[0])
  {
    var t := DropSpaces(s);
    if t == [] then []
    else
      DropSpacesHead(s);
      var n := RunLength(t, NotSpace);
      WordRun(t);
      var rest := DropSpaces(t[n..]);
      if rest == [] then [t[..n]] else [t[..n], rest]
  }

  /** A word, one space and a text that starts with a non-space split into the word
      and that text. */
  lemma {:induction false} SplitFirstWordOf(w: string, rest: string)
    requires w != [] && NoSpace(w) && rest != [] && !IsSpace(rest[0])
    ensures SplitFirstWord(w + (" " + rest)) == [w, rest]
  {
    var s := w + (" " + rest);
    assert s[0] == w[0];
    RunLengthStops([], s, IsSpace);
    assert [] + s == s && DropSpaces(s) == s;
    forall i | 0 <= i < |w| ensures NotSpace(w[i]) {
      assert !IsSpace(w[i]);
    }
    RunLengthStops(w, " " + rest, NotSpace);
    assert s[..|w|] == w && s[|w|..] == " " + rest;
    RunLengthStops(" ", rest, IsSpace);
    assert (" " + rest)[1..] == rest;
  }

  /** What `DropSpaces` leaves starts with a non-space. */
  lemma {:induction false} DropSpacesHead(s: string)
    ensures DropSpaces(s) != [] ==> !IsSpace(DropSpaces(s)[0])
  {
    var k := RunLength(s, IsSpace);
    if k < |s| {
      assert DropSpaces(s)[0] == s[k];
    }
  }

  /** The first word of a text that starts with a non-space. */
  lemma {:induction false} WordRun(t: string)
    requires t != [] && !IsSpace(t[0])
    ensures 0 < RunLength(t, NotSpace) && NoSpace(t[..RunLength(t, NotSpace)])
  {
    var n := RunLength(t, NotSpace);
    assert NotSpace(t[0]);
    forall i | 0 <= i < n ensures !IsSpace(t[..n][i]) {
      assert NotSpace(t[i]);
    }
  }

  // ---------------------------------------------------------------------------
  // Lines of a text file, as `for line in file` and `file.readline()` yield them.

  predicate NotNewline(c: char) { c != '\n' }

  /** A line as a file iterator yields it: not empty, and a newline at most at its end. */
  ghost predicate IsLine(l: string) {
    l != [] && forall i :: 0 <= i < |l| - 1 ==> l[i] != '\n'
  }

  ghost predicate Terminated(l: string) { l != [] && l[|l| - 1] == '\n' }

  /** The lines of a text, each with its newline; the last may lack one. */
  function Lines(t: string): (r: seq<string>)
    ensures forall i :: 0 <= i < |r| ==> IsLine(r[i])
    ensures forall i :: 0 <= i < |r| - 1 ==> Terminated(r[i])
    decreases |t|
  {
    if t == [] then []
    else
      var k := RunLength(t, NotNewline);
      if k == |t| then [t] else [t[..k + 1]] + Lines(t[k + 1..])
  }

  /** Writing the lines back one after the other gives the text. */
  lemma {:induction false} LinesConcat(t: string)
    ensures Concat(Lines(t)) == t
    decreases |t|
  {
    if t != [] {
      var k := RunLength(t, NotNewline);
      if k < |t| {
        LinesConcat(t[k + 1..]);
        assert t == t[..k + 1] + t[k + 1..];
      }
    }
  }

  /** Lines that each end with their only newline (the last one possibly without it)
      are exactly the lines of the text they make up. */
  lemma {:induction false} ConcatLines(ls: seq<string>)
    requires forall i :: 0 <= i < |ls| ==> IsLine(ls[i])
    requires forall i :: 0 <= i < |ls| - 1 ==> Terminated(ls[i])
    ensures Lines(Concat(ls)) == ls
    decreases |ls|
  {
    if ls != [] {
      var l, rest := ls[0], Concat(ls[1..]);
      assert Concat(ls) == l + rest;
      ConcatLines(ls[1..]);
      if Terminated(l) {
        LinesCons(l, rest);
      } else {
        assert |ls| == 1 && rest == "";
        LinesLast(l);
        assert l + "" == l;
      }
    }
  }

  /** A line with its newline, then any text: that line comes first. */
  lemma {:induction false} LinesCons(l: string, rest: string)
    requires IsLine(l) && Terminated(l)
    ensures Lines(l + rest) == [l] + Lines(rest)
  {
    var t := l + rest;
    var body := l[..|l| - 1];
    assert l == body + "\n";
    assert t == body + ("\n" + rest);
    RunLengthStops(body, "\n" + rest, NotNewline);
    assert t[..|l|] == l;
    assert t[|l|..] == rest;
  }

  /** A line without a newline is the only line of itself. */
  lemma {:induction false} LinesLast(l: string)
    requires IsLine(l) && !Terminated(l)
    ensures Lines(l) == [l]
  {
    RunLengthStops(l, "", NotNewline);
    assert l + "" == l;
  }

  /** A text that ends with a newline splits into lines independently of what follows. */
  lemma {:induction false} LinesAppend(a: string, b: string)
    requires a == [] || a[|a| - 1] == '\n'
    ensures Lines(a + b) == Lines(a) + Lines(b)
  {
    var la, lb := Lines(a), Lines(b);
    var ls := la + lb;
    LinesConcat(a);
    LinesConcat(b);
    ConcatAppend(la, lb);
    if la != [] {
      LastLineTerminated(la, a);
    }
    forall i | 0 <= i < |ls| ensures IsLine(ls[i]) && (i < |ls| - 1 ==> Terminated(ls[i])) {
      if i < |la| { assert ls[i] == la[i]; } else { assert ls[i] == lb[i - |la|]; }
    }
    ConcatLines(ls);
  }

  lemma {:induction false} LastLineTerminated(ls: seq<string>, a: string)
    requires ls != [] && Concat(ls) == a && a != [] && a[|a| - 1] == '\n'
    requires forall i :: 0 <= i < |ls| ==> ls[i] != []
    ensures Terminated(ls[|ls| - 1])
    decreases |ls|
  {
    if |ls| == 1 {
      assert Concat(ls) == ls[0];
    } else {
      var rest := Concat(ls[1..]);
      assert a == ls[0] + rest;
      assert rest == ls[1..][0] + Concat(ls[1..][1..]);
      assert rest != [];
      assert rest[|rest| - 1] == a[|a| - 1];
      LastLineTerminated(ls[1..], rest);
      assert ls[|ls| - 1] == ls[1..][|ls| - 2];
    }
  }

  /** The characters `str.splitlines()` breaks at. */
  predicate IsLineBreak(c: char) {
    c == '\n' || c == '\r' || c == '\U{0b}' || c == '\U{0c}' || '\U{1c}' <= c <= '\U{1e}'
    || c == '\U{85}' || c == '\U{2028}' || c == '\U{2029}'
  }

  predicate NotLineBreak(c: char) { !IsLineBreak(c) }

  predicate NoLineBreak(s: string) { forall j :: 0 <= j < |s| ==> NotLineBreak(s[j]) }

  /** `s.splitlines()`: the lines without their terminators, `\r\n` counting as one. */
  function SplitLines(s: string): (r: seq<string>)
    ensures forall i :: 0 <= i < |r| ==> NoLineBreak(r[i])
    decreases |s|
  {
    if s == [] then []
    else
      var k := RunLength(s, NotLineBreak);
      if k == |s| then [s]
      else
        var n := if s[k] == '\r' && k + 1 < |s| && s[k + 1] == '\n' then k + 2 else k + 1;
        [s[..k]] + SplitLines(s[n..])
  }

  /** The lines, each followed by a newline. */
  function JoinLines(ls: seq<string>): string {
    if ls == [] then "" else ls[0] + ("\n" + JoinLines(ls[1..]))
  }

  /** Lines written out with a newline after each split back into the same lines. */
  lemma {:induction false} SplitJoinLines(ls: seq<string>)
    requires forall i :: 0 <= i < |ls| ==> NoLineBreak(ls[i])
    ensures SplitLines(JoinLines(ls)) == ls
    decreases |ls|
  {
    if ls != [] {
      var l, rest := ls[0], JoinLines(ls[1..]);
      var s := l + ("\n" + rest);
      RunLengthStops(l, "\n" + rest, NotLineBreak);
      assert s[|l|] == '\n';
      assert s[..|l|] == l;
      assert s[|l| + 1..] == rest;
      SplitJoinLines(ls[1..]);
    }
  }

  // ---------------------------------------------------------------------------
  // Decimal integers: `'%i' % n` and `int(s)`.

  function DigitChar(d: nat): (c: char)
    requires d < 10
    ensures IsDigit(c) && (c as int) - ('0' as int) == d
  {
    ['0', '1', '2', '3', '4', '5', '6', '7', '8', '9'][d]
  }

  function DigitValue(c: char): nat
    requires IsDigit(c)
  {
    (c as int) - ('0' as int)
  }

  function NatToString(n: nat): (s: string)
    ensures s != [] && AllDigits(s)
    decreases n
  {
    if n < 10 then [DigitChar(n)] else NatToString(n / 10) + [DigitChar(n % 10)]
  }

  /** `'%i' % n` / `str(n)`. */
  function IntToString(n: int): string {
    if n < 0 then "-" + NatToString(-n) else NatToString(n)
  }

  function DigitsValue(s: string): nat
    requires AllDigits(s)
    decreases |s|
  {
    if s == [] then 0 else 10 * DigitsValue(s[..|s| - 1]) + DigitValue(s[|s| - 1])
  }

  /** `int(s)` for an optional sign and decimal digits; None where Python raises. */
  function ParseInt(s: string): (r: Option<int>)
    ensures r.Some? ==> s != []
  {
    if s == [] then None
    else if s[0] == '-' || s[0] == '+' then
      var d := s[1..];
      if d != [] && AllDigits(d) then
        var v: int := DigitsValue(d);
        Some(if s[0] == '-' then -v else v)
      else None
    else if AllDigits(s) then Some(DigitsValue(s))
    else None
  }

  lemma {:induction false} DigitsOfNat(n: nat)
    ensures DigitsValue(NatToString(n)) == n
    decreases n
  {
    if n >= 10 {
      var s := NatToString(n);
      DigitsOfNat(n / 10);
      assert s[..|s| - 1] == NatToString(n / 10);
    }
  }

  /** Parsing a printed integer gives it back. */
  lemma {:induction false} ParsePrintedInt(n: int)
    ensures ParseInt(IntToString(n)) == Some(n)
  {
    var s := IntToString(n);
    if n < 0 {
      var d := NatToString(-n);
      DigitsOfNat(-n);
      assert s == "-" + d;
      assert s[0] == '-' && s[1..] == d;
    } else {
      DigitsOfNat(n);
      assert !IsDigit('-') && !IsDigit('+');
      assert s[0] != '-' && s[0] != '+';
    }
  }
}
