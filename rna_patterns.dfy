/** The regular expressions of the RNAalifold converter: `seq_pat`, `structure_pat`,
    `float_pat` and the energy patterns built from them, as deterministic scanners.
    Each scanner takes the text still to be matched and gives the groups and the text
    after the match, or None where `re.match` gives None. */
module RnaPatterns {
  import opened Wrappers
  import opened Text

  /** `[_\-a-zA-Z]`, a character of an aligned sequence. */
  predicate IsSeqChar(c: char) { c == '_' || c == '-' || IsAsciiLetter(c) }

  /** `[\.(){}\[\],]`, a character of a secondary structure. */
  predicate IsStructChar(c: char) {
    c == '.' || c == '(' || c == ')' || c == '{' || c == '}' || c == '[' || c == ']' || c == ','
  }

  /** `seq_pat$` on a stripped line. */
  predicate IsAlignment(s: string) { s != [] && forall i :: 0 <= i < |s| ==> IsSeqChar(s[i]) }

  /** `structure_pat$` on a word, which holds no newline. */
  predicate IsStructure(s: string) { s != [] && forall i :: 0 <= i < |s| ==> IsStructChar(s[i]) }

  predicate IsFloatChar(c: char) { IsDigit(c) || c == '.' }

  /** The length of the leading run of digits. */
  function DigitRun(s: string): (n: nat)
    ensures n <= |s| && (n < |s| ==> !IsDigit(s[n]))
    decreases |s|
  {
    if s != [] && IsDigit(s[0]) then 1 + DigitRun(s[1..]) else 0
  }

  lemma {:induction false} DigitRunDigits(s: string)
    ensures AllDigits(s[..DigitRun(s)])
    decreases |s|
  {
    if s != [] && IsDigit(s[0]) {
      DigitRunDigits(s[1..]);
      assert s[..DigitRun(s)] == [s[0]] + s[1..][..DigitRun(s[1..])];
    }
  }

  lemma {:induction false} DigitRunStops(w: string, rest: string)
    requires AllDigits(w) && (rest == [] || !IsDigit(rest[0]))
    ensures DigitRun(w + rest) == |w|
    decreases |w|
  {
    if w == [] {
      assert w + rest == rest;
    } else {
      assert (w + rest)[1..] == w[1..] + rest;
      DigitRunStops(w[1..], rest);
    }
  }

  /** The length of the leading run of spaces. */
  function BlankRun(s: string): (n: nat)
    ensures n <= |s| && (n < |s| ==> s[n] != ' ')
    decreases |s|
  {
    if s != [] && s[0] == ' ' then 1 + BlankRun(s[1..]) else 0
  }

  /** The text after an optional leading sign. */
  function Unsigned(s: string): (r: string)
    ensures |s| - |r| <= 1
  {
    if s != [] && (s[0] == '+' || s[0] == '-') then s[1..] else s
  }

  /** The texts `float_pat` matches in full: an optional sign, then either digits, or
      digits, a point and at least one digit. */
  predicate IsFloat(x: string) { IsUnsigned(Unsigned(x)) }

  predicate IsUnsigned(b: string) {
    var d := DigitRun(b);
    (d == |b| && d > 0) || (d + 1 < |b| && b[d] == '.' && AllDigits(b[d + 1..]))
  }

  /** How much of `s`, after its sign, the first match of `float_pat` at its start
      takes; 0 when there is none. */
  function UnsignedLen(b: string): (m: nat)
    ensures m <= |b|
  {
    var d := DigitRun(b);
    if d + 1 < |b| && b[d] == '.' && IsDigit(b[d + 1]) then d + 1 + DigitRun(b[d + 1..])
    else d
  }

  /** A character that cannot continue a float. */
  predicate Stops(rest: string) { rest == [] || !IsFloatChar(rest[0]) }

  /** No digit right after a match: a point may follow, when no digit follows it. */
  predicate NoDigitNext(rest: string) { rest == [] || !IsDigit(rest[0]) }

  /** What the scanner takes after the sign is a float without its sign, and it stops
      where the float cannot go on. */
  lemma {:induction false} UnsignedLenMatches(b: string)
    requires UnsignedLen(b) > 0
    ensures IsUnsigned(b[..UnsignedLen(b)]) && NoDigitNext(b[UnsignedLen(b)..])
  {
    var m := UnsignedLen(b);
    var d := DigitRun(b);
    var x := b[..m];
    DigitRunDigits(b);
    if d + 1 < |b| && b[d] == '.' && IsDigit(b[d + 1]) {
      var v := b[d + 1..];
      var r := DigitRun(v);
      DigitRunDigits(v);
      assert x == b[..d] + (['.'] + v[..r]);
      DigitRunStops(b[..d], ['.'] + v[..r]);
      assert x[d + 1..] == v[..r];
      assert m < |b| ==> b[m] == v[r];
    } else {
      assert x == b[..d];
      DigitRunStops(x, []);
      assert x + [] == x;
      assert m < |b| ==> b[m] == b[d];
    }
  }

  /** A float without its sign, followed by a character that cannot continue it, is
      taken whole. */
  lemma {:induction false} UnsignedTakes(b: string, rest: string)
    requires IsUnsigned(b) && Stops(rest)
    ensures UnsignedLen(b + rest) == |b|
  {
    var d := DigitRun(b);
    DigitRunDigits(b);
    if d == |b| && d > 0 {
      assert b[..d] == b;
      DigitRunStops(b, rest);
      assert d < |b + rest| ==> (b + rest)[d] == rest[0];
    } else {
      var u, v := b[..d], b[d + 1..];
      assert b == u + (['.'] + v);
      assert b + rest == u + (['.'] + (v + rest));
      DigitRunStops(u, ['.'] + (v + rest));
      assert (b + rest)[d + 1..] == v + rest;
      DigitRunStops(v, rest);
    }
  }

  lemma {:induction false} UnsignedAppend(x: string, rest: string)
    requires x != []
    ensures Unsigned(x + rest) == Unsigned(x) + rest
    ensures |x + rest| - |Unsigned(x + rest)| == |x| - |Unsigned(x)|
  {
    assert (x + rest)[0] == x[0];
    if x[0] == '+' || x[0] == '-' {
      assert (x + rest)[1..] == x[1..] + rest;
    }
  }

  predicate IsSign(c: char) { c == '+' || c == '-' }

  /** The text splits into its sign and the rest. */
  lemma {:induction false} UnsignedSplit(s: string)
    ensures var k := |s| - |Unsigned(s)|;
      s == s[..k] + Unsigned(s) && (k == 1 ==> IsSign(s[0]))
  {
    var k := |s| - |Unsigned(s)|;
    assert s[k..] == Unsigned(s);
  }

  /** A float without its sign starts with a digit or a point. */
  lemma {:induction false} UnsignedStart(x: string)
    requires IsUnsigned(x)
    ensures x != [] && !IsSign(x[0])
  {
  }

  /** An optional sign before a float without its sign makes a float. */
  lemma {:induction false} SignedFloat(p: string, x: string)
    requires |p| <= 1 && (p != [] ==> IsSign(p[0])) && IsUnsigned(x)
    ensures IsFloat(p + x)
  {
    UnsignedStart(x);
    if p == [] {
      assert p + x == x;
    } else {
      assert (p + x)[0] == p[0] && (p + x)[1..] == x;
    }
  }

  /** A float starts with a sign, a digit or a point. */
  lemma {:induction false} FloatStart(x: string)
    requires IsFloat(x)
    ensures x != [] && x[0] != ' '
  {
    UnsignedStart(Unsigned(x));
  }

  /** The sign and what the scanner takes after it make a float. */
  lemma {:induction false} FloatMatch(s: string, p: string, b: string, m: nat)
    requires b == Unsigned(s) && m == UnsignedLen(b) && m > 0 && p == s[..|s| - |b|]
    ensures IsFloat(p + b[..m]) && s == (p + b[..m]) + b[m..] && NoDigitNext(b[m..])
  {
    UnsignedSplit(s);
    UnsignedLenMatches(b);
    SignedFloat(p, b[..m]);
    PrefixSplit(p, b, m);
    AppendAssoc(p, b[..m], b[m..]);
    assert b == b[..m] + b[m..];
  }

  lemma {:induction false} PrefixSplit(p: string, b: string, m: nat)
    requires m <= |b|
    ensures (p + b)[..|p| + m] == p + b[..m] && (p + b)[|p| + m..] == b[m..]
  {
  }

  // ---------------------------------------------------------------------------------
  // Scanners

  /** A literal character. */
  function Char(s: string, c: char): (r: Option<string>)
    ensures r.Some? <==> s != [] && s[0] == c
    ensures r.Some? ==> s == [c] + r.value
  {
    if s != [] && s[0] == c then Some(s[1..]) else None
  }

  /** A literal text. */
  function Word(s: string, w: string): (r: Option<string>)
    ensures r.Some? <==> w <= s
    ensures r.Some? ==> s == w + r.value
  {
    if w <= s then
      assert s == s[..|w|] + s[|w|..];
      Some(s[|w|..])
    else None
  }

  /** ` *`, greedy. */
  function Blanks(s: string): (r: string)
    ensures |r| <= |s| && r == s[|s| - |r|..]
    ensures r == [] || r[0] != ' '
  {
    var n := BlankRun(s);
    assert n < |s| ==> s[n..][0] == s[n];
    s[n..]
  }

  /** One space, or none, before a character that is not a space. */
  lemma {:induction false} BlankOne(rest: string)
    requires rest == [] || rest[0] != ' '
    ensures Blanks([' '] + rest) == rest && Blanks(rest) == rest
  {
    assert BlankRun(rest) == 0;
    assert rest[0..] == rest;
    assert BlankRun([' '] + rest) == 1 by { assert ([' '] + rest)[1..] == rest; }
    assert ([' '] + rest)[1..] == rest;
  }

  /** `(float_pat)`: the group and the text after it, the first match at the start of
      `s`. The engine takes the sign and the digits before a point greedily; when no
      digit follows the point it falls back to the digits alone. Every other way to
      match ends just before a digit or a point, so where the pattern is followed by
      anything else (a space, `=`, `+`, `)`, `]`, `}`, `;`, `d` or `M`, or by `\s*`,
      which always matches) this first match is the only one the whole expression can
      use. */
  function Float(s: string): (r: Option<(string, string)>)
    ensures r.Some? ==> IsFloat(r.value.0) && s == r.value.0 + r.value.1 && NoDigitNext(r.value.1)
  {
    var b := Unsigned(s);
    var m := UnsignedLen(b);
    if m == 0 then None
    else
      var p := s[..|s| - |b|];
      FloatMatch(s, p, b, m);
      Some((p + b[..m], b[m..]))
  }

  /** `$`: the end of the text, or a newline that ends it. */
  predicate AtEnd(s: string) { s == "" || s == "\n" }

  /** `(e) *= *(a) *\+ *(b)`: an energy as its total, free energy and covariance. */
  datatype Energy = Energy(total: string, free: string, covariance: string)

  predicate EnergyFloats(e: Energy) { IsFloat(e.total) && IsFloat(e.free) && IsFloat(e.covariance) }

  function EnergySum(s: string): (r: Option<(Energy, string)>)
    ensures r.Some? ==> EnergyFloats(r.value.0) && NoDigitNext(r.value.1)
  {
    var f1 :- Float(s);
    var s1 :- Char(Blanks(f1.1), '=');
    var f2 :- Float(Blanks(s1));
    var s2 :- Char(Blanks(f2.1), '+');
    var f3 :- Float(Blanks(s2));
    Some((Energy(f1.0, f2.0, f3.0), f3.1))
  }

  /** `\((float) *= *(float) *\+ *(float)\)$`, the energies after the MFE structure. */
  function MfeEnergy(s: string): (r: Option<Energy>)
    ensures r.Some? ==> EnergyFloats(r.value)
  {
    var s1 :- Char(s, '(');
    var e :- EnergySum(s1);
    var s2 :- Char(e.1, ')');
    if AtEnd(s2) then Some(e.0) else None
  }

  /** `\[(float)\]$`, the ensemble free energy after the partition function structure. */
  function EnsembleEnergy(s: string): (r: Option<string>)
    ensures r.Some? ==> IsFloat(r.value)
  {
    var s1 :- Char(s, '[');
    var f :- Float(s1);
    var s2 :- Char(f.1, ']');
    if AtEnd(s2) then Some(f.0) else None
  }

  /** `{(float) *= *(float) *\+ *(float) *(tag float)}`, a centroid (`d=`) or an MEA
      (`MEA=`) energy; the fourth group holds the tag with its number. Anything may
      follow the closing brace. */
  function TaggedEnergy(s: string, tag: string): (r: Option<(Energy, string)>)
    ensures r.Some? ==> EnergyFloats(r.value.0) && tag <= r.value.1 && IsFloat(r.value.1[|tag|..])
  {
    var s1 :- Char(s, '{');
    var e :- EnergySum(s1);
    var s2 :- Word(Blanks(e.1), tag);
    var f :- Float(s2);
    var _ :- Char(f.1, '}');
    assert (tag + f.0)[|tag|..] == f.0;
    Some((e.0, tag + f.0))
  }

  const FrequencyText := "frequency of mfe structure in ensemble "

  const DiversityText := "; ensemble diversity "

  /** `\s*frequency of mfe structure in ensemble (float); ensemble diversity (float)\s*`
      with `re.match`: the frequency and the diversity. */
  function Frequency(line: string): (r: Option<(string, string)>)
    ensures r.Some? ==> IsFloat(r.value.0) && IsFloat(r.value.1)
  {
    var s1 :- Word(DropSpaces(line), FrequencyText);
    var f1 :- Float(s1);
    var s2 :- Word(f1.1, DiversityText);
    var f2 :- Float(s2);
    Some((f1.0, f2.0))
  }

  // ---------------------------------------------------------------------------------
  // The texts RNAalifold writes, and the scanners reading them back

  /** `e = a + b` with single spaces. */
  function EnergyText(e: Energy): string {
    e.total + (" = " + (e.free + (" + " + e.covariance)))
  }

  function MfeText(e: Energy): string { "(" + (EnergyText(e) + ")") }

  function EnsembleText(x: string): string { "[" + (x + "]") }

  function TaggedText(e: Energy, tag: string, x: string): string {
    "{" + (EnergyText(e) + (" " + (tag + (x + "}"))))
  }

  function FrequencyLine(f: string, d: string): string {
    " " + (FrequencyText + (f + (DiversityText + (d + "\n"))))
  }

  /** A float followed by a character that cannot continue it is taken whole. */
  lemma {:induction false} FloatStep(x: string, rest: string)
    requires IsFloat(x) && Stops(rest)
    ensures Float(x + rest) == Some((x, rest))
  {
    var u := Unsigned(x);
    assert x != [];
    UnsignedAppend(x, rest);
    UnsignedTakes(u, rest);
    UnsignedSplit(x);
    var k := |x| - |u|;
    assert (x + rest)[..k] == x[..k];
    PrefixSplit([], u, |u|);
    assert (u + rest)[..|u|] == u && (u + rest)[|u|..] == rest;
  }

  /** ` *c *` between two floats, written as one space on each side. */
  lemma {:induction false} OperatorStep(c: char, rest: string)
    requires c != ' ' && (rest == [] || rest[0] != ' ')
    ensures var s := [' ', c, ' '] + rest; Char(Blanks(s), c) == Some([' '] + rest) && Blanks([' '] + rest) == rest
  {
    var s := [' ', c, ' '] + rest;
    assert s == [' '] + ([c, ' '] + rest);
    BlankOne([c, ' '] + rest);
    assert ([c, ' '] + rest)[1..] == [' '] + rest;
    BlankOne(rest);
  }

  /** The energies scan back from their text, followed by anything that cannot continue
      the last float. */
  lemma {:induction false} EnergyRoundTrip(e: Energy, rest: string)
    requires EnergyFloats(e) && Stops(rest)
    ensures EnergySum(EnergyText(e) + rest) == Some((e, rest))
  {
    var tail2 := " + " + (e.covariance + rest);
    var tail1 := " = " + (e.free + tail2);
    assert EnergyText(e) + rest == e.total + tail1 by {
      AppendAssoc(e.total, " = " + (e.free + (" + " + e.covariance)), rest);
      AppendAssoc(" = ", e.free + (" + " + e.covariance), rest);
      AppendAssoc(e.free, " + " + e.covariance, rest);
      AppendAssoc(" + ", e.covariance, rest);
    }
    assert tail1[0] == ' ';
    FloatStep(e.total, tail1);
    FloatStart(e.free);
    OperatorStep('=', e.free + tail2);
    assert tail2[0] == ' ';
    FloatStep(e.free, tail2);
    FloatStart(e.covariance);
    OperatorStep('+', e.covariance + rest);
    FloatStep(e.covariance, rest);
    BlankOne(e.covariance + rest);
  }

  /** `(e = a + b)` and the newline read back as the energies. */
  lemma {:induction false} MfeRoundTrip(e: Energy)
    requires EnergyFloats(e)
    ensures MfeEnergy(MfeText(e) + "\n") == Some(e)
  {
    var s := MfeText(e) + "\n";
    assert s == "(" + (EnergyText(e) + ")\n");
    EnergyRoundTrip(e, ")\n");
    assert ")\n"[1..] == "\n";
  }

  lemma {:induction false} EnsembleRoundTrip(x: string)
    requires IsFloat(x)
    ensures EnsembleEnergy(EnsembleText(x) + "\n") == Some(x)
  {
    var s := EnsembleText(x) + "\n";
    assert s == "[" + (x + "]\n");
    assert s[1..] == x + "]\n";
    FloatStep(x, "]\n");
    assert "]\n"[1..] == "\n";
    EnsembleOf(s, x, "]\n");
  }

  /** The steps of `EnsembleEnergy` once each has been matched. */
  lemma {:induction false} EnsembleOf(s: string, x: string, t: string)
    requires s != [] && s[0] == '[' && Float(s[1..]) == Some((x, t))
    requires t != [] && t[0] == ']' && AtEnd(t[1..])
    ensures EnsembleEnergy(s) == Some(x)
  {
  }

  lemma {:induction false} TaggedRoundTrip(e: Energy, tag: string, x: string, rest: string)
    requires EnergyFloats(e) && IsFloat(x) && tag != [] && tag[0] != ' '
    ensures TaggedEnergy(TaggedText(e, tag, x) + rest, tag) == Some((e, tag + x))
  {
    var after := tag + (x + ("}" + rest));
    var s := TaggedText(e, tag, x) + rest;
    assert s == "{" + (EnergyText(e) + (" " + after)) by {
      AppendAssoc("{", EnergyText(e) + (" " + (tag + (x + "}"))), rest);
      AppendAssoc(EnergyText(e), " " + (tag + (x + "}")), rest);
      AppendAssoc(" ", tag + (x + "}"), rest);
      AppendAssoc(tag, x + "}", rest);
      AppendAssoc(x, "}", rest);
    }
    assert s[1..] == EnergyText(e) + (" " + after);
    assert (" " + after)[0] == ' ';
    EnergyRoundTrip(e, " " + after);
    assert after[0] == tag[0];
    BlankOne(after);
    assert after[..|tag|] == tag && after[|tag|..] == x + ("}" + rest);
    assert ("}" + rest)[0] == '}';
    FloatStep(x, "}" + rest);
    TaggedOf(s, tag, EnergyText(e) + (" " + after), e, " " + after, x + ("}" + rest), x, "}" + rest);
  }

  /** The steps of `TaggedEnergy` once each has been matched. */
  lemma {:induction false} TaggedOf(s: string, tag: string, s1: string, e: Energy, t1: string, s2: string, x: string, t2: string)
    requires s != [] && s[0] == '{' && s[1..] == s1 && EnergySum(s1) == Some((e, t1))
    requires tag <= Blanks(t1) && Blanks(t1)[|tag|..] == s2 && Float(s2) == Some((x, t2))
    requires t2 != [] && t2[0] == '}'
    ensures TaggedEnergy(s, tag) == Some((e, tag + x))
  {
  }

  lemma {:induction false} FrequencyRoundTrip(f: string, d: string)
    requires IsFloat(f) && IsFloat(d)
    ensures Frequency(FrequencyLine(f, d)) == Some((f, d))
  {
    var line := FrequencyLine(f, d);
    var tail := FrequencyText + (f + (DiversityText + (d + "\n")));
    assert line == [' '] + tail;
    assert !IsSpace('f');
    RunLengthStops([' '], tail, IsSpace);
    assert DropSpaces(line) == tail;
    assert tail[..|FrequencyText|] == FrequencyText;
    assert tail[|FrequencyText|..] == f + (DiversityText + (d + "\n"));
    FloatStep(f, DiversityText + (d + "\n"));
    var t2 := DiversityText + (d + "\n");
    assert t2[..|DiversityText|] == DiversityText && t2[|DiversityText|..] == d + "\n";
    FloatStep(d, "\n");
    FrequencyOf(line, tail[|FrequencyText|..], f, t2, d + "\n", d, "\n");
  }

  /** The steps of `Frequency` once each has been matched. */
  lemma {:induction false} FrequencyOf(line: string, s1: string, f: string, t1: string, s2: string, d: string, t2: string)
    requires FrequencyText <= DropSpaces(line) && DropSpaces(line)[|FrequencyText|..] == s1
    requires Float(s1) == Some((f, t1)) && DiversityText <= t1 && t1[|DiversityText|..] == s2
    requires Float(s2) == Some((d, t2))
    ensures Frequency(line) == Some((f, d))
  {
  }
}
