/** Placeholder interpolation: the `{{ namespace:key }}` tokens that the installer
    replaces with values from a context, in configuration values (`interpolate_string`,
    `interpolate_list`, `interpolate_dict`) and in the service template as it is loaded
    (`TemplateYamlLoader`). */
module Interpolation {
  import opened Wrappers
  import opened OrderedMaps
  import opened Text

  /** The two token patterns. `Strict` is the one `interpolate_string` uses, whose key
      characters are word characters, `/` and `.`; `Loose` is the template loader's,
      which also allows `-` in the key. Both allow word characters and `-` in the
      namespace. */
  datatype Variant = Strict | Loose

  predicate NamespaceChar(c: char) { IsWordChar(c) || c == '-' }

  predicate StrictKeyChar(c: char) { IsWordChar(c) || c == '/' || c == '.' }

  predicate LooseKeyChar(c: char) { StrictKeyChar(c) || c == '-' }

  function KeyClass(v: Variant): char -> bool {
    if v == Strict then StrictKeyChar else LooseKeyChar
  }

  predicate AllNamespace(s: string) { forall i :: 0 <= i < |s| ==> NamespaceChar(s[i]) }

  predicate AllKey(v: Variant, s: string) { forall i :: 0 <= i < |s| ==> KeyClass(v)(s[i]) }

  /** A matched token: its namespace and name, which group 1 captures with a colon
      between them, and whether the optional space after `{{` and before `}}` was
      present. */
  datatype Token = Token(ns: string, name: string, lead: bool, trail: bool) {
    function Key(): string { ns + ":" + name }
  }

  /** A token the pattern can match: a non-empty namespace and a non-empty name, each
      over its character class. */
  predicate ValidToken(v: Variant, t: Token) {
    t.ns != [] && t.name != [] && AllNamespace(t.ns) && AllKey(v, t.name)
  }

  /** The exact text a token occupies: `{{`, the optional space, the namespace, a colon
      and the rest of the token. */
  function TokenText(t: Token): (r: string)
    ensures |r| == |t.ns| + |t.name| + 5 + (if t.lead then 1 else 0) + (if t.trail then 1 else 0)
  {
    "{{" + (if t.lead then " " else "") + (t.ns + ([':'] + NameText(t)))
  }

  /** The part of a token after the colon: the name, the optional space and `}}`. */
  function NameText(t: Token): string {
    t.name + ((if t.trail then " " else "") + "}}")
  }

  /** The pattern `\{\{ ?([\w\-]+:K+) ?\}\}` anchored at the start of `s`. The pattern
      admits at most one match at a given position: the namespace run cannot contain
      `:`, the key run is followed by a space or `}` which the key class excludes, and
      after the optional space only `}}` may follow. So the greedy scan below, split in
      three stages, finds the same match as a backtracking matcher. */
  function MatchToken(v: Variant, s: string): (r: Option<Token>)
    ensures r.Some? ==> ValidToken(v, r.value) && TokenText(r.value) <= s
  {
    if |s| < 2 || s[0] != '{' || s[1] != '{' then None
    else
      var lead := 2 < |s| && s[2] == ' ';
      var body := if lead then s[3..] else s[2..];
      var r := MatchNamespace(v, lead, body);
      if r.None? then None
      else
        OpenSplit(s, lead);
        PrefixPrepend("{{" + (if lead then " " else ""), r.value.ns + ([':'] + NameText(r.value)), body);
        r
  }

  /** `s` after its `{{` and optional space, as the matcher slices it. */
  lemma {:induction false} OpenSplit(s: string, lead: bool)
    requires |s| >= 2 && s[0] == '{' && s[1] == '{' && lead == (2 < |s| && s[2] == ' ')
    ensures s == "{{" + (if lead then " " else "") + (if lead then s[3..] else s[2..])
  {
    if lead { assert s == s[..3] + s[3..]; } else { assert s == s[..2] + s[2..]; }
  }

  /** After `{{` and the optional space: the namespace run and the colon. */
  function MatchNamespace(v: Variant, lead: bool, body: string): (r: Option<Token>)
    ensures r.Some? ==> r.value.lead == lead && ValidToken(v, r.value)
                        && r.value.ns + ([':'] + NameText(r.value)) <= body
  {
    var ns := Span(body, NamespaceChar);
    var rest := body[|ns|..];
    if ns == [] || rest == [] || rest[0] != ':' then None
    else
      var r := MatchName(v, lead, ns, rest[1..]);
      if r.None? then None
      else
        assert body == ns + ([':'] + rest[1..]);
        PrefixPrepend([':'], NameText(r.value), rest[1..]);
        PrefixPrepend(ns, [':'] + NameText(r.value), [':'] + rest[1..]);
        r
  }

  /** After the colon: the key run, the optional space and `}}`. */
  function MatchName(v: Variant, lead: bool, ns: string, body: string): (r: Option<Token>)
    ensures r.Some? ==> r.value.lead == lead && r.value.ns == ns && r.value.name != []
                        && AllKey(v, r.value.name) && NameText(r.value) <= body
  {
    var name := Span(body, KeyClass(v));
    var rest := body[|name|..];
    var trail := rest != [] && rest[0] == ' ';
    var close := if trail then rest[1..] else rest;
    if name == [] || |close| < 2 || close[0] != '}' || close[1] != '}' then None
    else
      var t := Token(ns, name, lead, trail);
      assert body == name + rest;
      assert rest == (if trail then " " else "") + close by {
        if trail { assert rest == [rest[0]] + rest[1..]; }
      }
      assert "}}" <= close;
      PrefixPrepend(if trail then " " else "", "}}", close);
      PrefixPrepend(name, (if trail then " " else "") + "}}", rest);
      Some(t)
  }

  /** The recogniser accepts every token text it can produce, whatever follows it. */
  lemma {:induction false} MatchTokenText(v: Variant, t: Token, rest: string)
    requires ValidToken(v, t)
    ensures MatchToken(v, TokenText(t) + rest) == Some(t)
  {
    OpenText(t, rest);
    MatchNamespaceText(v, t, rest);
  }

  /** How the matcher's first stage sees a token text: `{{`, the optional space, and
      then the namespace and what follows it. */
  lemma {:induction false} OpenText(t: Token, rest: string)
    requires t.ns != [] && AllNamespace(t.ns)
    ensures var s := TokenText(t) + rest;
            |s| >= 2 && s[0] == '{' && s[1] == '{' && (2 < |s| && s[2] == ' ') == t.lead
            && (if t.lead then s[3..] else s[2..]) == t.ns + ([':'] + (NameText(t) + rest))
  {
    var s := TokenText(t) + rest;
    var body := t.ns + ([':'] + (NameText(t) + rest));
    assert s == ("{{" + (if t.lead then " " else "")) + body;
    if t.lead { assert s[3..] == body; } else { assert s[2..] == body; assert s[2] == t.ns[0]; }
  }

  lemma {:induction false} MatchNamespaceText(v: Variant, t: Token, rest: string)
    requires ValidToken(v, t)
    ensures MatchNamespace(v, t.lead, t.ns + ([':'] + (NameText(t) + rest))) == Some(t)
  {
    var after := [':'] + (NameText(t) + rest);
    SpanStops(t.ns, after, NamespaceChar);
    assert (t.ns + after)[|t.ns|..] == after;
    assert after[1..] == NameText(t) + rest;
    MatchNameText(v, t, rest);
  }

  lemma {:induction false} MatchNameText(v: Variant, t: Token, rest: string)
    requires ValidToken(v, t)
    ensures MatchName(v, t.lead, t.ns, NameText(t) + rest) == Some(t)
  {
    var close := "}}" + rest;
    var after := (if t.trail then " " else "") + close;
    assert NameText(t) + rest == t.name + after;
    SpanStops(t.name, after, KeyClass(v));
    assert (t.name + after)[|t.name|..] == after;
    assert (if t.trail then after[1..] else after) == close;
  }

  /** Every token of the interpolation pattern is also a token of the template loader's
      pattern, with the same key and extent. */
  lemma {:induction false} StrictTokenIsLoose(s: string)
    requires MatchToken(Strict, s).Some?
    ensures MatchToken(Loose, s) == MatchToken(Strict, s)
  {
    var t := MatchToken(Strict, s).value;
    assert AllKey(Loose, t.name) by {
      forall i | 0 <= i < |t.name| ensures LooseKeyChar(t.name[i]) {
        assert KeyClass(Strict)(t.name[i]);
      }
    }
    PrefixRest(TokenText(t), s);
    MatchTokenText(Loose, t, s[|TokenText(t)|..]);
  }

  /** A `-` in the key separates the two: the loader replaces this token, interpolation
      leaves it alone. */
  lemma {:induction false} DashedKeyLoose()
    ensures MatchToken(Loose, "{{ local-path:my-dir }}") == Some(Token("local-path", "my-dir", true, true))
  {
    var t := Token("local-path", "my-dir", true, true);
    assert TokenText(t) + "" == "{{ local-path:my-dir }}";
    MatchTokenText(Loose, t, "");
  }

  lemma {:induction false} DashedKeyNotStrict()
    ensures MatchToken(Strict, "{{ local-path:my-dir }}") == None
  {
    var s := "{{ local-path:my-dir }}";
    assert s[0] == '{' && s[1] == '{' && s[2] == ' ';
    assert s[3..] == "local-path:my-dir }}";
    DashStopsStrictNamespace();
  }

  lemma {:induction false} DashStopsStrictNamespace()
    ensures MatchNamespace(Strict, true, "local-path:my-dir }}") == None
  {
    var body := "local-path" + ":my-dir }}";
    assert "local-path:my-dir }}" == body;
    SpanStops("local-path", ":my-dir }}", NamespaceChar);
    assert body[10..] == ":my-dir }}";
    assert ":my-dir }}"[1..] == "my-dir }}";
    DashStopsStrictName();
  }

  lemma {:induction false} DashStopsStrictName()
    ensures MatchName(Strict, true, "local-path", "my-dir }}") == None
  {
    assert "my-dir }}" == "my" + "-dir }}";
    SpanStops("my", "-dir }}", StrictKeyChar);
    assert "my-dir }}"[2..] == "-dir }}";
  }

  /** A scanned piece of text: a character copied as it is, or a token to replace. */
  datatype Piece = Lit(c: char) | Ref(t: Token)

  /** The left-to-right, non-overlapping search `re.sub` performs: at each position
      either a token starts there, or one character is kept and the search moves on. */
  function Scan(v: Variant, s: string): (r: seq<Piece>)
    decreases |s|
  {
    if s == [] then []
    else match MatchToken(v, s)
      case Some(t) => [Ref(t)] + Scan(v, s[|TokenText(t)|..])
      case None => [Lit(s[0])] + Scan(v, s[1..])
  }

  /** The text the pieces were scanned from. */
  function Unscan(ps: seq<Piece>): string {
    if ps == [] then ""
    else (match ps[0] case Lit(c) => [c] case Ref(t) => TokenText(t)) + Unscan(ps[1..])
  }

  /** The keys of the tokens, in order of appearance; there are none exactly when every
      piece is a plain character. */
  function Keys(ps: seq<Piece>): (r: seq<string>)
    ensures |r| <= |ps|
    ensures r == [] <==> forall i :: 0 <= i < |ps| ==> ps[i].Lit?
  {
    if ps == [] then []
    else
      assert forall i :: 1 <= i < |ps| ==> ps[i] == ps[1..][i - 1];
      (if ps[0].Ref? then [ps[0].t.Key()] else []) + Keys(ps[1..])
  }

  /** Scanning loses nothing: the pieces spell out the input. */
  lemma {:induction false} UnscanScan(v: Variant, s: string)
    ensures Unscan(Scan(v, s)) == s
    decreases |s|
  {
    if s != [] {
      match MatchToken(v, s)
      case Some(t) =>
        var rest := s[|TokenText(t)|..];
        UnscanScan(v, rest);
        PrefixRest(TokenText(t), s);
        assert ([Ref(t)] + Scan(v, rest))[1..] == Scan(v, rest);
      case None =>
        UnscanScan(v, s[1..]);
        assert ([Lit(s[0])] + Scan(v, s[1..]))[1..] == Scan(v, s[1..]);
        assert s == [s[0]] + s[1..];
    }
  }

  /** Replaces every token by the value `lookup` gives for its key; the first lookup that
      fails aborts the substitution with its error. */
  function Replace<E>(ps: seq<Piece>, lookup: string -> Result<string, E>): Result<string, E> {
    if ps == [] then Ok("")
    else
      match ps[0]
      case Lit(c) =>
        var rest :- Replace(ps[1..], lookup);
        Ok([c] + rest)
      case Ref(t) =>
        var x :- lookup(t.Key());
        var rest :- Replace(ps[1..], lookup);
        Ok(x + rest)
  }

  /** `re.sub(pattern, lambda m: context[m.group(1)], s)` for either pattern. */
  function Substitute<E>(v: Variant, s: string, lookup: string -> Result<string, E>): Result<string, E> {
    Replace(Scan(v, s), lookup)
  }

  /** `interpolate_string`: it succeeds exactly when every key its pattern finds is in
      the context, fails otherwise with the error of the first missing one, and returns
      a string without `{{` unchanged. */
  function InterpolateString<E>(s: string, lookup: string -> Result<string, E>): (r: Result<string, E>)
    ensures r.Ok? <==> AllFound(TokenKeys(Strict, s), lookup)
    ensures r.Err? ==> exists i :: 0 <= i < |TokenKeys(Strict, s)| && lookup(TokenKeys(Strict, s)[i]) == Err(r.error)
                                   && forall j :: 0 <= j < i ==> lookup(TokenKeys(Strict, s)[j]).Ok?
    ensures NoOpenBraces(s) ==> r == Ok(s)
  {
    var ps := Scan(Strict, s);
    ReplaceOk(ps, lookup);
    if NoOpenBraces(s) then
      NoPlaceholderUnchanged(Strict, s, lookup);
      Replace(ps, lookup)
    else if Replace(ps, lookup).Err? then
      ReplaceFirstError(ps, lookup);
      Replace(ps, lookup)
    else Replace(ps, lookup)
  }

  /** The keys `re.sub` looks up in `s`, in order. */
  function TokenKeys(v: Variant, s: string): seq<string> {
    Keys(Scan(v, s))
  }

  /** Every key in `ks` is found by `lookup`. */
  predicate AllFound<E>(ks: seq<string>, lookup: string -> Result<string, E>) {
    forall i :: 0 <= i < |ks| ==> lookup(ks[i]).Ok?
  }

  /** The substitution succeeds exactly when every token's lookup succeeds. */
  lemma {:induction false} ReplaceOk<E>(ps: seq<Piece>, lookup: string -> Result<string, E>)
    ensures Replace(ps, lookup).Ok? <==> AllFound(Keys(ps), lookup)
  {
    if ps != [] {
      var ks, ks' := Keys(ps), Keys(ps[1..]);
      ReplaceOk(ps[1..], lookup);
      match ps[0]
      case Lit(c) =>
        assert ks == ks';
      case Ref(t) =>
        assert ks == [t.Key()] + ks';
        if AllFound(ks, lookup) {
          assert lookup(ks[0]).Ok?;
          forall i | 0 <= i < |ks'| ensures lookup(ks'[i]).Ok? {
            assert ks'[i] == ks[i + 1];
          }
        }
        if lookup(t.Key()).Ok? && AllFound(ks', lookup) {
          forall i | 0 <= i < |ks| ensures lookup(ks[i]).Ok? {
            if i > 0 { assert ks[i] == ks'[i - 1]; }
          }
        }
    }
  }

  /** A failed substitution reports the error of the first token whose lookup fails. */
  lemma {:induction false} ReplaceFirstError<E>(ps: seq<Piece>, lookup: string -> Result<string, E>)
    requires Replace(ps, lookup).Err?
    ensures exists i :: 0 <= i < |Keys(ps)| && lookup(Keys(ps)[i]) == Err(Replace(ps, lookup).error)
                        && forall j :: 0 <= j < i ==> lookup(Keys(ps)[j]).Ok?
  {
    var e := Replace(ps, lookup).error;
    var ks, ks' := Keys(ps), Keys(ps[1..]);
    match ps[0]
    case Lit(c) =>
      assert ks == ks';
      ReplaceFirstError(ps[1..], lookup);
    case Ref(t) =>
      assert ks == [t.Key()] + ks';
      if lookup(t.Key()).Err? {
        assert lookup(ks[0]) == Err(e);
      } else {
        ReplaceFirstError(ps[1..], lookup);
        var i :| 0 <= i < |ks'| && lookup(ks'[i]) == Err(e) && forall j :: 0 <= j < i ==> lookup(ks'[j]).Ok?;
        assert ks[i + 1] == ks'[i];
        assert forall j :: 1 <= j < i + 1 ==> ks[j] == ks'[j - 1];
      }
  }

  /** With no tokens the text comes back unchanged. */
  lemma {:induction false} ReplaceNoTokens<E>(ps: seq<Piece>, lookup: string -> Result<string, E>)
    requires Keys(ps) == []
    ensures Replace(ps, lookup) == Ok(Unscan(ps))
  {
    if ps != [] {
      assert ps[0].Lit?;
      assert forall i :: 0 <= i < |ps[1..]| ==> ps[1..][i] == ps[i + 1];
      ReplaceNoTokens(ps[1..], lookup);
    }
  }

  /** A string in which `{{` never occurs has no token. */
  predicate NoOpenBraces(s: string) {
    forall i :: 0 <= i < |s| - 1 ==> !(s[i] == '{' && s[i + 1] == '{')
  }

  lemma {:induction false} NoOpenBracesNoTokens(v: Variant, s: string)
    requires NoOpenBraces(s)
    ensures TokenKeys(v, s) == []
    decreases |s|
  {
    if s != [] {
      assert MatchToken(v, s) == None by {
        if 1 < |s| { assert !(s[0] == '{' && s[1] == '{'); }
      }
      assert Scan(v, s) == [Lit(s[0])] + Scan(v, s[1..]);
      assert NoOpenBraces(s[1..]) by {
        forall i | 0 <= i < |s[1..]| - 1 ensures !(s[1..][i] == '{' && s[1..][i + 1] == '{') {
          assert s[1..][i] == s[i + 1] && s[1..][i + 1] == s[i + 2];
        }
      }
      NoOpenBracesNoTokens(v, s[1..]);
      assert Keys(Scan(v, s)) == Keys(Scan(v, s[1..]));
    }
  }

  /** A string without `{{` is returned unchanged, whatever the context. */
  lemma {:induction false} NoPlaceholderUnchanged<E>(v: Variant, s: string, lookup: string -> Result<string, E>)
    requires NoOpenBraces(s)
    ensures Substitute(v, s, lookup) == Ok(s)
  {
    NoOpenBracesNoTokens(v, s);
    ReplaceNoTokens(Scan(v, s), lookup);
    UnscanScan(v, s);
  }

  /** One step of the pass at a token: its replacement is emitted as it is and scanning
      resumes after the token, so the replacement text is never searched for tokens. */
  lemma {:induction false} SubstituteAtToken<E>(v: Variant, t: Token, rest: string, lookup: string -> Result<string, E>)
    requires ValidToken(v, t) && lookup(t.Key()).Ok?
    ensures var r := Substitute(v, TokenText(t) + rest, lookup);
            r.Ok? == Substitute(v, rest, lookup).Ok?
            && (r.Ok? ==> r.value == lookup(t.Key()).value + Substitute(v, rest, lookup).value)
  {
    var s := TokenText(t) + rest;
    MatchTokenText(v, t, rest);
    assert s[|TokenText(t)|..] == rest;
    assert Scan(v, s) == [Ref(t)] + Scan(v, rest);
    assert Scan(v, s)[1..] == Scan(v, rest);
  }

  /** One step of the pass where no token starts: the character is kept. */
  lemma {:induction false} SubstituteAtChar<E>(v: Variant, c: char, rest: string, lookup: string -> Result<string, E>)
    requires MatchToken(v, [c] + rest).None?
    ensures var r := Substitute(v, [c] + rest, lookup);
            r.Ok? == Substitute(v, rest, lookup).Ok?
            && (r.Ok? ==> r.value == [c] + Substitute(v, rest, lookup).value)
  {
    var s := [c] + rest;
    assert s[1..] == rest;
    assert Scan(v, s) == [Lit(c)] + Scan(v, rest);
    assert Scan(v, s)[1..] == Scan(v, rest);
  }

  /** A plain dictionary used as the context: a missing key raises KeyError. */
  datatype Missing = KeyError(key: string)

  function DictLookup(m: map<string, string>): string -> Result<string, Missing> {
    k => if k in m then Ok(m[k]) else Err(KeyError(k))
  }

  /** With a dictionary context, interpolation fails exactly when some token's key is
      missing, and then raises KeyError for the first missing key. */
  lemma {:induction false} DictInterpolation(v: Variant, s: string, m: map<string, string>)
    ensures var ks := TokenKeys(v, s);
            Substitute(v, s, DictLookup(m)).Ok? <==> forall i :: 0 <= i < |ks| ==> ks[i] in m
    ensures var ks := TokenKeys(v, s); var r := Substitute(v, s, DictLookup(m));
            r.Err? ==> exists i :: 0 <= i < |ks| && ks[i] !in m && r.error == KeyError(ks[i])
                        && forall j :: 0 <= j < i ==> ks[j] in m
  {
    var ks := TokenKeys(v, s);
    ReplaceOk(Scan(v, s), DictLookup(m));
    assert forall i :: 0 <= i < |ks| ==> (DictLookup(m)(ks[i]).Ok? <==> ks[i] in m);
    if Substitute(v, s, DictLookup(m)).Err? {
      ReplaceFirstError(Scan(v, s), DictLookup(m));
    }
  }

  /** The context of the first parametrised interpolation test. */
  function ExampleContext(): string -> Result<string, Missing> {
    DictLookup(map["key:value" := "replacement"])
  }

  function ExampleToken(): (t: Token)
    ensures ValidToken(Strict, t) && t.Key() == "key:value"
    ensures TokenText(t) + "." == "{{ key:value }}."
  {
    Token("key", "value", true, true)
  }

  lemma {:induction false} ExampleTail()
    ensures Substitute(Strict, "{{ key:value }}.", ExampleContext()) == Ok("replacement.")
  {
    var t, L := ExampleToken(), ExampleContext();
    assert L(t.Key()) == Ok("replacement");
    SubstituteAtToken(Strict, t, ".", L);
    NoPlaceholderUnchanged(Strict, ".", L);
    assert "replacement" + "." == "replacement.";
  }

  /** A character other than `{` is copied through. */
  lemma {:induction false} SubstitutePlainChar<E>(v: Variant, c: char, rest: string, out: string, lookup: string -> Result<string, E>)
    requires c != '{' && Substitute(v, rest, lookup) == Ok(out)
    ensures Substitute(v, [c] + rest, lookup) == Ok([c] + out)
  {
    SubstituteAtChar(v, c, rest, lookup);
  }

  /** The first parametrised case of the interpolation tests: the text before and after
      the placeholder is copied and the placeholder is replaced. */
  lemma {:induction false} InterpolateExample()
    ensures InterpolateString(['a'] + ([' '] + "{{ key:value }}."), ExampleContext()) == Ok(['a'] + ([' '] + "replacement."))
  {
    var L := ExampleContext();
    ExampleTail();
    SubstitutePlainChar(Strict, ' ', "{{ key:value }}.", "replacement.", L);
    SubstitutePlainChar(Strict, 'a', [' '] + "{{ key:value }}.", [' '] + "replacement.", L);
  }

  /** A configuration value as the YAML loader produces it: a string, a scalar of
      another type (number, boolean, null; `truthy` is its Python truth value), a
      sequence or a mapping with its entries in document order. */
  datatype Value =
    | Str(s: string)
    | Scalar(text: string, truthy: bool)
    | Seq(items: seq<Value>)
    | Mapping(entries: seq<(string, Value)>)

  /** The conditional expression in `interpolate_list` and `interpolate_dict`: strings are
      interpolated, mappings and other iterables are walked, other values are kept. The
      result has the same shape as the input. */
  function InterpolateItem<E>(x: Value, lookup: string -> Result<string, E>): (r: Result<Value, E>)
    ensures r.Ok? ==> (x.Scalar? ==> r.value == x)
                      && (x.Str? <==> r.value.Str?)
                      && (x.Seq? <==> r.value.Seq?)
                      && (x.Seq? ==> |r.value.items| == |x.items|)
                      && (x.Mapping? ==> r.value.Mapping? && MapKeys(r.value.entries) == MapKeys(x.entries))
    decreases x
  {
    match x
    case Str(s) =>
      var t :- InterpolateString(s, lookup);
      Ok(Str(t))
    case Scalar(_, _) => Ok(x)
    case Mapping(es) =>
      var es' :- InterpolateDict(es, lookup);
      Ok(Mapping(es'))
    case Seq(items) =>
      var items' :- InterpolateList(items, lookup);
      Ok(Seq(items'))
  }

  /** `interpolate_list`: the same number of items, in order, each interpolated. */
  function InterpolateList<E>(items: seq<Value>, lookup: string -> Result<string, E>): (r: Result<seq<Value>, E>)
    ensures r.Ok? <==> forall i :: 0 <= i < |items| ==> InterpolateItem(items[i], lookup).Ok?
    ensures r.Ok? ==> |r.value| == |items|
                      && forall i :: 0 <= i < |items| ==> InterpolateItem(items[i], lookup) == Ok(r.value[i])
    decreases items
  {
    if items == [] then Ok([])
    else
      var x :- InterpolateItem(items[0], lookup);
      var rest :- InterpolateList(items[1..], lookup);
      assert forall i :: 1 <= i < |items| ==> items[i] == items[1..][i - 1];
      Ok([x] + rest)
  }

  /** `interpolate_dict`: the same keys in the same order (the entry-wise facts are
      `InterpolateDictEntries`). */
  function InterpolateDict<E>(es: seq<(string, Value)>, lookup: string -> Result<string, E>): (r: Result<seq<(string, Value)>, E>)
    ensures r.Ok? ==> MapKeys(r.value) == MapKeys(es)
    decreases es
  {
    if es == [] then Ok([])
    else
      assert es[0] in es;
      assert es[0].1 < es[0];
      var x :- InterpolateItem(es[0].1, lookup);
      var rest :- InterpolateDict(es[1..], lookup);
      Ok([(es[0].0, x)] + rest)
  }

  /** `interpolate_dict` succeeds exactly when every value interpolates, and then maps
      each key to its interpolated value. */
  lemma {:induction false} InterpolateDictEntries<E>(es: seq<(string, Value)>, lookup: string -> Result<string, E>)
    ensures InterpolateDict(es, lookup).Ok? <==> forall i :: 0 <= i < |es| ==> InterpolateItem(es[i].1, lookup).Ok?
    ensures var r := InterpolateDict(es, lookup);
            r.Ok? ==> |r.value| == |es|
                      && forall i :: 0 <= i < |es| ==>
                           r.value[i].0 == es[i].0 && InterpolateItem(es[i].1, lookup) == Ok(r.value[i].1)
  {
    if es != [] {
      InterpolateDictEntries(es[1..], lookup);
      assert forall i :: 1 <= i < |es| ==> es[i] == es[1..][i - 1];
      var r := InterpolateDict(es, lookup);
      if r.Ok? {
        assert MapKeys(r.value) == MapKeys(es);
      }
    }
  }

  /** No string anywhere in the value contains `{{`. */
  predicate NoPlaceholders(x: Value)
    decreases x
  {
    match x
    case Str(s) => NoOpenBraces(s)
    case Scalar(_, _) => true
    case Seq(items) => forall i :: 0 <= i < |items| ==> NoPlaceholders(items[i])
    case Mapping(es) => forall i :: 0 <= i < |es| ==> es[i] in es && NoPlaceholders(es[i].1)
  }

  /** A value without placeholders comes back unchanged. */
  lemma {:induction false} NoPlaceholdersUnchanged<E>(x: Value, lookup: string -> Result<string, E>)
    requires NoPlaceholders(x)
    ensures InterpolateItem(x, lookup) == Ok(x)
    decreases x
  {
    match x
    case Str(s) => NoPlaceholderUnchanged(Strict, s, lookup);
    case Scalar(_, _) =>
    case Seq(items) =>
      forall i | 0 <= i < |items| ensures InterpolateItem(items[i], lookup) == Ok(items[i]) {
        NoPlaceholdersUnchanged(items[i], lookup);
      }
      var r := InterpolateList(items, lookup);
      assert r.value == items;
    case Mapping(es) =>
      forall i | 0 <= i < |es| ensures InterpolateItem(es[i].1, lookup) == Ok(es[i].1) {
        assert es[i] in es;
        NoPlaceholdersUnchanged(es[i].1, lookup);
      }
      InterpolateDictEntries(es, lookup);
      var r := InterpolateDict(es, lookup);
      assert r.value == es;
  }

  /** The template loader: every string scalar of the document, mapping keys included,
      goes through the loose pattern. The document keeps its shape, and a string loads
      exactly when every key the loose pattern finds in it is in the context. */
  function LoadTemplate<E>(x: Value, lookup: string -> Result<string, E>): (r: Result<Value, E>)
    ensures x.Str? ==> (r.Ok? <==> AllFound(TokenKeys(Loose, x.s), lookup))
    ensures r.Ok? ==> && (x.Str? ==> r.value.Str?)
                      && (x.Scalar? ==> r.value == x)
                      && (x.Seq? ==> r.value.Seq? && |r.value.items| == |x.items|)
                      && (x.Mapping? ==> r.value.Mapping? && |r.value.entries| == |x.entries|)
    decreases x
  {
    match x
    case Str(s) =>
      ReplaceOk(Scan(Loose, s), lookup);
      var t :- Substitute(Loose, s, lookup);
      Ok(Str(t))
    case Scalar(_, _) => Ok(x)
    case Seq(items) =>
      var items' :- LoadItems(items, lookup);
      Ok(Seq(items'))
    case Mapping(es) =>
      var es' :- LoadEntries(es, lookup);
      Ok(Mapping(es'))
  }

  function LoadItems<E>(items: seq<Value>, lookup: string -> Result<string, E>): (r: Result<seq<Value>, E>)
    ensures r.Ok? ==> |r.value| == |items|
                      && forall i :: 0 <= i < |items| ==> LoadTemplate(items[i], lookup) == Ok(r.value[i])
    decreases items
  {
    if items == [] then Ok([])
    else
      var x :- LoadTemplate(items[0], lookup);
      var rest :- LoadItems(items[1..], lookup);
      assert forall i :: 1 <= i < |items| ==> items[i] == items[1..][i - 1];
      Ok([x] + rest)
  }

  function LoadEntries<E>(es: seq<(string, Value)>, lookup: string -> Result<string, E>): (r: Result<seq<(string, Value)>, E>)
    ensures r.Ok? ==> |r.value| == |es|
    decreases es
  {
    if es == [] then Ok([])
    else
      assert es[0] in es;
      assert es[0].1 < es[0];
      var k :- Substitute(Loose, es[0].0, lookup);
      var x :- LoadTemplate(es[0].1, lookup);
      var rest :- LoadEntries(es[1..], lookup);
      Ok([(k, x)] + rest)
  }

  /** The loader substitutes inside mapping keys as well as values. */
  lemma {:induction false} LoadEntriesKeys<E>(es: seq<(string, Value)>, lookup: string -> Result<string, E>)
    ensures var r := LoadEntries(es, lookup);
            r.Ok? ==> forall i :: 0 <= i < |es| ==>
                        Substitute(Loose, es[i].0, lookup) == Ok(r.value[i].0) && LoadTemplate(es[i].1, lookup) == Ok(r.value[i].1)
  {
    var r := LoadEntries(es, lookup);
    if es != [] && r.Ok? {
      var rest := LoadEntries(es[1..], lookup);
      LoadEntriesKeys(es[1..], lookup);
      assert rest.Ok? && r.value[1..] == rest.value;
      forall i | 0 <= i < |es|
        ensures Substitute(Loose, es[i].0, lookup) == Ok(r.value[i].0) && LoadTemplate(es[i].1, lookup) == Ok(r.value[i].1)
      {
        if i > 0 {
          assert es[i] == es[1..][i - 1] && r.value[i] == rest.value[i - 1];
        }
      }
    }
  }

  /** No string anywhere in the document, mapping keys included, contains `{{`. */
  predicate TemplateFree(x: Value)
    decreases x
  {
    match x
    case Str(s) => NoOpenBraces(s)
    case Scalar(_, _) => true
    case Seq(items) => forall i :: 0 <= i < |items| ==> TemplateFree(items[i])
    case Mapping(es) => forall i :: 0 <= i < |es| ==> es[i] in es && NoOpenBraces(es[i].0) && TemplateFree(es[i].1)
  }

  /** A document without placeholders loads as it is written. */
  lemma {:induction false} LoadTemplateUnchanged<E>(x: Value, lookup: string -> Result<string, E>)
    requires TemplateFree(x)
    ensures LoadTemplate(x, lookup) == Ok(x)
    decreases x
  {
    match x
    case Str(s) => NoPlaceholderUnchanged(Loose, s, lookup);
    case Scalar(_, _) =>
    case Seq(items) =>
      forall i | 0 <= i < |items| ensures LoadTemplate(items[i], lookup) == Ok(items[i]) {
        LoadTemplateUnchanged(items[i], lookup);
      }
      LoadItemsUnchanged(items, lookup);
    case Mapping(es) =>
      forall i | 0 <= i < |es| ensures LoadTemplate(es[i].1, lookup) == Ok(es[i].1) {
        assert es[i] in es;
        LoadTemplateUnchanged(es[i].1, lookup);
      }
      forall i | 0 <= i < |es| ensures Substitute(Loose, es[i].0, lookup) == Ok(es[i].0) {
        NoPlaceholderUnchanged(Loose, es[i].0, lookup);
      }
      LoadEntriesUnchanged(es, lookup);
  }

  lemma {:induction false} LoadItemsUnchanged<E>(items: seq<Value>, lookup: string -> Result<string, E>)
    requires forall i :: 0 <= i < |items| ==> LoadTemplate(items[i], lookup) == Ok(items[i])
    ensures LoadItems(items, lookup) == Ok(items)
    decreases |items|
  {
    if items != [] {
      assert forall i :: 0 <= i < |items| - 1 ==> items[1..][i] == items[i + 1];
      LoadItemsUnchanged(items[1..], lookup);
      assert [items[0]] + items[1..] == items;
    }
  }

  lemma {:induction false} LoadEntriesUnchanged<E>(es: seq<(string, Value)>, lookup: string -> Result<string, E>)
    requires forall i :: 0 <= i < |es| ==> LoadTemplate(es[i].1, lookup) == Ok(es[i].1)
    requires forall i :: 0 <= i < |es| ==> Substitute(Loose, es[i].0, lookup) == Ok(es[i].0)
    ensures LoadEntries(es, lookup) == Ok(es)
    decreases |es|
  {
    if es != [] {
      assert forall i :: 0 <= i < |es| - 1 ==> es[1..][i] == es[i + 1];
      LoadEntriesUnchanged(es[1..], lookup);
      assert [(es[0].0, es[0].1)] + es[1..] == es;
    }
  }
}
