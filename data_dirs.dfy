/** The data-directory rules of a service configuration (`find_data_dirs`) and the copy
    of the chosen directories into the installation (`copy_data_dirs`,
    `find_and_copy_data_dirs`).

    The directory tree is not modelled: `subdirs` is the set of names of the
    directories directly under the source root, and a `Disk` holds the set of
    destination paths that exist. */
module DataDirs {
  import opened Wrappers
  import opened Text

  // ---------------------------------------------------------------------------------
  // Glob patterns

  /** The characters of a pattern other than `*`: each one consumes one character of
      the name. */
  function Fixed(p: string): (n: nat)
    ensures n <= |p|
  {
    if p == [] then 0 else (if p[0] == '*' then 0 else 1) + Fixed(p[1..])
  }

  /** `fnmatch` for one path component: `*` matches any run of characters, `?` any one
      character, and every other character itself. So a name it matches is at least as
      long as the pattern's characters other than `*`, and exactly as long as a pattern
      without `*`. */
  function GlobMatch(p: string, s: string): (r: bool)
    ensures r ==> Fixed(p) <= |s|
    ensures r && '*' !in p ==> |s| == |p|
    decreases |p| + |s|
  {
    if p == [] then s == []
    else if p[0] == '*' then GlobMatch(p[1..], s) || (s != [] && GlobMatch(p, s[1..]))
    else s != [] && (p[0] == '?' || p[0] == s[0]) && GlobMatch(p[1..], s[1..])
  }

  /** A pattern without wildcards. */
  predicate Literal(p: string) {
    forall i :: 0 <= i < |p| ==> p[i] != '*' && p[i] != '?'
  }

  /** `*` matches every name. */
  lemma {:induction false} StarMatchesAll(s: string)
    ensures GlobMatch("*", s)
    decreases |s|
  {
    assert "*"[1..] == "";
    if s != [] {
      StarMatchesAll(s[1..]);
    }
  }

  /** A pattern without wildcards matches exactly itself. */
  lemma {:induction false} LiteralMatchesItself(p: string, s: string)
    requires Literal(p)
    ensures GlobMatch(p, s) <==> p == s
    decreases |p|
  {
    if p != [] {
      assert Literal(p[1..]) by {
        forall i | 0 <= i < |p[1..]| ensures p[1..][i] != '*' && p[1..][i] != '?' {
          assert p[1..][i] == p[i + 1];
        }
      }
      if s != [] {
        LiteralMatchesItself(p[1..], s[1..]);
        if p[0] == s[0] && p[1..] == s[1..] {
          assert p == [p[0]] + p[1..] && s == [s[0]] + s[1..];
        }
      }
    }
  }

  /** `*w`, for a literal `w`, matches exactly the names that end in `w`. */
  lemma {:induction false} StarSuffix(w: string, s: string)
    requires Literal(w)
    ensures GlobMatch(['*'] + w, s) <==> |w| <= |s| && s[|s| - |w|..] == w
    decreases |s|
  {
    var p := ['*'] + w;
    assert p[1..] == w;
    LiteralMatchesItself(w, s);
    if s != [] {
      StarSuffix(w, s[1..]);
      if |w| <= |s| - 1 {
        assert s[1..][|s[1..]| - |w|..] == s[|s| - |w|..];
      }
      if |w| == |s| {
        assert s[|s| - |w|..] == s;
      }
    } else {
      assert GlobMatch(p, s) == GlobMatch(w, s);
    }
  }

  // ---------------------------------------------------------------------------------
  // Rules

  /** One entry of the `data-dirs` list: a YAML mapping from `include` or `exclude` to
      a glob, as (key, value) entries in document order. */
  datatype Rule = Rule(entries: seq<(string, string)>)

  predicate HasKey(r: Rule, k: string) {
    exists i :: 0 <= i < |r.entries| && r.entries[i].0 == k
  }

  /** `{'include': '*'}`. */
  const IncludeAll: Rule := Rule([("include", "*")])

  /** What `find_data_dirs` raises for a malformed rule. */
  datatype RuleError =
    | MultipleKeys(rule: Rule)        // ValueError: more than one key
    | NoKeys                          // StopIteration: `next(iter({}.items()))`
    | RecursiveGlob(pattern: string)  // ValueError: `**` or the path separator
    | InvalidRule(key: string)        // KeyError: neither include nor exclude
    | UnacceptablePattern             // ValueError raised by `Path.glob('')`

  datatype Action = Include | Exclude

  /** A checked rule. */
  datatype Op = Op(action: Action, pattern: string)

  function KeyOf(a: Action): string {
    if a == Include then "include" else "exclude"
  }

  /** The rule an operation was read from. */
  function RuleOf(op: Op): Rule {
    Rule([(KeyOf(op.action), op.pattern)])
  }

  /** `'**' in val or os.path.sep in val`, with `/` as the separator. */
  predicate Recursive(val: string) {
    Find(val, "**").Some? || '/' in val
  }

  /** The checks `find_data_dirs` makes on one rule, in the order it makes them. */
  function CheckRule(r: Rule): (res: Result<Op, RuleError>)
    ensures |r.entries| > 1 ==> res == Err(MultipleKeys(r))
    ensures r.entries == [] ==> res == Err(NoKeys)
    ensures res.Ok? ==> r == RuleOf(res.value) && !Recursive(res.value.pattern)
    ensures res.Err? && res.error.InvalidRule? ==>
              |r.entries| == 1 && r.entries[0].0 == res.error.key && res.error.key != "include" && res.error.key != "exclude"
  {
    if |r.entries| > 1 then Err(MultipleKeys(r))
    else if r.entries == [] then Err(NoKeys)
    else
      var (key, val) := r.entries[0];
      if Recursive(val) then Err(RecursiveGlob(val))
      else if key == "include" then Ok(Op(Include, val))
      else if key == "exclude" then Ok(Op(Exclude, val))
      else Err(InvalidRule(key))
  }

  /** Every single-key rule that names an operation is read back as that operation. */
  lemma {:induction false} CheckRuleOf(op: Op)
    requires !Recursive(op.pattern)
    ensures CheckRule(RuleOf(op)) == Ok(op)
  {
  }

  /** `[p for p in src_root.glob(pattern) if p.is_dir()]`, relative to the root. */
  function Glob(subdirs: set<string>, pattern: string): (r: Result<set<string>, RuleError>)
    ensures r.Ok? ==> r.value <= subdirs && forall d :: d in r.value <==> d in subdirs && GlobMatch(pattern, d)
    ensures r.Err? <==> pattern == ""
  {
    if pattern == "" then Err(UnacceptablePattern)
    else Ok(set d | d in subdirs && GlobMatch(pattern, d))
  }

  /** The effect of one checked rule on the matched set. */
  function Step(subdirs: set<string>, op: Op, matched: set<string>): (r: Result<set<string>, RuleError>)
    ensures r.Ok? ==> forall d :: d in r.value <==>
                        if d in subdirs && GlobMatch(op.pattern, d) then op.action == Include else d in matched
    ensures r.Err? <==> op.pattern == ""
  {
    var paths :- Glob(subdirs, op.pattern);
    Ok(if op.action == Include then matched + paths else matched - paths)
  }

  /** The rules applied in order to `matched`: the loop of `find_data_dirs`. A name that
      is not a subdirectory is never added or removed. */
  function ApplyRules(subdirs: set<string>, rules: seq<Rule>, matched: set<string>): (r: Result<set<string>, RuleError>)
    ensures r.Ok? ==> forall d :: d !in subdirs ==> (d in r.value <==> d in matched)
    decreases |rules|
  {
    if rules == [] then Ok(matched)
    else
      var op :- CheckRule(rules[0]);
      var matched' :- Step(subdirs, op, matched);
      ApplyRules(subdirs, rules[1..], matched')
  }

  /** The rule list after the implicit `{include: '*'}` is added. */
  function EffectiveRules(patterns: seq<Rule>): (r: seq<Rule>)
    ensures r != [] && |patterns| <= |r| <= |patterns| + 1
    ensures r[0] == IncludeAll || HasKey(r[0], "include")
    ensures r[|r| - |patterns|..] == patterns
  {
    if patterns == [] then [IncludeAll]
    else if !HasKey(patterns[0], "include") then [IncludeAll] + patterns
    else patterns
  }

  /** `find_data_dirs(src_root, patterns)` as a value: a set of subdirectories when every
      rule, the implicit first one included, is valid, and otherwise the fault of the
      first invalid rule. */
  function FindDataDirsSpec(subdirs: set<string>, patterns: seq<Rule>): (r: Result<set<string>, RuleError>)
    ensures var rules := EffectiveRules(patterns);
            r.Ok? <==> forall i :: 0 <= i < |rules| ==> ValidRule(rules[i])
    ensures var rules := EffectiveRules(patterns);
            r.Err? ==> exists i :: 0 <= i < |rules| && !ValidRule(rules[i]) && r.error == RuleFault(rules[i])
                                   && forall j :: 0 <= j < i ==> ValidRule(rules[j])
    ensures r.Ok? ==> r.value <= subdirs
  {
    var rules := EffectiveRules(patterns);
    ApplyRulesFails(subdirs, rules, {});
    ApplyRules(subdirs, rules, {})
  }

  // ---------------------------------------------------------------------------------
  // Properties of the rule engine

  /** A rule that passes every check, the glob call included. */
  predicate ValidRule(r: Rule) {
    CheckRule(r).Ok? && CheckRule(r).value.pattern != ""
  }

  /** The exception a rule that fails a check raises. */
  function RuleFault(r: Rule): RuleError {
    if CheckRule(r).Err? then CheckRule(r).error else UnacceptablePattern
  }

  /** The rules fail exactly when one of them is malformed, and then with the error of
      the first malformed one, whatever the rules before it did. */
  lemma {:induction false} ApplyRulesFails(subdirs: set<string>, rules: seq<Rule>, matched: set<string>)
    ensures ApplyRules(subdirs, rules, matched).Ok? <==> forall i :: 0 <= i < |rules| ==> ValidRule(rules[i])
    ensures ApplyRules(subdirs, rules, matched).Err? ==>
              exists i :: 0 <= i < |rules| && !ValidRule(rules[i])
                          && ApplyRules(subdirs, rules, matched).error == RuleFault(rules[i])
                          && forall j :: 0 <= j < i ==> ValidRule(rules[j])
    decreases |rules|
  {
    if rules != [] {
      var c := CheckRule(rules[0]);
      if c.Ok? && c.value.pattern != "" {
        var m' := Step(subdirs, c.value, matched).value;
        ApplyRulesFails(subdirs, rules[1..], m');
        assert forall i :: 1 <= i < |rules| ==> rules[i] == rules[1..][i - 1];
        if ApplyRules(subdirs, rules, matched).Err? {
          var i :| 0 <= i < |rules[1..]| && !ValidRule(rules[1..][i])
                   && ApplyRules(subdirs, rules[1..], m').error == RuleFault(rules[1..][i])
                   && forall j :: 0 <= j < i ==> ValidRule(rules[1..][j]);
          assert !ValidRule(rules[i + 1]);
        }
      } else {
        assert !ValidRule(rules[0]);
      }
    }
  }

  /** Rule `i` matches directory `d`. */
  predicate Touches(subdirs: set<string>, r: Rule, d: string) {
    CheckRule(r).Ok? && d in subdirs && GlobMatch(CheckRule(r).value.pattern, d)
  }

  predicate IsInclude(r: Rule) {
    CheckRule(r).Ok? && CheckRule(r).value.action == Include
  }

  /** Rule `i` is the last one that matches `d`. */
  ghost predicate LastTouch(subdirs: set<string>, rules: seq<Rule>, d: string, i: int) {
    0 <= i < |rules| && Touches(subdirs, rules[i], d)
    && forall j :: i < j < |rules| ==> !Touches(subdirs, rules[j], d)
  }

  /** The outcome for `d` read from the end: the last rule matching `d` decides, and a
      directory no rule matches keeps the state it started in. */
  ghost predicate Verdict(subdirs: set<string>, rules: seq<Rule>, d: string, initially: bool) {
    (exists i :: LastTouch(subdirs, rules, d, i) && IsInclude(rules[i]))
    || (initially && forall j :: 0 <= j < |rules| ==> !Touches(subdirs, rules[j], d))
  }

  /** Reading the verdict from the end agrees with applying the first rule and then
      reading the verdict of the others. */
  lemma {:induction false} VerdictStep(subdirs: set<string>, rules: seq<Rule>, d: string, initially: bool)
    requires rules != []
    ensures Verdict(subdirs, rules, d, initially) <==>
            Verdict(subdirs, rules[1..], d, if Touches(subdirs, rules[0], d) then IsInclude(rules[0]) else initially)
  {
    var next := if Touches(subdirs, rules[0], d) then IsInclude(rules[0]) else initially;
    if Verdict(subdirs, rules, d, initially) {
      VerdictDrop(subdirs, rules, d, initially);
    }
    if Verdict(subdirs, rules[1..], d, next) {
      VerdictAdd(subdirs, rules, d, initially);
    }
  }

  lemma {:induction false} VerdictDrop(subdirs: set<string>, rules: seq<Rule>, d: string, initially: bool)
    requires rules != [] && Verdict(subdirs, rules, d, initially)
    ensures Verdict(subdirs, rules[1..], d, if Touches(subdirs, rules[0], d) then IsInclude(rules[0]) else initially)
  {
    var tail := rules[1..];
    assert forall i :: 1 <= i < |rules| ==> rules[i] == tail[i - 1];
    if i :| LastTouch(subdirs, rules, d, i) && IsInclude(rules[i]) {
      if i > 0 {
        assert LastTouch(subdirs, tail, d, i - 1) && IsInclude(tail[i - 1]);
      } else {
        assert forall j :: 0 <= j < |tail| ==> !Touches(subdirs, tail[j], d);
      }
    } else {
      assert forall j :: 0 <= j < |tail| ==> !Touches(subdirs, tail[j], d);
    }
  }

  lemma {:induction false} VerdictAdd(subdirs: set<string>, rules: seq<Rule>, d: string, initially: bool)
    requires rules != []
    requires Verdict(subdirs, rules[1..], d, if Touches(subdirs, rules[0], d) then IsInclude(rules[0]) else initially)
    ensures Verdict(subdirs, rules, d, initially)
  {
    var tail := rules[1..];
    if i :| LastTouch(subdirs, tail, d, i) && IsInclude(tail[i]) {
      assert forall j :: i + 1 < j < |rules| ==> rules[j] == tail[j - 1];
      assert LastTouch(subdirs, rules, d, i + 1);
    } else if Touches(subdirs, rules[0], d) {
      assert forall j :: 0 < j < |rules| ==> rules[j] == tail[j - 1];
      assert LastTouch(subdirs, rules, d, 0);
    } else {
      forall j | 0 <= j < |rules| ensures !Touches(subdirs, rules[j], d) {
        if j > 0 { assert rules[j] == tail[j - 1]; }
      }
    }
  }

  /** Applying the rules in order gives, for every directory, the verdict of the last
      rule that matches it. */
  lemma {:induction false} LastRuleDecides(subdirs: set<string>, rules: seq<Rule>, matched: set<string>, d: string)
    requires ApplyRules(subdirs, rules, matched).Ok?
    ensures d in ApplyRules(subdirs, rules, matched).value <==> Verdict(subdirs, rules, d, d in matched)
    decreases |rules|
  {
    if rules != [] {
      var op := CheckRule(rules[0]).value;
      var m' := Step(subdirs, op, matched).value;
      LastRuleDecides(subdirs, rules[1..], m', d);
      VerdictStep(subdirs, rules, d, d in matched);
    }
  }

  /** The result of `find_data_dirs`: the directories under the root whose last matching
      rule is an `include`, where the implicit first rule counts as a rule. */
  lemma {:induction false} FindDataDirsDecides(subdirs: set<string>, patterns: seq<Rule>, d: string)
    requires FindDataDirsSpec(subdirs, patterns).Ok?
    ensures FindDataDirsSpec(subdirs, patterns).value <= subdirs
    ensures var rules := EffectiveRules(patterns);
            d in FindDataDirsSpec(subdirs, patterns).value <==> exists i :: LastTouch(subdirs, rules, d, i) && IsInclude(rules[i])
  {
    LastRuleDecides(subdirs, EffectiveRules(patterns), {}, d);
  }

  /** With no rules every directory is included. */
  lemma {:induction false} NoRulesAllDirs(subdirs: set<string>)
    ensures FindDataDirsSpec(subdirs, []) == Ok(subdirs)
  {
    forall d | d in subdirs ensures GlobMatch("*", d) {
      StarMatchesAll(d);
    }
    assert Find("*", "**") == None;
    assert CheckRule(IncludeAll) == Ok(Op(Include, "*"));
    var st := Step(subdirs, Op(Include, "*"), {});
    assert st.Ok? && forall d :: d in st.value <==> d in subdirs;
    assert st.value == subdirs;
    assert [IncludeAll][1..] == [];
    assert EffectiveRules([]) == [IncludeAll];
    assert ApplyRules(subdirs, [IncludeAll], {}) == ApplyRules(subdirs, [], subdirs);
  }

  /** Exclude rules alone remove their matches from the full set of directories. */
  lemma {:induction false} ExcludeOnly(subdirs: set<string>, patterns: seq<Rule>, d: string)
    requires patterns != [] && forall i :: 0 <= i < |patterns| ==> CheckRule(patterns[i]).Ok? && !IsInclude(patterns[i])
    requires FindDataDirsSpec(subdirs, patterns).Ok?
    ensures d in FindDataDirsSpec(subdirs, patterns).value <==>
              d in subdirs && forall i :: 0 <= i < |patterns| ==> !Touches(subdirs, patterns[i], d)
  {
    assert !HasKey(patterns[0], "include");
    var rules := EffectiveRules(patterns);
    assert rules == [IncludeAll] + patterns;
    assert forall i :: 1 <= i < |rules| ==> rules[i] == patterns[i - 1];
    FindDataDirsDecides(subdirs, patterns, d);
    StarMatchesAll(d);
    if d in subdirs && forall i :: 0 <= i < |patterns| ==> !Touches(subdirs, patterns[i], d) {
      assert LastTouch(subdirs, rules, d, 0) && IsInclude(rules[0]);
    }
    assert forall i :: 1 <= i < |rules| ==> !IsInclude(rules[i]);
    if i :| LastTouch(subdirs, rules, d, i) && IsInclude(rules[i]) {
      assert i == 0;
      forall j | 0 <= j < |patterns| ensures !Touches(subdirs, patterns[j], d) {
        assert rules[j + 1] == patterns[j];
      }
    }
  }

  // ---------------------------------------------------------------------------------
  // The imperative version

  /** The caller's rule list, which `find_data_dirs` may insert into. */
  class RuleList {
    var rules: seq<Rule>

    constructor (rules: seq<Rule>)
      ensures this.rules == rules
    {
      this.rules := rules;
    }
  }

  /** `find_data_dirs(src_root, patterns)`. An empty list is replaced by a local one;
      a list whose first rule has no `include` gets `{include: '*'}` inserted in place. */
  method FindDataDirs(subdirs: set<string>, patterns: RuleList) returns (r: Result<set<string>, RuleError>)
    modifies patterns
    ensures patterns.rules == if old(patterns.rules) != [] && !HasKey(old(patterns.rules)[0], "include")
                              then [IncludeAll] + old(patterns.rules) else old(patterns.rules)
    ensures r == FindDataDirsSpec(subdirs, old(patterns.rules))
  {
    var rules := patterns.rules;
    if rules == [] {
      rules := [IncludeAll];
    }
    if !HasKey(rules[0], "include") {
      patterns.rules := [IncludeAll] + patterns.rules;
      rules := patterns.rules;
    }
    assert rules == EffectiveRules(old(patterns.rules));
    r := RunRules(subdirs, rules);
  }

  /** The loop of `find_data_dirs` over the rules, starting from an empty set. */
  method RunRules(subdirs: set<string>, rules: seq<Rule>) returns (r: Result<set<string>, RuleError>)
    ensures r == ApplyRules(subdirs, rules, {})
  {
    var matched: set<string> := {};
    var i := 0;
    while i < |rules|
      invariant 0 <= i <= |rules|
      invariant ApplyRules(subdirs, rules[i..], matched) == ApplyRules(subdirs, rules, {})
    {
      var rule := rules[i];
      assert rules[i..][0] == rule && rules[i..][1..] == rules[i + 1..];
      if |rule.entries| > 1 {
        return Err(MultipleKeys(rule));
      }
      if rule.entries == [] {
        return Err(NoKeys);
      }
      var (key, val) := rule.entries[0];
      if Recursive(val) {
        return Err(RecursiveGlob(val));
      }
      var action: Action;
      if key == "include" {
        action := Include;
      } else if key == "exclude" {
        action := Exclude;
      } else {
        return Err(InvalidRule(key));
      }
      assert CheckRule(rule) == Ok(Op(action, val));
      if val == "" {
        return Err(UnacceptablePattern);
      }
      matched := ApplyOp(subdirs, Op(action, val), matched);
      i := i + 1;
    }
    assert rules[i..] == [];
    return Ok(matched);
  }

  /** `for path in src_root.glob(val): if path.is_dir(): operation(...)`, one directory
      at a time. */
  method ApplyOp(subdirs: set<string>, op: Op, matched: set<string>) returns (r: set<string>)
    requires op.pattern != ""
    ensures Step(subdirs, op, matched) == Ok(r)
  {
    var paths := set d | d in subdirs && GlobMatch(op.pattern, d);
    assert Glob(subdirs, op.pattern) == Ok(paths);
    var todo := paths;
    r := matched;
    while todo != {}
      invariant todo <= paths
      invariant r == if op.action == Include then matched + (paths - todo) else matched - (paths - todo)
      decreases |todo|
    {
      var p :| p in todo;
      if op.action == Include {
        r := r + {p};  // matched.add
      } else {
        r := r - {p};  // matched.discard
      }
      todo := todo - {p};
    }
    assert paths - todo == paths;
  }

  // ---------------------------------------------------------------------------------
  // Copying

  /** `root / name`. */
  function JoinPath(root: string, name: string): string {
    root + "/" + name
  }

  /** The decisions of `copy_data_dirs`, left to right: a pair whose destination does
      not exist is copied; one whose destination exists is copied (after removing it)
      when the user confirms, and skipped otherwise. A copied destination exists from
      then on. Gives the copied pairs and the destinations that exist afterwards. */
  function Copying(pairs: seq<(string, string)>, existing: set<string>, confirm: string -> bool): (r: (seq<(string, string)>, set<string>))
    ensures |r.0| <= |pairs| && existing <= r.1
    decreases |pairs|
  {
    if pairs == [] then ([], existing)
    else if pairs[0].1 in existing && !confirm(pairs[0].1) then Copying(pairs[1..], existing, confirm)
    else
      var rest := Copying(pairs[1..], existing + {pairs[0].1}, confirm);
      ([pairs[0]] + rest.0, rest.1)
  }

  /** The elements of `s` that satisfy `f`, in order. */
  function Filter<T>(s: seq<T>, f: T -> bool): (r: seq<T>)
    ensures |r| <= |s| && forall x :: x in r ==> x in s && f(x)
  {
    if s == [] then [] else (if f(s[0]) then [s[0]] else []) + Filter(s[1..], f)
  }

  /** Whether a pair is copied when its destination's existence is judged by `existing`. */
  function Kept(existing: set<string>, confirm: string -> bool): ((string, string)) -> bool {
    (p: (string, string)) => p.1 !in existing || confirm(p.1)
  }

  ghost predicate DistinctTargets(pairs: seq<(string, string)>) {
    forall i, j :: 0 <= i < j < |pairs| ==> pairs[i].1 != pairs[j].1
  }

  /** With distinct destinations, the copied pairs are, in input order, exactly those
      whose destination did not exist or whose overwrite was confirmed; afterwards the
      existing destinations are the old ones and the copied ones. */
  lemma {:induction false} CopyingKeeps(pairs: seq<(string, string)>, existing: set<string>, confirm: string -> bool)
    requires DistinctTargets(pairs)
    ensures Copying(pairs, existing, confirm).0 == Filter(pairs, Kept(existing, confirm))
    ensures forall t :: t in Copying(pairs, existing, confirm).1 <==>
                        t in existing || exists p :: p in Copying(pairs, existing, confirm).0 && p.1 == t
    decreases |pairs|
  {
    if pairs != [] {
      var keep := Kept(existing, confirm);
      var tail := pairs[1..];
      assert DistinctTargets(tail) by {
        forall i, j | 0 <= i < j < |tail| ensures tail[i].1 != tail[j].1 {
          assert tail[i] == pairs[i + 1] && tail[j] == pairs[j + 1];
        }
      }
      var e' := if keep(pairs[0]) then existing + {pairs[0].1} else existing;
      CopyingKeeps(tail, e', confirm);
      var keep' := Kept(e', confirm);
      FilterSame(tail, keep, keep');
    }
  }

  /** Two predicates that agree on every element give the same filter. */
  lemma {:induction false} FilterSame<T>(s: seq<T>, f: T -> bool, g: T -> bool)
    requires forall i :: 0 <= i < |s| ==> f(s[i]) == g(s[i])
    ensures Filter(s, f) == Filter(s, g)
    decreases |s|
  {
    if s != [] {
      assert forall i :: 1 <= i < |s| ==> s[1..][i - 1] == s[i];
      FilterSame(s[1..], f, g);
    }
  }

  /** The destinations that exist on disk. */
  class Disk {
    var existing: set<string>

    constructor (existing: set<string>)
      ensures this.existing == existing
    {
      this.existing := existing;
    }
  }

  /** `copy_data_dirs(copy_list)` with the confirmation prompt as `confirm`. */
  method CopyDataDirs(disk: Disk, copyList: seq<(string, string)>, confirm: string -> bool) returns (copied: seq<(string, string)>)
    modifies disk
    ensures (copied, disk.existing) == Copying(copyList, old(disk.existing), confirm)
  {
    copied := [];
    var i := 0;
    assert copyList[0..] == copyList;
    assert [] + Copying(copyList, disk.existing, confirm).0 == Copying(copyList, disk.existing, confirm).0;
    while i < |copyList|
      invariant 0 <= i <= |copyList|
      invariant Copying(copyList, old(disk.existing), confirm)
                == (copied + Copying(copyList[i..], disk.existing, confirm).0, Copying(copyList[i..], disk.existing, confirm).1)
    {
      var (src, dst) := copyList[i];
      ghost var e, rest := disk.existing, copyList[i..];
      assert rest[0] == (src, dst) && rest[1..] == copyList[i + 1..];
      if dst in disk.existing {
        if confirm(dst) {
          disk.existing := disk.existing - {dst};  // shutil.rmtree
        } else {
          assert Copying(rest, e, confirm) == Copying(copyList[i + 1..], e, confirm);
          i := i + 1;
          continue;
        }
      }
      disk.existing := disk.existing + {dst};  // shutil.copytree
      assert disk.existing == e + {dst};
      ghost var later := Copying(copyList[i + 1..], e + {dst}, confirm);
      assert Copying(rest, e, confirm) == ([(src, dst)] + later.0, later.1);
      assert copied + ([(src, dst)] + later.0) == (copied + [(src, dst)]) + later.0;
      copied := copied + [(src, dst)];
      i := i + 1;
    }
    assert copyList[i..] == [];
    assert copied + [] == copied;
  }

  /** The (source, destination) pairs `find_and_copy_data_dirs` hands to
      `copy_data_dirs` for its mapping. */
  function CopyPairs(srcRoot: string, targetRoot: string, mapping: seq<(string, string)>): (r: seq<(string, string)>)
    ensures |r| == |mapping|
    ensures forall i :: 0 <= i < |r| ==> r[i] == (JoinPath(srcRoot, mapping[i].0), JoinPath(targetRoot, mapping[i].1))
  {
    if mapping == [] then []
    else [(JoinPath(srcRoot, mapping[0].0), JoinPath(targetRoot, mapping[0].1))] + CopyPairs(srcRoot, targetRoot, mapping[1..])
  }

  /** Each directory of `dirs` paired with itself, in the set's iteration order. */
  method PairEach(dirs: set<string>) returns (mapping: seq<(string, string)>)
    ensures |mapping| == |dirs|
    ensures forall i :: 0 <= i < |mapping| ==> mapping[i].0 == mapping[i].1
    ensures forall d :: d in dirs <==> exists i :: 0 <= i < |mapping| && mapping[i].0 == d
    ensures forall i, j :: 0 <= i < j < |mapping| ==> mapping[i].0 != mapping[j].0
  {
    mapping := [];
    var todo := dirs;
    while todo != {}
      invariant todo <= dirs
      invariant |mapping| + |todo| == |dirs|
      invariant forall i :: 0 <= i < |mapping| ==> mapping[i].0 == mapping[i].1
      invariant forall d :: d in dirs <==> d in todo || exists i :: 0 <= i < |mapping| && mapping[i].0 == d
      invariant forall i :: 0 <= i < |mapping| ==> mapping[i].0 !in todo
      invariant forall i, j :: 0 <= i < j < |mapping| ==> mapping[i].0 != mapping[j].0
      decreases |todo|
    {
      var m :| m in todo;
      ghost var before := mapping;
      mapping := mapping + [(m, m)];
      todo := todo - {m};
      assert forall i :: 0 <= i < |before| ==> mapping[i] == before[i];
      assert mapping[|before|] == (m, m);
    }
  }

  /** `find_and_copy_data_dirs`: the matched directories, each paired with itself, in the
      iteration order of the matched set; every pair is handed to `copy_data_dirs`, and
      the mapping, not the list of copied pairs, is returned. */
  method FindAndCopyDataDirs(disk: Disk, srcRoot: string, subdirs: set<string>, patterns: RuleList,
                             targetRoot: string, confirm: string -> bool)
    returns (r: Result<seq<(string, string)>, RuleError>)
    modifies disk, patterns
    ensures patterns.rules == if old(patterns.rules) != [] && !HasKey(old(patterns.rules)[0], "include")
                              then [IncludeAll] + old(patterns.rules) else old(patterns.rules)
    ensures r.Ok? <==> FindDataDirsSpec(subdirs, old(patterns.rules)).Ok?
    ensures r.Ok? ==> |r.value| == |FindDataDirsSpec(subdirs, old(patterns.rules)).value|
                      && (forall i :: 0 <= i < |r.value| ==> r.value[i].0 == r.value[i].1)
                      && (forall i, j :: 0 <= i < j < |r.value| ==> r.value[i].0 != r.value[j].0)
                      && (forall d :: d in FindDataDirsSpec(subdirs, old(patterns.rules)).value <==>
                                        exists i :: 0 <= i < |r.value| && r.value[i].0 == d)
    ensures r.Ok? ==> disk.existing == Copying(CopyPairs(srcRoot, targetRoot, r.value), old(disk.existing), confirm).1
    ensures r.Err? ==> disk.existing == old(disk.existing)
  {
    var found := FindDataDirs(subdirs, patterns);
    if found.Err? {
      return Err(found.error);
    }
    var mapping := PairEach(found.value);
    var _ := CopyDataDirs(disk, CopyPairs(srcRoot, targetRoot, mapping), confirm);
    return Ok(mapping);
  }
}
