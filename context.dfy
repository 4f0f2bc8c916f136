/** The contexts placeholders are looked up in while a service is installed: the
    environment of the conda environment or docker image, the data-directory paths, and
    the service's own `vars`, layered as a `ChainMap`. */
module Context {
  import opened Wrappers
  import opened Text
  import opened Interpolation
  import opened DataDirs

  /** The exceptions a lookup raises. Only a KeyError makes a `ChainMap` go on to its
      next layer; the others reach the caller. */
  datatype LookupError =
    | KeyErr(key: string)          // KeyError
    | UnpackErr(item: string)      // ValueError: `key, name = item.split(":", 1)` without a ':'
    | NotFound(name: string)       // ValueError: executable not found
    | BadEnvLine(line: string)     // ValueError: a line of `env` output without '='
    | UnboundOutput(name: string)  // UnboundLocalError: `which` exited with a status other than 0 or 1
    | NotAString(key: string)      // TypeError: re.sub given a replacement that is not a str

  /** One mapping of a `ChainMap`, seen through `__getitem__`. */
  type Layer = string -> Result<Value, LookupError>

  predicate IsKeyError(r: Result<Value, LookupError>) {
    r.Err? && r.error.KeyErr?
  }

  /** `ChainMap.__getitem__`: the first layer that does not raise KeyError answers;
      when every layer raises KeyError, so does the chain, for the key asked. */
  function ChainLookup(layers: seq<Layer>, key: string): (r: Result<Value, LookupError>)
    ensures r.Ok? ==> exists i :: 0 <= i < |layers| && layers[i](key) == r
    decreases |layers|
  {
    if layers == [] then Err(KeyErr(key))
    else if IsKeyError(layers[0](key)) then ChainLookup(layers[1..], key)
    else layers[0](key)
  }

  /** The chain answers with layer `i` when every layer before it raises KeyError and
      layer `i` does not. */
  lemma {:induction false} ChainFirstAnswer(layers: seq<Layer>, key: string, i: nat)
    requires i < |layers| && !IsKeyError(layers[i](key))
    requires forall j :: 0 <= j < i ==> IsKeyError(layers[j](key))
    ensures ChainLookup(layers, key) == layers[i](key)
    decreases i
  {
    if i > 0 {
      assert IsKeyError(layers[0](key));
      assert forall j :: 0 <= j < i - 1 ==> layers[1..][j] == layers[j + 1];
      ChainFirstAnswer(layers[1..], key, i - 1);
    }
  }

  /** The chain raises KeyError exactly when every layer does, and then for the key. */
  lemma {:induction false} ChainMissing(layers: seq<Layer>, key: string)
    ensures IsKeyError(ChainLookup(layers, key)) <==> forall j :: 0 <= j < |layers| ==> IsKeyError(layers[j](key))
    ensures IsKeyError(ChainLookup(layers, key)) ==> ChainLookup(layers, key) == Err(KeyErr(key))
    decreases |layers|
  {
    if layers != [] {
      ChainMissing(layers[1..], key);
      assert forall j :: 1 <= j < |layers| ==> layers[j] == layers[1..][j - 1];
    }
  }

  /** A plain dict holding strings. */
  function DictLayer(m: map<string, string>): Layer {
    k => if k in m then Ok(Str(m[k])) else Err(KeyErr(k))
  }

  // ---------------------------------------------------------------------------------
  // Data-directory paths

  /** The key `DataFilesContextMap` stores a source directory under. */
  function PathKey(keyPrefix: string, src: string): string {
    keyPrefix + "path:" + src
  }

  /** `DataFilesContextMap(paths, dst_root, key_prefix)`: the pairs stored one after the
      other, a later pair with the same source replacing an earlier one. */
  function DataFilesMap(paths: seq<(string, string)>, dstRoot: string, keyPrefix: string): (r: map<string, string>)
    ensures forall k :: k in r ==> keyPrefix + "path:" <= k
    decreases |paths|
  {
    if paths == [] then map[]
    else
      var last := paths[|paths| - 1];
      DataFilesMap(paths[..|paths| - 1], dstRoot, keyPrefix)[PathKey(keyPrefix, last.0) := JoinPath(dstRoot, last.1)]
  }

  /** Different sources have different keys. */
  lemma {:induction false} PathKeyInjective(keyPrefix: string, a: string, b: string)
    requires PathKey(keyPrefix, a) == PathKey(keyPrefix, b)
    ensures a == b
  {
    var n := |keyPrefix + "path:"|;
    assert PathKey(keyPrefix, a)[n..] == a;
    assert PathKey(keyPrefix, b)[n..] == b;
  }

  /** The keys are exactly the sources with the prefix. */
  lemma {:induction false} DataFilesKeys(paths: seq<(string, string)>, dstRoot: string, keyPrefix: string, k: string)
    ensures k in DataFilesMap(paths, dstRoot, keyPrefix) <==> exists i :: 0 <= i < |paths| && k == PathKey(keyPrefix, paths[i].0)
    decreases |paths|
  {
    if paths != [] {
      var n := |paths| - 1;
      DataFilesKeys(paths[..n], dstRoot, keyPrefix, k);
      assert forall i :: 0 <= i < n ==> paths[..n][i] == paths[i];
    }
  }

  /** A source that no later pair repeats maps to its destination under the root. */
  lemma {:induction false} DataFilesValue(paths: seq<(string, string)>, dstRoot: string, keyPrefix: string, i: nat)
    requires i < |paths| && forall j :: i < j < |paths| ==> paths[j].0 != paths[i].0
    ensures PathKey(keyPrefix, paths[i].0) in DataFilesMap(paths, dstRoot, keyPrefix)
    ensures DataFilesMap(paths, dstRoot, keyPrefix)[PathKey(keyPrefix, paths[i].0)] == JoinPath(dstRoot, paths[i].1)
    decreases |paths|
  {
    var n := |paths| - 1;
    if i < n {
      assert paths[..n][i] == paths[i];
      assert forall j :: i < j < n ==> paths[..n][j] == paths[j];
      DataFilesValue(paths[..n], dstRoot, keyPrefix, i);
      if PathKey(keyPrefix, paths[n].0) == PathKey(keyPrefix, paths[i].0) {
        PathKeyInjective(keyPrefix, paths[n].0, paths[i].0);
      }
    }
  }

  /** `DataFilesContextMap.__init__`: the loop filling the dict. */
  method DataFilesContext(paths: seq<(string, string)>, dstRoot: string, keyPrefix: string) returns (m: map<string, string>)
    ensures m == DataFilesMap(paths, dstRoot, keyPrefix)
  {
    m := map[];
    var i := 0;
    while i < |paths|
      invariant 0 <= i <= |paths|
      invariant m == DataFilesMap(paths[..i], dstRoot, keyPrefix)
    {
      var (src, dst) := paths[i];
      assert paths[..i + 1][..i] == paths[..i];
      m := m[PathKey(keyPrefix, src) := JoinPath(dstRoot, dst)];
      i := i + 1;
    }
    assert paths[..i] == paths;
  }

  /** No pair after pair `i` has the same source. */
  predicate LastSource(paths: seq<(string, string)>, i: int) {
    0 <= i < |paths| && forall j :: i < j < |paths| ==> paths[j].0 != paths[i].0
  }

  /** The keys and values of a data-files context, for all pairs at once. */
  lemma {:induction false} DataFilesMeaning(paths: seq<(string, string)>, dstRoot: string, keyPrefix: string)
    ensures var m := DataFilesMap(paths, dstRoot, keyPrefix);
      forall k :: k in m <==> exists i :: 0 <= i < |paths| && k == PathKey(keyPrefix, paths[i].0)
    ensures var m := DataFilesMap(paths, dstRoot, keyPrefix);
      forall i :: 0 <= i < |paths| && LastSource(paths, i) ==>
        PathKey(keyPrefix, paths[i].0) in m && m[PathKey(keyPrefix, paths[i].0)] == JoinPath(dstRoot, paths[i].1)
  {
    forall k ensures k in DataFilesMap(paths, dstRoot, keyPrefix) <==> exists i :: 0 <= i < |paths| && k == PathKey(keyPrefix, paths[i].0) {
      DataFilesKeys(paths, dstRoot, keyPrefix, k);
    }
    forall i | 0 <= i < |paths| && LastSource(paths, i)
      ensures PathKey(keyPrefix, paths[i].0) in DataFilesMap(paths, dstRoot, keyPrefix)
              && DataFilesMap(paths, dstRoot, keyPrefix)[PathKey(keyPrefix, paths[i].0)] == JoinPath(dstRoot, paths[i].1)
    {
      DataFilesValue(paths, dstRoot, keyPrefix, i);
    }
  }

  /** `local_paths_context`: a `local-path:<src>` key for every source, giving the last
      destination of that source under the root. */
  function LocalPaths(paths: seq<(string, string)>, dstRoot: string): (r: map<string, string>)
    ensures forall k :: k in r <==> exists i :: 0 <= i < |paths| && k == PathKey("local-", paths[i].0)
    ensures forall i :: 0 <= i < |paths| && LastSource(paths, i) ==>
              PathKey("local-", paths[i].0) in r && r[PathKey("local-", paths[i].0)] == JoinPath(dstRoot, paths[i].1)
  {
    DataFilesMeaning(paths, dstRoot, "local-");
    DataFilesMap(paths, dstRoot, "local-")
  }

  /** `runtime_paths_context`: the same with `runtime-path:` keys. */
  function RuntimePaths(paths: seq<(string, string)>, dstRoot: string): (r: map<string, string>)
    ensures forall k :: k in r <==> exists i :: 0 <= i < |paths| && k == PathKey("runtime-", paths[i].0)
    ensures forall i :: 0 <= i < |paths| && LastSource(paths, i) ==>
              PathKey("runtime-", paths[i].0) in r && r[PathKey("runtime-", paths[i].0)] == JoinPath(dstRoot, paths[i].1)
  {
    DataFilesMeaning(paths, dstRoot, "runtime-");
    DataFilesMap(paths, dstRoot, "runtime-")
  }

  // ---------------------------------------------------------------------------------
  // The conda environment

  /** `key, name = item.split(":", 1)`. */
  function SplitItem(item: string): (r: Result<(string, string), LookupError>)
    ensures r.Ok? ==> item == r.value.0 + ":" + r.value.1 && ':' !in r.value.0
    ensures r.Err? <==> ':' !in item
    ensures r.Err? ==> r.error == UnpackErr(item)
  {
    match Find(item, ":")
    case None =>
      FindFirst(item, ":");
      assert forall j :: 0 <= j < |item| ==> item[j] != ':' by {
        forall j | 0 <= j < |item| ensures item[j] != ':' {
          assert !OccursAt(item, ":", j);
          assert item[j..j + 1] == [item[j]];
        }
      }
      Err(UnpackErr(item))
    case Some(i) =>
      FindFirst(item, ":");
      assert item[i..i + 1] == ":";
      assert forall j :: 0 <= j < i ==> item[j] != ':' by {
        forall j | 0 <= j < i ensures item[j] != ':' {
          assert !OccursAt(item, ":", j);
          assert item[j..j + 1] == [item[j]];
        }
      }
      assert item == item[..i] + ":" + item[i + 1..];
      Ok((item[..i], item[i + 1..]))
  }

  /** A namespace without ':' and a name split back apart. */
  lemma {:induction false} SplitItemJoin(ns: string, name: string)
    requires ':' !in ns
    ensures SplitItem(ns + ":" + name) == Ok((ns, name))
  {
    var item := ns + ":" + name;
    assert item[|ns|..|ns| + 1] == ":";
    forall j | 0 <= j < |ns| ensures !OccursAt(item, ":", j) {
      assert item[j] == ns[j];
      NotOccursAt(item, ":", j);
    }
    FindAt(item, ":", |ns|);
    assert item[..|ns|] == ns && item[|ns| + 1..] == name;
  }

  /** `CondaEnvContextMap.__getitem__`: `env:` reads the process environment, `which:`
      searches `<env>/bin` before `$PATH`, and any other namespace raises KeyError.
      `which(name, path)` is `shutil.which`. */
  function CondaGetItem(environ: map<string, string>, which: (string, string) -> Option<string>, envPath: string, item: string)
    : (r: Result<Value, LookupError>)
    ensures r.Ok? ==> r.value.Str?
  {
    var (key, name) :- SplitItem(item);
    if key == "env" then
      if name in environ then Ok(Str(environ[name])) else Err(KeyErr(name))
    else if key == "which" then
      if "PATH" !in environ then Err(KeyErr("PATH"))
      else
        var exe := which(name, envPath + "/bin" + ":" + environ["PATH"]);
        if exe.None? || exe.value == "" then Err(NotFound(name)) else Ok(Str(exe.value))
    else Err(KeyErr(item))
  }

  function CondaLayer(environ: map<string, string>, which: (string, string) -> Option<string>, envPath: string): Layer {
    item => CondaGetItem(environ, which, envPath, item)
  }

  /** What a conda lookup of `ns:name` gives, namespace by namespace. */
  lemma {:induction false} CondaNamespaces(environ: map<string, string>, which: (string, string) -> Option<string>, envPath: string,
                        ns: string, name: string)
    requires ':' !in ns
    ensures var r := CondaGetItem(environ, which, envPath, ns + ":" + name);
            && (ns == "env" ==> r == if name in environ then Ok(Str(environ[name])) else Err(KeyErr(name)))
            && (ns == "which" && "PATH" in environ ==>
                  var exe := which(name, envPath + "/bin:" + environ["PATH"]);
                  r == if exe.None? || exe.value == "" then Err(NotFound(name)) else Ok(Str(exe.value)))
            && (ns == "which" && "PATH" !in environ ==> r == Err(KeyErr("PATH")))
            && (ns != "env" && ns != "which" ==> r == Err(KeyErr(ns + ":" + name)))
  {
    SplitItemJoin(ns, name);
    assert envPath + "/bin" + ":" == envPath + "/bin:";
  }

  // ---------------------------------------------------------------------------------
  // The docker image

  /** `dict(line.split("=", 1) for line in lines)` continuing from `acc`: each line
      gives a key and a value, a later line replacing an earlier one with the same key;
      the first line without '=' raises ValueError. */
  function ParseEnvLines(lines: seq<string>, acc: map<string, string>): (r: Result<map<string, string>, LookupError>)
    ensures r.Err? ==> r.error.BadEnvLine?
    decreases |lines|
  {
    if lines == [] then Ok(acc)
    else
      match Find(lines[0], "=")
      case None => Err(BadEnvLine(lines[0]))
      case Some(i) => ParseEnvLines(lines[1..], acc[lines[0][..i] := lines[0][i + 1..]])
  }

  /** The variables of `env`'s output: parsing succeeds exactly when every line has an
      '=', and otherwise fails on a line without one. */
  function ParseEnv(output: string): (r: Result<map<string, string>, LookupError>)
    ensures r.Ok? <==> forall i :: 0 <= i < |SplitLines(output)| ==> HasEquals(SplitLines(output)[i])
    ensures r.Err? ==> exists i :: 0 <= i < |SplitLines(output)| && !HasEquals(SplitLines(output)[i])
                                   && r.error == BadEnvLine(SplitLines(output)[i])
  {
    ParseEnvFails(SplitLines(output), map[]);
    ParseEnvLines(SplitLines(output), map[])
  }

  ghost predicate HasEquals(line: string) {
    Find(line, "=").Some?
  }

  function EnvKey(line: string): string
    requires HasEquals(line)
  {
    line[..Find(line, "=").value]
  }

  function EnvValue(line: string): string
    requires HasEquals(line)
  {
    line[Find(line, "=").value + 1..]
  }

  /** Parsing succeeds exactly when every line has an '='. */
  lemma {:induction false} ParseEnvFails(lines: seq<string>, acc: map<string, string>)
    ensures ParseEnvLines(lines, acc).Ok? <==> forall i :: 0 <= i < |lines| ==> HasEquals(lines[i])
    ensures ParseEnvLines(lines, acc).Err? ==>
              exists i :: 0 <= i < |lines| && !HasEquals(lines[i]) && ParseEnvLines(lines, acc).error == BadEnvLine(lines[i])
    decreases |lines|
  {
    if lines != [] {
      match Find(lines[0], "=")
      case None =>
      case Some(i) =>
        var tail := lines[1..];
        ParseEnvFails(tail, acc[lines[0][..i] := lines[0][i + 1..]]);
        assert forall j :: 1 <= j < |lines| ==> lines[j] == tail[j - 1];
    }
  }

  /** The last line with a given key decides its value. */
  lemma {:induction false} ParseEnvLastWins(lines: seq<string>, acc: map<string, string>, k: string)
    requires ParseEnvLines(lines, acc).Ok?
    ensures var m := ParseEnvLines(lines, acc).value;
            && (k in m <==> k in acc || exists i :: 0 <= i < |lines| && HasEquals(lines[i]) && EnvKey(lines[i]) == k)
            && (forall i :: 0 <= i < |lines| && HasEquals(lines[i]) && EnvKey(lines[i]) == k
                            && (forall j :: i < j < |lines| && HasEquals(lines[j]) ==> EnvKey(lines[j]) != k)
                            ==> m[k] == EnvValue(lines[i]))
            && ((forall i :: 0 <= i < |lines| && HasEquals(lines[i]) ==> EnvKey(lines[i]) != k) && k in acc ==> m[k] == acc[k])
    decreases |lines|
  {
    if lines != [] {
      var tail := lines[1..];
      var acc' := acc[EnvKey(lines[0]) := EnvValue(lines[0])];
      ParseEnvLastWins(tail, acc', k);
      assert forall j :: 1 <= j < |lines| ==> lines[j] == tail[j - 1];
      var m := ParseEnvLines(lines, acc).value;
      forall i | 0 <= i < |lines| && HasEquals(lines[i]) && EnvKey(lines[i]) == k
                 && (forall j :: i < j < |lines| && HasEquals(lines[j]) ==> EnvKey(lines[j]) != k)
        ensures m[k] == EnvValue(lines[i])
      {
        if i > 0 {
          assert tail[i - 1] == lines[i];
        }
      }
    }
  }

  /** `get_which`: `which(name)` gives `docker run … which <name>`'s exit status and
      output. Status 1 raises ValueError; any other failure leaves `output` unbound. */
  function Which(which: string -> (int, string), name: string): (r: Result<Value, LookupError>)
    ensures r.Ok? <==> which(name).0 == 0
    ensures r.Ok? ==> r.value == Str(Strip(which(name).1))
  {
    var (status, output) := which(name);
    if status == 0 then Ok(Str(Strip(output)))
    else if status == 1 then Err(NotFound(name))
    else Err(UnboundOutput(name))
  }

  /** `get_env_var` once the variables are known. */
  function EnvVar(envOutput: string, name: string): (r: Result<Value, LookupError>)
    ensures r.Ok? ==> ParseEnv(envOutput).Ok? && name in ParseEnv(envOutput).value
                      && r.value == Str(ParseEnv(envOutput).value[name])
    ensures IsKeyError(r) <==> ParseEnv(envOutput).Ok? && name !in ParseEnv(envOutput).value
  {
    var vars :- ParseEnv(envOutput);
    if name in vars then Ok(Str(vars[name])) else Err(KeyErr(name))
  }

  /** `DockerEnvContextMap.__getitem__` as a value. */
  function DockerGetItem(envOutput: string, which: string -> (int, string), item: string): (r: Result<Value, LookupError>)
    ensures r.Ok? ==> r.value.Str?
  {
    var (key, name) :- SplitItem(item);
    if key == "env" then EnvVar(envOutput, name)
    else if key == "which" then Which(which, name)
    else Err(KeyErr(item))
  }

  function DockerLayer(envOutput: string, which: string -> (int, string)): Layer {
    item => DockerGetItem(envOutput, which, item)
  }

  /** `DockerEnvContextMap`: the image's `env` output is read the first time a variable
      is asked for and kept in `envVars` once it parses. `envOutput` and `which` stand
      for what `docker run` prints; `envRuns` counts the `docker run … env` calls. */
  class DockerEnvContextMap {
    const dockerExe: string
    const imageName: string
    const envOutput: string
    const which: string -> (int, string)
    var envVars: Option<map<string, string>>
    ghost var envRuns: nat

    ghost predicate Valid()
      reads this
    {
      envVars.Some? ==> ParseEnv(envOutput) == Ok(envVars.value)
    }

    constructor (dockerExe: string, imageName: string, envOutput: string, which: string -> (int, string))
      ensures Valid() && envVars == None && envRuns == 0
      ensures this.dockerExe == dockerExe && this.imageName == imageName
      ensures this.envOutput == envOutput && this.which == which
    {
      this.dockerExe := dockerExe;
      this.imageName := imageName;
      this.envOutput := envOutput;
      this.which := which;
      envVars := None;
      envRuns := 0;
    }

    /** `_populate_env_vars`: the dict is built line by line and stored only when every
        line parses. */
    method PopulateEnvVars() returns (r: Result<map<string, string>, LookupError>)
      requires Valid()
      modifies this
      ensures Valid() && r == ParseEnv(envOutput)
      ensures envVars == if r.Ok? then Some(r.value) else old(envVars)
      ensures envRuns == old(envRuns) + 1
    {
      envRuns := envRuns + 1;
      var lines := SplitLines(envOutput);
      var vars: map<string, string> := map[];
      var i := 0;
      while i < |lines|
        invariant 0 <= i <= |lines|
        invariant ParseEnvLines(lines[i..], vars) == ParseEnv(envOutput)
      {
        var line := lines[i];
        assert lines[i..][0] == line && lines[i..][1..] == lines[i + 1..];
        var eq := Find(line, "=");
        if eq.None? {
          return Err(BadEnvLine(line));
        }
        vars := vars[line[..eq.value] := line[eq.value + 1..]];
        i := i + 1;
      }
      assert lines[i..] == [];
      envVars := Some(vars);
      return Ok(vars);
    }

    /** `get_env_var`. */
    method GetEnvVar(name: string) returns (r: Result<Value, LookupError>)
      requires Valid()
      modifies this
      ensures Valid() && r == EnvVar(envOutput, name)
      ensures old(envVars).Some? ==> envVars == old(envVars) && envRuns == old(envRuns)
      ensures old(envVars).None? ==> envRuns == old(envRuns) + 1
                                     && envVars == if ParseEnv(envOutput).Ok? then Some(ParseEnv(envOutput).value) else None
    {
      if envVars.None? {
        var p := PopulateEnvVars();
        if p.Err? {
          return Err(p.error);
        }
      }
      var vars := envVars.value;
      if name in vars {
        return Ok(Str(vars[name]));
      }
      return Err(KeyErr(name));
    }

    /** `__getitem__`. Whatever the cache holds, the answer is `DockerGetItem`'s. */
    method GetItem(item: string) returns (r: Result<Value, LookupError>)
      requires Valid()
      modifies this
      ensures Valid() && r == DockerGetItem(envOutput, which, item)
      ensures old(envVars).Some? ==> envVars == old(envVars) && envRuns == old(envRuns)
      ensures SplitItem(item).Ok? && SplitItem(item).value.0 == "env" && old(envVars).None? ==>
                envRuns == old(envRuns) + 1
                && envVars == if ParseEnv(envOutput).Ok? then Some(ParseEnv(envOutput).value) else None
      ensures !(SplitItem(item).Ok? && SplitItem(item).value.0 == "env") ==>
                envVars == old(envVars) && envRuns == old(envRuns)
      ensures envRuns <= old(envRuns) + 1
    {
      var split := SplitItem(item);
      if split.Err? {
        return Err(split.error);
      }
      var (key, name) := split.value;
      if key == "env" {
        r := GetEnvVar(name);
      } else if key == "which" {
        r := Which(which, name);
      } else {
        r := Err(KeyErr(item));
      }
    }
  }

  // ---------------------------------------------------------------------------------
  // The install context

  /** `{f"var:{key}": val for key, val in vars.items()}`. */
  function VarsMap(entries: seq<(string, Value)>): map<string, Value>
    decreases |entries|
  {
    if entries == [] then map[]
    else
      var last := entries[|entries| - 1];
      VarsMap(entries[..|entries| - 1])["var:" + last.0 := last.1]
  }

  /** Every key of the `var` layer is `var:` and a key of `vars`. */
  lemma {:induction false} VarsMapKeys(entries: seq<(string, Value)>, k: string)
    ensures k in VarsMap(entries) <==> exists i :: 0 <= i < |entries| && k == "var:" + entries[i].0
    decreases |entries|
  {
    if entries != [] {
      var n := |entries| - 1;
      VarsMapKeys(entries[..n], k);
      assert forall i :: 0 <= i < n ==> entries[..n][i] == entries[i];
    }
  }

  function MapLayer(m: map<string, Value>): Layer {
    k => if k in m then Ok(m[k]) else Err(KeyErr(k))
  }

  /** The `re.sub` callback over a chain: the value must be a string. */
  function StringLookup(layers: seq<Layer>): string -> Result<string, LookupError> {
    k => match ChainLookup(layers, k)
         case Ok(Str(s)) => Ok(s)
         case Ok(_) => Err(NotAString(k))
         case Err(e) => Err(e)
  }

  /** `ChainMap(env_context, data_dirs_context, runtime_data_dirs_context)`. */
  function BaseLayers(env: Layer, copied: seq<(string, string)>, dstDataDir: string, runtimeRoot: string): (r: seq<Layer>)
    ensures |r| == 3
  {
    [env, DictLayer(LocalPaths(copied, dstDataDir)), DictLayer(RuntimePaths(copied, runtimeRoot))]
  }

  /** The context of `install_service`: the service's `vars` interpolated against the
      base chain, then put in front of it as `var:` keys. */
  function InstallContext(env: Layer, copied: seq<(string, string)>, dstDataDir: string, runtimeRoot: string,
                          vars: seq<(string, Value)>): (r: Result<seq<Layer>, LookupError>)
    ensures r.Ok? ==> |r.value| == 4 && r.value[1..] == BaseLayers(env, copied, dstDataDir, runtimeRoot)
  {
    var base := BaseLayers(env, copied, dstDataDir, runtimeRoot);
    var interpolated :- InterpolateDict(vars, StringLookup(base));
    Ok([MapLayer(VarsMap(interpolated))] + base)
  }

  /** The `var` layer answers first for its keys; every other key is answered as the base
      chain answers it. */
  lemma {:induction false} VarsOnTop(env: Layer, copied: seq<(string, string)>, dstDataDir: string, runtimeRoot: string,
                  vars: seq<(string, Value)>, k: string)
    requires InstallContext(env, copied, dstDataDir, runtimeRoot, vars).Ok?
    ensures var layers := InstallContext(env, copied, dstDataDir, runtimeRoot, vars).value;
            var interpolated := InterpolateDict(vars, StringLookup(BaseLayers(env, copied, dstDataDir, runtimeRoot))).value;
            && (k in VarsMap(interpolated) ==> ChainLookup(layers, k) == Ok(VarsMap(interpolated)[k]))
            && (!("var:" <= k) ==> ChainLookup(layers, k) == ChainLookup(BaseLayers(env, copied, dstDataDir, runtimeRoot), k))
  {
    var base := BaseLayers(env, copied, dstDataDir, runtimeRoot);
    var interpolated := InterpolateDict(vars, StringLookup(base)).value;
    var layers := InstallContext(env, copied, dstDataDir, runtimeRoot, vars).value;
    assert layers[1..] == base;
    if !("var:" <= k) {
      VarsMapKeys(interpolated, k);
      forall i | 0 <= i < |interpolated| ensures k != "var:" + interpolated[i].0 {
        assert "var:" <= "var:" + interpolated[i].0;
      }
    }
  }

  /** The conda layer answers no namespace other than `env` and `which`. */
  lemma {:induction false} CondaForeignNamespace(environ: map<string, string>, which: (string, string) -> Option<string>, envPath: string,
                              ns: string, name: string)
    requires ':' !in ns && ns != "env" && ns != "which"
    ensures CondaGetItem(environ, which, envPath, ns + ":" + name) == Err(KeyErr(ns + ":" + name))
  {
    SplitItemJoin(ns, name);
  }

  /** Nor does the docker layer. */
  lemma {:induction false} DockerForeignNamespace(envOutput: string, which: string -> (int, string), ns: string, name: string)
    requires ':' !in ns && ns != "env" && ns != "which"
    ensures DockerGetItem(envOutput, which, ns + ":" + name) == Err(KeyErr(ns + ":" + name))
  {
    SplitItemJoin(ns, name);
  }

  /** With a conda or docker environment layer, a `var:` placeholder inside `vars` is
      never found: `vars` are interpolated against the other layers only. */
  lemma {:induction false} VarsCannotReferToVars(env: Layer, copied: seq<(string, string)>, dstDataDir: string, runtimeRoot: string, name: string)
    requires IsKeyError(env("var:" + name))
    ensures StringLookup(BaseLayers(env, copied, dstDataDir, runtimeRoot))("var:" + name) == Err(KeyErr("var:" + name))
  {
    var k := "var:" + name;
    var base := BaseLayers(env, copied, dstDataDir, runtimeRoot);
    forall src | true ensures k != PathKey("local-", src) && k != PathKey("runtime-", src) {
      assert k[0] == 'v';
      assert PathKey("local-", src)[0] == 'l' && PathKey("runtime-", src)[0] == 'r';
    }
    DataFilesKeys(copied, dstDataDir, "local-", k);
    DataFilesKeys(copied, runtimeRoot, "runtime-", k);
    ChainMissing(base, k);
  }

  /** A copied directory's `local-path:` key gives its destination under the data
      directory, unless the environment layer answers it first. */
  lemma {:induction false} LocalPathLookup(env: Layer, copied: seq<(string, string)>, dstDataDir: string, runtimeRoot: string, i: nat)
    requires LastSource(copied, i)
    requires IsKeyError(env(PathKey("local-", copied[i].0)))
    ensures StringLookup(BaseLayers(env, copied, dstDataDir, runtimeRoot))(PathKey("local-", copied[i].0))
            == Ok(JoinPath(dstDataDir, copied[i].1))
  {
    var base := BaseLayers(env, copied, dstDataDir, runtimeRoot);
    var lk := PathKey("local-", copied[i].0);
    var lp := LocalPaths(copied, dstDataDir);
    assert lk in lp && lp[lk] == JoinPath(dstDataDir, copied[i].1);
    assert base[1](lk) == Ok(Str(JoinPath(dstDataDir, copied[i].1)));
    ChainFirstAnswer(base, lk, 1);
  }

  /** A copied directory's `runtime-path:` key gives its destination under the runtime
      root, unless the environment layer answers it first. */
  lemma {:induction false} RuntimePathLookup(env: Layer, copied: seq<(string, string)>, dstDataDir: string, runtimeRoot: string, i: nat)
    requires LastSource(copied, i)
    requires IsKeyError(env(PathKey("runtime-", copied[i].0)))
    ensures StringLookup(BaseLayers(env, copied, dstDataDir, runtimeRoot))(PathKey("runtime-", copied[i].0))
            == Ok(JoinPath(runtimeRoot, copied[i].1))
  {
    var base := BaseLayers(env, copied, dstDataDir, runtimeRoot);
    var rk := PathKey("runtime-", copied[i].0);
    var rp := RuntimePaths(copied, runtimeRoot);
    assert rk in rp && rp[rk] == JoinPath(runtimeRoot, copied[i].1);
    RuntimeNotLocal(copied, dstDataDir, copied[i].0);
    assert IsKeyError(base[1](rk));
    assert base[2](rk) == Ok(Str(JoinPath(runtimeRoot, copied[i].1)));
    ChainFirstAnswer(base, rk, 2);
  }

  /** No `runtime-path:` key is a `local-path:` key. */
  lemma {:induction false} RuntimeNotLocal(copied: seq<(string, string)>, dstDataDir: string, src: string)
    ensures PathKey("runtime-", src) !in LocalPaths(copied, dstDataDir)
  {
    var rk := PathKey("runtime-", src);
    DataFilesKeys(copied, dstDataDir, "local-", rk);
    assert rk[0] == 'r';
    forall s | true ensures rk != PathKey("local-", s) {
      assert PathKey("local-", s)[0] == 'l';
    }
  }

  /** The directory a service's data is copied to: `project_path/data/<base name>`. */
  function DataDir(projectPath: string, baseName: string): string {
    JoinPath(JoinPath(projectPath, "data"), baseName)
  }

  /** The conda installer's context: runtime paths point into the data directory. */
  function CondaContext(environ: map<string, string>, which: (string, string) -> Option<string>, envPath: string,
                        copied: seq<(string, string)>, projectPath: string, baseName: string, vars: seq<(string, Value)>)
    : Result<seq<Layer>, LookupError>
  {
    var dst := DataDir(projectPath, baseName);
    InstallContext(CondaLayer(environ, which, envPath), copied, dst, dst, vars)
  }

  /** The docker installer's context: runtime paths point under `/data`, where the
      directories are mounted. */
  function DockerContext(envOutput: string, which: string -> (int, string), copied: seq<(string, string)>,
                         projectPath: string, baseName: string, vars: seq<(string, Value)>)
    : Result<seq<Layer>, LookupError>
  {
    InstallContext(DockerLayer(envOutput, which), copied, DataDir(projectPath, baseName), "/data", vars)
  }

  /** The docker layer lets a namespace other than `env` and `which` through. */
  lemma {:induction false} DockerOtherKey(envOutput: string, which: string -> (int, string), ns: string, name: string)
    requires ':' !in ns && ns != "env" && ns != "which"
    ensures IsKeyError(DockerLayer(envOutput, which)(ns + ":" + name))
  {
    DockerForeignNamespace(envOutput, which, ns, name);
  }

  /** The docker layer lets both data-path namespaces through. */
  lemma {:induction false} DockerPathKeys(envOutput: string, which: string -> (int, string), src: string)
    ensures IsKeyError(DockerLayer(envOutput, which)(PathKey("local-", src)))
    ensures IsKeyError(DockerLayer(envOutput, which)(PathKey("runtime-", src)))
  {
    var l, rt := "local-path", "runtime-path";
    assert ':' !in l && ':' !in rt;
    assert PathKey("local-", src) == l + ":" + src;
    assert PathKey("runtime-", src) == rt + ":" + src;
    DockerOtherKey(envOutput, which, l, src);
    DockerOtherKey(envOutput, which, rt, src);
  }

  /** Inside the container a copied directory is found under `/data`. */
  lemma {:induction false} DockerRuntimePath(envOutput: string, which: string -> (int, string), copied: seq<(string, string)>,
                          projectPath: string, baseName: string, i: nat)
    requires LastSource(copied, i)
    ensures var base := BaseLayers(DockerLayer(envOutput, which), copied, DataDir(projectPath, baseName), "/data");
            StringLookup(base)(PathKey("runtime-", copied[i].0)) == Ok("/data/" + copied[i].1)
  {
    var env, root := DockerLayer(envOutput, which), "/data";
    DockerPathKeys(envOutput, which, copied[i].0);
    RuntimePathLookup(env, copied, DataDir(projectPath, baseName), root, i);
    assert root + "/" == "/data/";
    assert JoinPath(root, copied[i].1) == "/data/" + copied[i].1;
  }
}
