/** The installer's own logic around a service: rendering its service file, the command
    prefixes that run it inside a conda environment or a container, the image tag, the
    choice of conda executable, and `install_service`, which ties the data directories,
    the lookup chain and the service file together. */
module Installer {
  import opened Wrappers
  import opened OrderedMaps
  import opened Text
  import opened Interpolation
  import opened DataDirs
  import opened Context

  /** Why installing a service fails. */
  datatype InstallError =
    | Lookup(cause: LookupError)         // a placeholder lookup failed
    | Rules(fault: RuleError)          // a `files` rule was rejected
    | MissingKey(key: string)         // `KeyError` on a configuration key
    | NotSubscriptable(key: string)   // `TypeError`: indexing a value that is not a mapping
    | NotIterable(key: string)        // `TypeError`: splatting a value that is not iterable
    | NotText(key: string)            // `TypeError`: a value of the wrong type where a name was expected
    | FileNotFound(path: string)      // `FileNotFoundError`
    | NoImage                         // `ValueError`: neither `pull` nor `build`
    | NoCondaExe                      // `FileNotFoundError`: no conda executable
    | NoDocker                        // `FileNotFoundError`: no `docker` on the path

  /** Python truthiness of a loaded value. */
  predicate Truthy(v: Value) {
    match v
    case Str(s) => s != ""
    case Scalar(_, t) => t
    case Seq(items) => items != []
    case Mapping(es) => es != []
  }

  // ---------------------------------------------------------------------------------
  // copy_service_file

  const CommandKey := "command"

  /** `[*v]`: a string splats into its characters, a list into its items, a mapping into
      its keys; any other value is not iterable. */
  function Splat(v: Value): (r: Result<seq<Value>, InstallError>)
    ensures r.Ok? <==> !v.Scalar?
    ensures v.Str? ==> r.Ok? && |r.value| == |v.s| && forall i :: 0 <= i < |v.s| ==> r.value[i] == Str([v.s[i]])
    ensures v.Seq? ==> r == Ok(v.items)
    ensures v.Mapping? ==> r.Ok? && |r.value| == |v.entries| && forall i :: 0 <= i < |v.entries| ==> r.value[i] == Str(v.entries[i].0)
    ensures v.Scalar? ==> r == Err(NotIterable(CommandKey))
  {
    match v
    case Str(s) => Ok(seq(|s|, i requires 0 <= i < |s| => Str([s[i]])))
    case Seq(items) => Ok(items)
    case Mapping(es) => Ok(seq(|es|, i requires 0 <= i < |es| => Str(es[i].0)))
    case Scalar(_, _) => Err(NotIterable(CommandKey))
  }

  /** `service_config["command"] = [*prefix, *service_config["command"]]`. */
  function PrependCommand(config: Value, prefix: seq<Value>): (r: Result<Value, InstallError>)
    ensures !config.Mapping? ==> r == Err(NotSubscriptable(CommandKey))
    ensures config.Mapping? && Get(config.entries, CommandKey).None? ==> r == Err(MissingKey(CommandKey))
    ensures config.Mapping? && Get(config.entries, CommandKey).Some? ==>
              (r.Ok? <==> !Get(config.entries, CommandKey).value.Scalar?)
    ensures r.Ok? ==>
              && r.value.Mapping?
              && MapKeys(r.value.entries) == MapKeys(config.entries)
              && Get(r.value.entries, CommandKey) == Some(Seq(prefix + Splat(Get(config.entries, CommandKey).value).value))
              && forall k :: k != CommandKey ==> Get(r.value.entries, k) == Get(config.entries, k)
  {
    if !config.Mapping? then Err(NotSubscriptable(CommandKey))
    else match Get(config.entries, CommandKey)
      case None => Err(MissingKey(CommandKey))
      case Some(c) =>
        var items :- Splat(c);
        var es := config.entries;
        var r := Put(es, CommandKey, Seq(prefix + items));
        PutGet(es, CommandKey, Seq(prefix + items), CommandKey);
        PutOrder(es, CommandKey, Seq(prefix + items));
        forall k | k != CommandKey ensures Get(r, k) == Get(es, k) {
          PutGet(es, CommandKey, Seq(prefix + items), k);
        }
        Ok(Mapping(r))
  }

  /** The placeholder lookup the loader uses: the layered context, with an error of the
      lookup itself reported as such. */
  function LoadService(template: Value, layers: seq<Layer>): Result<Value, InstallError> {
    match LoadTemplate(template, StringLookup(layers))
    case Ok(v) => Ok(v)
    case Err(e) => Err(Lookup(e))
  }

  /** `copy_service_file`: the template loaded through the context, with the prefix put in
      front of its command. */
  function CopyServiceFile(template: Value, layers: seq<Layer>, prefix: seq<Value>): (r: Result<Value, InstallError>)
    ensures r.Ok? ==> r.value.Mapping? && Get(r.value.entries, CommandKey).Some?
                      && Get(r.value.entries, CommandKey).value.Seq?
                      && prefix <= Get(r.value.entries, CommandKey).value.items
  {
    var loaded :- LoadService(template, layers);
    PrependCommand(loaded, prefix)
  }

  /** A template without placeholders only has its command prefixed. */
  lemma {:induction false} PlainTemplate(template: Value, layers: seq<Layer>, prefix: seq<Value>)
    requires TemplateFree(template)
    ensures CopyServiceFile(template, layers, prefix) == PrependCommand(template, prefix)
  {
    LoadTemplateUnchanged(template, StringLookup(layers));
  }

  /** A list command keeps its own items after the prefix, in order. */
  lemma {:induction false} ListCommandKept(template: Value, layers: seq<Layer>, prefix: seq<Value>, command: seq<Value>)
    requires TemplateFree(template) && template.Mapping?
    requires Get(template.entries, CommandKey) == Some(Seq(command))
    ensures CopyServiceFile(template, layers, prefix).Ok?
    ensures Get(CopyServiceFile(template, layers, prefix).value.entries, CommandKey) == Some(Seq(prefix + command))
  {
    PlainTemplate(template, layers, prefix);
  }

  /** `base_name = install_file.name[:-len(suffix)]`: the suffix is cut off by length
      only, and a name shorter than the suffix leaves nothing. */
  function BaseName(fileName: string, suffix: string): (r: string)
    ensures |r| == if |fileName| >= |suffix| then |fileName| - |suffix| else 0
    ensures r <= fileName
  {
    if |fileName| >= |suffix| then fileName[..|fileName| - |suffix|] else ""
  }

  lemma {:induction false} BaseNameOf(base: string, suffix: string)
    ensures BaseName(base + suffix, suffix) == base
  {
    assert (base + suffix)[..|base|] == base;
  }

  /** The service template next to the install file. */
  function ServiceTemplateName(baseName: string): (r: string)
    ensures baseName <= r && BaseName(r, ".service.yaml") == baseName
  {
    BaseNameOf(baseName, ".service.yaml");
    baseName + ".service.yaml"
  }

  // ---------------------------------------------------------------------------------
  // Command prefixes

  /** `[conda_exe, "run", "-p", str(env_path)]`. */
  function CondaPrefix(condaExe: string, envPath: string): (r: seq<Value>)
    ensures |r| == 4 && r[0] == Str(condaExe) && r[3] == Str(envPath)
  {
    [Str(condaExe), Str("run"), Str("-p"), Str(envPath)]
  }

  /** The read-only bind mount of one copied directory to `/data/<p>`. */
  function MountSpec(dstDataDir: string, p: string): string {
    "type=bind,src=" + JoinPath(dstDataDir, p) + ",dst=/data/" + p + ",ro"
  }

  /** `mount_args`: two arguments per copied directory, from its destination name. */
  function MountArgs(dstDataDir: string, copied: seq<(string, string)>): (r: seq<string>)
    ensures |r| == 2 * |copied|
    ensures forall i :: 0 <= i < |copied| ==> r[2 * i] == "--mount" && r[2 * i + 1] == MountSpec(dstDataDir, copied[i].1)
  {
    if copied == [] then []
    else
      var rest := MountArgs(dstDataDir, copied[1..]);
      var r := ["--mount", MountSpec(dstDataDir, copied[0].1)] + rest;
      forall i | 1 <= i < |copied| ensures r[2 * i] == "--mount" && r[2 * i + 1] == MountSpec(dstDataDir, copied[i].1) {
        assert copied[i] == copied[1..][i - 1];
        assert r[2 * i] == rest[2 * (i - 1)] && r[2 * i + 1] == rest[2 * (i - 1) + 1];
      }
      r
  }

  const DockerVarPrefix := "DOCKER_"

  /** `f"{k}={v}"` for every variable of the environment whose name starts `DOCKER_`,
      in the environment's order. */
  function DockerVars(environ: seq<(string, string)>): (r: seq<string>)
    ensures |r| <= |environ|
    ensures forall x :: x in r <==> exists i :: 0 <= i < |environ| && DockerVarPrefix <= environ[i].0
                                                  && x == environ[i].0 + "=" + environ[i].1
  {
    if environ == [] then []
    else
      var rest := DockerVars(environ[1..]);
      assert forall i :: 1 <= i < |environ| ==> environ[i] == environ[1..][i - 1];
      assert forall i :: 0 <= i < |environ| - 1 ==> environ[1..][i] == environ[i + 1];
      if DockerVarPrefix <= environ[0].0 then [environ[0].0 + "=" + environ[0].1] + rest else rest
  }

  /** The variables keep the environment's order: filtering a concatenation is the
      concatenation of the filtered parts. */
  lemma {:induction false} DockerVarsOrder(front: seq<(string, string)>, back: seq<(string, string)>)
    ensures DockerVars(front + back) == DockerVars(front) + DockerVars(back)
    decreases |front|
  {
    if front != [] {
      assert (front + back)[1..] == front[1..] + back;
      DockerVarsOrder(front[1..], back);
    } else {
      assert front + back == back;
    }
  }

  /** `os.path.join("${SLIVKA_HOME}", "scripts", "run_with_docker.sh")`. */
  const WrapperScript := "${SLIVKA_HOME}/scripts/run_with_docker.sh"

  /** A `shutil.which` result in the command list; `None` is written as YAML null. */
  function ExeValue(exe: Option<string>): (r: Value)
    ensures exe.Some? ==> r == Str(exe.value)
    ensures exe.None? ==> !Truthy(r)
  {
    match exe
    case Some(s) => Str(s)
    case None => Scalar("null", false)
  }

  function Strs(xs: seq<string>): (r: seq<Value>)
    ensures |r| == |xs| && forall i :: 0 <= i < |xs| ==> r[i] == Str(xs[i])
  {
    seq(|xs|, i requires 0 <= i < |xs| => Str(xs[i]))
  }

  /** The docker command prefix: `env`, the `DOCKER_*` variables, `bash` and the wrapper
      script, the mounts, and the image last. */
  function DockerPrefix(envExe: Option<string>, environ: seq<(string, string)>, dstDataDir: string,
                        copied: seq<(string, string)>, image: string): (r: seq<Value>)
    ensures var n := |DockerVars(environ)|;
            && |r| == n + 4 + 2 * |copied|
            && r[0] == ExeValue(envExe)
            && r[1..n + 1] == Strs(DockerVars(environ))
            && r[n + 1] == Str("bash") && r[n + 2] == Str(WrapperScript)
            && r[n + 3..|r| - 1] == Strs(MountArgs(dstDataDir, copied))
            && r[|r| - 1] == Str(image)
  {
    var vars, mounts := Strs(DockerVars(environ)), Strs(MountArgs(dstDataDir, copied));
    var r := [ExeValue(envExe)] + vars + [Str("bash"), Str(WrapperScript)] + mounts + [Str(image)];
    assert r[1..|vars| + 1] == vars;
    assert r[|vars| + 3..|r| - 1] == mounts;
    r
  }

  /** In the rendered docker service, the image comes right before the service's own
      command, so everything the template says runs inside the container. */
  lemma {:induction false} ImageBeforeCommand(template: Value, layers: seq<Layer>, envExe: Option<string>, environ: seq<(string, string)>,
                           dstDataDir: string, copied: seq<(string, string)>, image: string, command: seq<Value>)
    requires TemplateFree(template) && template.Mapping?
    requires Get(template.entries, CommandKey) == Some(Seq(command))
    ensures var prefix := DockerPrefix(envExe, environ, dstDataDir, copied, image);
            var r := CopyServiceFile(template, layers, prefix);
            && r.Ok?
            && Get(r.value.entries, CommandKey) == Some(Seq(prefix + command))
            && (prefix + command)[|prefix| - 1] == Str(image)
            && (prefix + command)[|prefix|..] == command
  {
    var prefix := DockerPrefix(envExe, environ, dstDataDir, copied, image);
    ListCommandKept(template, layers, prefix, command);
    assert (prefix + command)[|prefix|..] == command;
  }

  // ---------------------------------------------------------------------------------
  // Images

  /** `f"{image_name}:{image_tag}" if image_tag else image_name`. */
  function FullTag(name: string, tag: Option<string>): (r: string)
    ensures name <= r
    ensures tag.Some? && tag.value != "" ==> r[|name|..] == ":" + tag.value
    ensures tag.None? || tag.value == "" ==> r == name
  {
    if tag.Some? && tag.value != "" then name + ":" + tag.value else name
  }

  /** The text after the last `:`, if there is one. */
  function AfterLastColon(s: string): (r: Option<string>)
    ensures r.Some? ==> |r.value| < |s| && s[|s| - |r.value| - 1] == ':' && s[|s| - |r.value|..] == r.value
                        && ':' !in r.value
    ensures r.None? <==> ':' !in s
    decreases |s|
  {
    if s == [] then None
    else if s[|s| - 1] == ':' then Some("")
    else
      var init := s[..|s| - 1];
      assert s == init + [s[|s| - 1]];
      match AfterLastColon(init)
      case None => None
      case Some(t) =>
        assert s[|s| - |t| - 1..] == init[|init| - |t|..] + [s[|s| - 1]];
        Some(t + [s[|s| - 1]])
  }

  lemma {:induction false} AfterLastColonAppend(s: string, t: string)
    requires ':' !in t
    ensures AfterLastColon(s + ":" + t) == Some(t)
    decreases |t|
  {
    if t == [] {
      assert (s + ":" + t) == s + [':'];
    } else {
      var u := s + ":" + t;
      assert u[..|u| - 1] == s + ":" + t[..|t| - 1];
      assert t[|t| - 1] in t;
      AfterLastColonAppend(s, t[..|t| - 1]);
      assert t[..|t| - 1] + [t[|t| - 1]] == t;
    }
  }

  /** A tag without a colon can be read back from the full tag, whatever colons the
      image name (a registry port, say) contains. */
  lemma {:induction false} FullTagRoundTrip(name: string, tag: string)
    requires tag != "" && ':' !in tag
    ensures AfterLastColon(FullTag(name, Some(tag))) == Some(tag)
  {
    AfterLastColonAppend(name, tag);
  }

  /** `["--platform", platform]` when one is given. */
  function PlatformOptions(platform: Option<string>): (r: seq<string>)
    ensures r == [] <==> platform.None? || platform.value == ""
    ensures r != [] ==> r == ["--platform", platform.value]
  {
    if platform.Some? && platform.value != "" then ["--platform", platform.value] else []
  }

  /** The command `pull_docker_image` runs; the full tag is its last argument. */
  function PullArgs(name: string, tag: Option<string>, platform: Option<string>): (r: seq<string>)
    ensures |r| == 5 + |PlatformOptions(platform)|
    ensures r[..3] == ["docker", "image", "pull"] && r[3..|r| - 2] == PlatformOptions(platform)
    ensures r[|r| - 2] == "--quiet" && r[|r| - 1] == FullTag(name, tag)
  {
    var r := ["docker", "image", "pull"] + PlatformOptions(platform) + ["--quiet", FullTag(name, tag)];
    assert r[..3] == ["docker", "image", "pull"];
    assert r[3..|r| - 2] == PlatformOptions(platform);
    r
  }

  /** The command `build_docker_image` runs; the full tag follows `--tag`. */
  function BuildArgs(dockerfile: string, name: string, tag: Option<string>, platform: Option<string>, dir: string): (r: seq<string>)
    ensures |r| == 8 + |PlatformOptions(platform)|
    ensures r[..5] == ["docker", "buildx", "build", "--tag", FullTag(name, tag)]
    ensures r[5..|r| - 3] == PlatformOptions(platform)
    ensures r[|r| - 3..] == ["--file", dockerfile, dir]
  {
    var r := ["docker", "buildx", "build", "--tag", FullTag(name, tag)] + PlatformOptions(platform) + ["--file", dockerfile, dir];
    assert r[..5] == ["docker", "buildx", "build", "--tag", FullTag(name, tag)];
    assert r[5..|r| - 3] == PlatformOptions(platform);
    assert r[|r| - 3..] == ["--file", dockerfile, dir];
    r
  }

  /** What `_make_image` asks docker to do. */
  datatype ImageRequest =
    | Pull(name: string, tag: Option<string>, platform: Option<string>)
    | Build(dockerfile: string, name: string, tag: Option<string>, platform: Option<string>)

  /** The image tag the request produces, which is what `_make_image` returns. */
  function ImageName(req: ImageRequest): string {
    FullTag(req.name, req.tag)
  }

  /** A loaded value used as a name: strings, and other scalars by their text. */
  function TextOf(v: Value, key: string): (r: Result<string, InstallError>)
    ensures r.Ok? <==> v.Str? || v.Scalar?
    ensures v.Str? ==> r == Ok(v.s)
  {
    match v
    case Str(s) => Ok(s)
    case Scalar(t, _) => Ok(t)
    case _ => Err(NotText(key))
  }

  /** `m[key]` on a loaded value. */
  function Index(v: Value, key: string): (r: Result<Value, InstallError>)
    ensures r.Ok? <==> v.Mapping? && Get(v.entries, key).Some?
    ensures r.Ok? ==> r.value == Get(v.entries, key).value
    ensures !v.Mapping? ==> r == Err(NotSubscriptable(key))
    ensures v.Mapping? && Get(v.entries, key).None? ==> r == Err(MissingKey(key))
  {
    if !v.Mapping? then Err(NotSubscriptable(key))
    else match Get(v.entries, key)
      case None => Err(MissingKey(key))
      case Some(x) => Ok(x)
  }

  /** `m.get(key)` on an optional name: absent or falsy gives None. */
  function OptionalText(m: seq<(string, Value)>, key: string): (r: Result<Option<string>, InstallError>)
    ensures Get(m, key).None? ==> r == Ok(None)
    ensures r.Ok? && r.value.Some? ==> Get(m, key).Some? && TextOf(Get(m, key).value, key) == Ok(r.value.value)
  {
    match Get(m, key)
    case None => Ok(None)
    case Some(v) =>
      if !Truthy(v) then Ok(None)
      else
        var t :- TextOf(v, key);
        Ok(Some(t))
  }

  /** `_make_image`: `pull` wins over `build`; a string `pull` names the image alone;
      a mapping gives `image`, optional `tag` and `platform`, and `build` also needs a
      string `dockerfile`, relative to the install file's directory. */
  function MakeImage(srcRoot: string, config: seq<(string, Value)>): (r: Result<ImageRequest, InstallError>)
    ensures Get(config, "pull").Some? && Get(config, "pull").value.Str? ==>
              r == Ok(Pull(Get(config, "pull").value.s, None, None))
    ensures Get(config, "pull").Some? && !Get(config, "pull").value.Str? ==>
              var p := Get(config, "pull").value;
              && (r.Ok? <==> && Index(p, "image").Ok? && TextOf(Index(p, "image").value, "image").Ok?
                             && OptionalText(p.entries, "tag").Ok? && OptionalText(p.entries, "platform").Ok?)
              && (r.Ok? ==> && r.value.Pull?
                            && Ok(r.value.name) == TextOf(Index(p, "image").value, "image")
                            && Ok(r.value.tag) == OptionalText(p.entries, "tag")
                            && Ok(r.value.platform) == OptionalText(p.entries, "platform"))
    ensures Get(config, "pull").None? && Get(config, "build").Some? ==>
              var b := Get(config, "build").value;
              && (r.Ok? <==> && Index(b, "dockerfile").Ok? && Index(b, "dockerfile").value.Str?
                             && Index(b, "image").Ok? && TextOf(Index(b, "image").value, "image").Ok?
                             && OptionalText(b.entries, "tag").Ok? && OptionalText(b.entries, "platform").Ok?)
              && (Index(b, "dockerfile").Ok? && !Index(b, "dockerfile").value.Str? ==> r == Err(NotText("dockerfile")))
              && (r.Ok? ==> && r.value.Build?
                            && r.value.dockerfile == JoinPath(srcRoot, Index(b, "dockerfile").value.s)
                            && Ok(r.value.name) == TextOf(Index(b, "image").value, "image")
                            && Ok(r.value.tag) == OptionalText(b.entries, "tag")
                            && Ok(r.value.platform) == OptionalText(b.entries, "platform"))
    ensures Get(config, "pull").None? && Get(config, "build").None? ==> r == Err(NoImage)
  {
    match Get(config, "pull")
    case Some(p) =>
      if p.Str? then Ok(Pull(p.s, None, None))
      else
      var image :- Index(p, "image");
      var name :- TextOf(image, "image");
      var tag :- OptionalText(p.entries, "tag");
      var platform :- OptionalText(p.entries, "platform");
      Ok(Pull(name, tag, platform))
    case None =>
      match Get(config, "build")
      case None => Err(NoImage)
      case Some(b) =>
        var df :- Index(b, "dockerfile");
        if !df.Str? then Err(NotText("dockerfile"))
        else
        var image :- Index(b, "image");
        var name :- TextOf(image, "image");
        var tag :- OptionalText(b.entries, "tag");
        var platform :- OptionalText(b.entries, "platform");
        Ok(Build(JoinPath(srcRoot, df.s), name, tag, platform))
  }

  /** A build needs its Dockerfile to exist; `files` is the set of existing files. */
  function MakeImageName(srcRoot: string, config: seq<(string, Value)>, files: set<string>): (r: Result<string, InstallError>)
    ensures r.Ok? ==> MakeImage(srcRoot, config).Ok? && r.value == ImageName(MakeImage(srcRoot, config).value)
    ensures MakeImage(srcRoot, config).Ok? && MakeImage(srcRoot, config).value.Build?
            && MakeImage(srcRoot, config).value.dockerfile !in files ==>
              r == Err(FileNotFound(MakeImage(srcRoot, config).value.dockerfile))
    ensures MakeImage(srcRoot, config).Err? ==> r == Err(MakeImage(srcRoot, config).error)
    ensures MakeImage(srcRoot, config).Ok?
            && (!MakeImage(srcRoot, config).value.Build? || MakeImage(srcRoot, config).value.dockerfile in files) ==>
              r.Ok?
  {
    var req :- MakeImage(srcRoot, config);
    if req.Build? && req.dockerfile !in files then Err(FileNotFound(req.dockerfile))
    else Ok(ImageName(req))
  }

  // ---------------------------------------------------------------------------------
  // Executables

  /** `next(filter(None, candidates), None)`: the first non-empty candidate. */
  function FirstTruthy(cands: seq<Option<string>>): (r: Option<string>)
    ensures r.None? <==> forall i :: 0 <= i < |cands| ==> cands[i].None? || cands[i].value == ""
    ensures r.Some? ==> r.value != ""
    ensures r.Some? ==>
              exists i :: 0 <= i < |cands| && cands[i] == r && forall j :: 0 <= j < i ==> cands[j].None? || cands[j].value == ""
  {
    if cands == [] then None
    else if cands[0].Some? && cands[0].value != "" then cands[0]
    else
      var r := FirstTruthy(cands[1..]);
      assert forall i :: 1 <= i < |cands| ==> cands[i] == cands[1..][i - 1];
      r
  }

  function EnvGet(environ: map<string, string>, name: string): Option<string> {
    if name in environ then Some(environ[name]) else None
  }

  /** `detect_conda_exe`: `MAMBA_EXE`, then `CONDA_EXE`, then `micromamba`, `mamba` and
      `conda` on the path. */
  function DetectCondaExe(environ: map<string, string>, which: string -> Option<string>): (r: Option<string>)
    ensures r.Some? ==> r.value != ""
  {
    FirstTruthy([EnvGet(environ, "MAMBA_EXE"), EnvGet(environ, "CONDA_EXE"),
                 which("micromamba"), which("mamba"), which("conda")])
  }

  /** A set `MAMBA_EXE` always wins. */
  lemma {:induction false} MambaExeFirst(environ: map<string, string>, which: string -> Option<string>)
    requires "MAMBA_EXE" in environ && environ["MAMBA_EXE"] != ""
    ensures DetectCondaExe(environ, which) == Some(environ["MAMBA_EXE"])
  {
  }

  /** Without either variable, the path is searched in the order micromamba, mamba, conda. */
  lemma {:induction false} CondaExeFromPath(environ: map<string, string>, which: string -> Option<string>)
    requires "MAMBA_EXE" !in environ && "CONDA_EXE" !in environ
    ensures DetectCondaExe(environ, which) == FirstTruthy([which("micromamba"), which("mamba"), which("conda")])
  {
    var c := [EnvGet(environ, "MAMBA_EXE"), EnvGet(environ, "CONDA_EXE"), which("micromamba"), which("mamba"), which("conda")];
    assert c[2..] == [which("micromamba"), which("mamba"), which("conda")];
    assert FirstTruthy(c) == FirstTruthy(c[1..]);
    assert FirstTruthy(c[1..]) == FirstTruthy(c[1..][1..]);
    assert c[1..][1..] == c[2..];
  }

  /** `CondaInstaller.__init__`: a given executable is looked up on the path, otherwise
      one is detected; finding none is an error. */
  function CondaExe(given: Option<string>, environ: map<string, string>, which: string -> Option<string>)
    : (r: Result<string, InstallError>)
    ensures r.Ok? ==> r.value != ""
    ensures given.Some? && given.value != "" ==>
              (r.Ok? <==> which(given.value).Some? && which(given.value).value != "")
    ensures given.Some? && given.value != "" && r.Ok? ==> r.value == which(given.value).value
    ensures (given.None? || given.value == "") ==>
              (r.Ok? <==> DetectCondaExe(environ, which).Some?)
              && (r.Ok? ==> r.value == DetectCondaExe(environ, which).value)
    ensures r.Err? ==> r == Err(NoCondaExe)
  {
    var exe := if given.Some? && given.value != "" then which(given.value) else DetectCondaExe(environ, which);
    if exe.Some? && exe.value != "" then Ok(exe.value) else Err(NoCondaExe)
  }

  /** `DockerInstaller.__init__`. */
  function DockerExe(which: string -> Option<string>): (r: Result<string, InstallError>)
    ensures r.Ok? <==> which("docker").Some? && which("docker").value != ""
    ensures r.Ok? ==> r.value == which("docker").value
  {
    var exe := which("docker");
    if exe.Some? && exe.value != "" then Ok(exe.value) else Err(NoDocker)
  }

  // ---------------------------------------------------------------------------------
  // install_service

  /** One `files` rule as loaded: a mapping of string patterns. */
  function RuleOfValue(v: Value): (r: Result<Rule, InstallError>)
    ensures !v.Mapping? ==> r == Err(NotIterable("files"))
    ensures v.Mapping? ==> (r.Ok? <==> forall i :: 0 <= i < |v.entries| ==> v.entries[i].1.Str?)
    ensures v.Mapping? && r.Err? ==> r == Err(NotText("files"))
    ensures r.Ok? ==> v.Mapping? && |r.value.entries| == |v.entries|
    ensures r.Ok? ==> forall i :: 0 <= i < |v.entries| ==> r.value.entries[i] == (v.entries[i].0, v.entries[i].1.s)
  {
    if !v.Mapping? then Err(NotIterable("files"))
    else
      var es :- RuleEntries(v.entries);
      Ok(Rule(es))
  }

  function RuleEntries(es: seq<(string, Value)>): (r: Result<seq<(string, string)>, InstallError>)
    ensures r.Ok? <==> forall i :: 0 <= i < |es| ==> es[i].1.Str?
    ensures r.Err? ==> r == Err(NotText("files"))
    ensures r.Ok? ==> |r.value| == |es| && forall i :: 0 <= i < |es| ==> r.value[i].0 == es[i].0 && Str(r.value[i].1) == es[i].1
  {
    if es == [] then Ok([])
    else if !es[0].1.Str? then Err(NotText("files"))
    else
      var rest :- RuleEntries(es[1..]);
      assert forall i :: 1 <= i < |es| ==> es[i] == es[1..][i - 1];
      Ok([(es[0].0, es[0].1.s)] + rest)
  }

  /** `config.get("files", [])`, as `find_data_dirs` takes it: an absent or falsy value
      (`null`, `{}`, `""`, `false`) is replaced by the implicit rule there, so it gives
      no rules; any other value must be a list of rules. */
  function FilesRules(config: seq<(string, Value)>): (r: Result<seq<Rule>, InstallError>)
    ensures Get(config, "files").None? || !Truthy(Get(config, "files").value) ==> r == Ok([])
    ensures Get(config, "files").Some? && Truthy(Get(config, "files").value) && !Get(config, "files").value.Seq? ==>
              r == Err(NotIterable("files"))
    ensures r.Ok? && Get(config, "files").Some? && Truthy(Get(config, "files").value) ==>
              Get(config, "files").value.Seq? && |r.value| == |Get(config, "files").value.items|
    ensures Get(config, "files").Some? && Truthy(Get(config, "files").value) && Get(config, "files").value.Seq? ==>
              var items := Get(config, "files").value.items;
              && (r.Ok? <==> forall i :: 0 <= i < |items| ==> RuleOfValue(items[i]).Ok?)
              && (r.Ok? ==> forall i :: 0 <= i < |items| ==> r.value[i] == RuleOfValue(items[i]).value)
  {
    match Get(config, "files")
    case None => Ok([])
    case Some(v) =>
      if !Truthy(v) then Ok([])
      else if v.Seq? then RulesOfItems(v.items)
      else Err(NotIterable("files"))
  }

  /** The rules of a `files` list, in order; the first rule that does not load gives the error. */
  function RulesOfItems(items: seq<Value>): (r: Result<seq<Rule>, InstallError>)
    ensures r.Ok? <==> forall i :: 0 <= i < |items| ==> RuleOfValue(items[i]).Ok?
    ensures r.Ok? ==> |r.value| == |items| && forall i :: 0 <= i < |items| ==> r.value[i] == RuleOfValue(items[i]).value
    ensures r.Err? ==> exists i :: 0 <= i < |items| && RuleOfValue(items[i]).Err? && r.error == RuleOfValue(items[i]).error
                         && forall j :: 0 <= j < i ==> RuleOfValue(items[j]).Ok?
  {
    if items == [] then Ok([])
    else
      var x :- RuleOfValue(items[0]);
      assert forall i :: 1 <= i < |items| ==> items[i] == items[1..][i - 1];
      var rest := RulesOfItems(items[1..]);
      if rest.Err? then
        var k :| 0 <= k < |items[1..]| && RuleOfValue(items[1..][k]).Err? && rest.error == RuleOfValue(items[1..][k]).error
                 && forall j :: 0 <= j < k ==> RuleOfValue(items[1..][j]).Ok?;
        assert forall j :: 0 <= j < k + 1 ==> RuleOfValue(items[j]).Ok?;
        Err(rest.error)
      else
        Ok([x] + rest.value)
  }

  /** `config.get("vars", {})`, which must be a mapping. */
  function VarsOf(config: seq<(string, Value)>): (r: Result<seq<(string, Value)>, InstallError>)
    ensures Get(config, "vars").None? ==> r == Ok([])
    ensures r.Ok? && Get(config, "vars").Some? ==> Get(config, "vars") == Some(Mapping(r.value))
  {
    match Get(config, "vars")
    case None => Ok([])
    case Some(v) => if v.Mapping? then Ok(v.entries) else Err(NotSubscriptable("vars"))
  }

  function LiftLookup(r: Result<seq<Layer>, LookupError>): (res: Result<seq<Layer>, InstallError>)
    ensures res.Ok? <==> r.Ok?
    ensures r.Ok? ==> res.value == r.value
  {
    match r
    case Ok(v) => Ok(v)
    case Err(e) => Err(Lookup(e))
  }

  /** The copied list is the identity mapping over exactly the directories found. */
  ghost predicate CopiedAsFound(copied: seq<(string, string)>, found: set<string>) {
    && (forall i :: 0 <= i < |copied| ==> copied[i].0 == copied[i].1)
    && (forall d :: d in found <==> exists i :: 0 <= i < |copied| && copied[i].0 == d)
  }

  /** What the conda installation writes, once the data directories are copied. */
  function CondaService(config: seq<(string, Value)>, template: Value, condaExe: string, envPath: string,
                        environ: map<string, string>, which: (string, string) -> Option<string>,
                        copied: seq<(string, string)>, projectPath: string, baseName: string)
    : (r: Result<Value, InstallError>)
    ensures VarsOf(config).Err? ==> r == Err(VarsOf(config).error)
    ensures r.Ok? ==> VarsOf(config).Ok? && r.value.Mapping? && Get(r.value.entries, CommandKey).Some?
                      && Get(r.value.entries, CommandKey).value.Seq?
                      && CondaPrefix(condaExe, envPath) <= Get(r.value.entries, CommandKey).value.items
  {
    var vars :- VarsOf(config);
    var layers :- LiftLookup(CondaContext(environ, which, envPath, copied, projectPath, baseName, vars));
    CopyServiceFile(template, layers, CondaPrefix(condaExe, envPath))
  }

  /** What the docker installation writes, once the image is known and the data
      directories are copied. */
  function DockerService(config: seq<(string, Value)>, template: Value, image: string, envOutput: string,
                         dockerWhich: string -> (int, string), envExe: Option<string>, environ: seq<(string, string)>,
                         copied: seq<(string, string)>, projectPath: string, baseName: string)
    : (r: Result<Value, InstallError>)
    ensures VarsOf(config).Err? ==> r == Err(VarsOf(config).error)
    ensures r.Ok? ==> VarsOf(config).Ok? && r.value.Mapping? && Get(r.value.entries, CommandKey).Some?
                      && Get(r.value.entries, CommandKey).value.Seq?
                      && DockerPrefix(envExe, environ, DataDir(projectPath, baseName), copied, image)
                           <= Get(r.value.entries, CommandKey).value.items
  {
    var vars :- VarsOf(config);
    var layers :- LiftLookup(DockerContext(envOutput, dockerWhich, copied, projectPath, baseName, vars));
    CopyServiceFile(template, layers, DockerPrefix(envExe, environ, DataDir(projectPath, baseName), copied, image))
  }

  /** `CondaInstaller.install_service` after the environment is created at `envPath`:
      copy the data directories, build the context, render the service file. A failure
      after the copy leaves the copied directories in place. */
  method CondaInstallService(disk: Disk, condaExe: string, envPath: string, installDir: string, subdirs: set<string>,
                             config: seq<(string, Value)>, template: Value, environ: map<string, string>,
                             which: (string, string) -> Option<string>, projectPath: string, baseName: string,
                             confirm: string -> bool)
    returns (copied: Result<seq<(string, string)>, InstallError>, service: Result<Value, InstallError>)
    modifies disk
    ensures FilesRules(config).Err? ==> copied == Err(FilesRules(config).error)
    ensures FilesRules(config).Ok? ==> (copied.Ok? <==> FindDataDirsSpec(subdirs, FilesRules(config).value).Ok?)
    ensures copied.Err? ==> service == Err(copied.error) && disk.existing == old(disk.existing)
    ensures copied.Ok? ==>
              && CopiedAsFound(copied.value, FindDataDirsSpec(subdirs, FilesRules(config).value).value)
              && disk.existing == Copying(CopyPairs(installDir, DataDir(projectPath, baseName), copied.value),
                                          old(disk.existing), confirm).1
              && service == CondaService(config, template, condaExe, envPath, environ, which, copied.value, projectPath, baseName)
  {
    var rules := FilesRules(config);
    if rules.Err? {
      copied, service := Err(rules.error), Err(rules.error);
      return;
    }
    var patterns := new RuleList(rules.value);
    var found := FindAndCopyDataDirs(disk, installDir, subdirs, patterns, DataDir(projectPath, baseName), confirm);
    if found.Err? {
      copied, service := Err(Rules(found.error)), Err(Rules(found.error));
      return;
    }
    copied := Ok(found.value);
    service := CondaService(config, template, condaExe, envPath, environ, which, found.value, projectPath, baseName);
  }

  /** `DockerInstaller.install_service`: the image is made first, so a bad image
      configuration fails before anything is copied. */
  method DockerInstallService(disk: Disk, installDir: string, subdirs: set<string>, files: set<string>,
                              config: seq<(string, Value)>, template: Value, envOutput: string,
                              dockerWhich: string -> (int, string), envExe: Option<string>, environ: seq<(string, string)>,
                              projectPath: string, baseName: string, confirm: string -> bool)
    returns (copied: Result<seq<(string, string)>, InstallError>, service: Result<Value, InstallError>)
    modifies disk
    ensures MakeImageName(installDir, config, files).Err? ==> copied == Err(MakeImageName(installDir, config, files).error)
    ensures MakeImageName(installDir, config, files).Ok? && FilesRules(config).Err? ==> copied == Err(FilesRules(config).error)
    ensures MakeImageName(installDir, config, files).Ok? && FilesRules(config).Ok? ==>
              (copied.Ok? <==> FindDataDirsSpec(subdirs, FilesRules(config).value).Ok?)
    ensures copied.Err? ==> service == Err(copied.error) && disk.existing == old(disk.existing)
    ensures copied.Ok? ==>
              && MakeImageName(installDir, config, files).Ok? && FilesRules(config).Ok?
              && FindDataDirsSpec(subdirs, FilesRules(config).value).Ok?
              && CopiedAsFound(copied.value, FindDataDirsSpec(subdirs, FilesRules(config).value).value)
              && disk.existing == Copying(CopyPairs(installDir, DataDir(projectPath, baseName), copied.value),
                                          old(disk.existing), confirm).1
              && service == DockerService(config, template, MakeImageName(installDir, config, files).value, envOutput,
                                          dockerWhich, envExe, environ, copied.value, projectPath, baseName)
  {
    var image := MakeImageName(installDir, config, files);
    if image.Err? {
      copied, service := Err(image.error), Err(image.error);
      return;
    }
    var rules := FilesRules(config);
    if rules.Err? {
      copied, service := Err(rules.error), Err(rules.error);
      return;
    }
    var patterns := new RuleList(rules.value);
    var found := FindAndCopyDataDirs(disk, installDir, subdirs, patterns, DataDir(projectPath, baseName), confirm);
    if found.Err? {
      copied, service := Err(Rules(found.error)), Err(Rules(found.error));
      return;
    }
    copied := Ok(found.value);
    service := DockerService(config, template, image.value, envOutput, dockerWhich, envExe, environ,
                             found.value, projectPath, baseName);
  }
}
