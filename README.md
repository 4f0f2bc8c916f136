# A verified model of the slivka-bio installer core and its Jalview converters

This project models two parts of the slivka-bio repository in Dafny and proves properties of them.

**The installer (`install.py`).**
- Placeholder interpolation. The `{{ namespace:key }}` tokens of a service's configuration are replaced from a context: `interpolate_string`, `interpolate_list` and `interpolate_dict`. The service template's loader uses a second, looser token pattern (module `Interpolation`).
- The data-directory rules of `find_data_dirs`, and the copying in `copy_data_dirs` and `find_and_copy_data_dirs` (module `DataDirs`).
- The lookup contexts: `DataFilesContextMap`, `CondaEnvContextMap`, `DockerEnvContextMap` with its cached `env` output, and the `ChainMap` that layers them with the service's `vars` (module `Context`).
- The command prefixes, the docker mount arguments, the image tag, the image configuration dispatch, the choice of conda executable and `install_service` itself (module `Installer`).

**The four Jalview converters (`services/*/scripts/jalview_parser.py`).** They read the output of JRONN, DisEMBL, GlobPlot and RNAalifold and write it as Jalview annotation and feature files.
- Modules `Jronn`, `Disembl`, `Globplot`, and `Rnaalifold` with `RnaPatterns` and `RnaContacts`.
- Shared modules:
  - `JalviewFormat`: the row writers, which are identical in every converter;
  - `PredictorText`: the header and region patterns shared by DisEMBL and GlobPlot;
  - `Streams`, `OrderedMaps`, `Text` and `Wrappers`: streams, insertion-ordered dictionaries, Python's string operations and result types.

**How the model is built.**
- The source's regular expressions are deterministic scanners. Each scanner's comments say why the backtracking engine's first match is the one it finds.
- A readline or iteration cursor is a `Streams.LineReader` object. A written file is a `Streams.Sink` object whose text each write extends.
- Each read loop is a method that is proved equal to a function of the lines it reads. The properties are lemmas about that function:
  - what the loop keeps;
  - the errors it raises;
  - that what the writers produce reads back.
- Values stay strings, as in the source.
- Python dictionaries are sequences of entries in insertion order.

**Abstractions.** These stand in for things outside the model:
- the process environment, `shutil.which`, the `docker run env` and `which` outputs, and the confirmation prompt are parameters;
- the directories under a source root and the destination paths that exist are sets of names;
- `float()` on a probability column and `%.1f` formatting are parameters (`RnaContacts.FloatParser`, `Rnaalifold.Fixed1`) over real numbers.

**Labels.** The source writes the RNAalifold MFE row's label as `MFE structure` and its `ROWPROPERTIES` line as `MFE Structure`. The model keeps both spellings as written.

## Model

| member | source | states |
|---|---|---|
| Interpolation.TokenText | install.py:226 | the text a token occupies is `{{`, an optional space, namespace `:` name, an optional space and `}}`, and its length counts exactly those parts |
| Interpolation.MatchToken | install.py:226 | a recognised token is one the pattern allows (non-empty namespace over `[\w-]`, non-empty name over the variant's key class) and its text is a prefix of the input |
| Interpolation.MatchNamespace | install.py:226 | after `{{` and the optional space, the namespace run is closed by `:`, and the rest of the token follows it in the input |
| Interpolation.MatchName | install.py:226 | after the colon, the key run is non-empty over the key class and is followed by the optional space and `}}` |
| Interpolation.MatchTokenText | install.py:226 | the recogniser accepts every token text the pattern allows, whatever follows it, and gives back that token |
| Interpolation.StrictTokenIsLoose | install.py:29 | every token of the `interpolate_string` pattern is also a token of the template loader's pattern, with the same key and the same extent |
| Interpolation.DashedKeyLoose | install.py:29 | the loader's pattern, whose key class holds `-`, matches `{{ local-path:my-dir }}` |
| Interpolation.DashedKeyNotStrict | install.py:226 | the `interpolate_string` pattern has no `-` in its key class and matches no token in `{{ local-path:my-dir }}` |
| Interpolation.Keys | install.py:226 | the keys of a scan, in order of appearance, are empty exactly when every piece is a plain character |
| Interpolation.UnscanScan | install.py:226 | the left-to-right scan loses nothing: its tokens and characters put back together give the input |
| Interpolation.InterpolateString | install.py:225-226 | `interpolate_string` succeeds exactly when every key its pattern finds is in the context, fails otherwise with the error of the first missing key, and returns a string without `{{` unchanged |
| Interpolation.ReplaceOk | install.py:226 | the substitution succeeds exactly when the lookup of every token's key succeeds |
| Interpolation.ReplaceFirstError | install.py:226 | a failed substitution raises the error of the first token whose lookup fails, every earlier lookup having succeeded |
| Interpolation.ReplaceNoTokens | install.py:226 | with no tokens, the text comes back unchanged |
| Interpolation.NoOpenBracesNoTokens | install.py:226 | a text without `{{` holds no token |
| Interpolation.NoPlaceholderUnchanged | install.py:225-226 | a string without `{{` is returned unchanged, whatever the context |
| Interpolation.SubstituteAtToken | install.py:226 | at a token the pass emits the lookup's value as it is and resumes after the token, so replacement text is never searched again |
| Interpolation.SubstituteAtChar | install.py:226 | where no token starts, the pass copies the character and goes on |
| Interpolation.SubstitutePlainChar | install.py:226 | a character other than `{` is copied through |
| Interpolation.DictInterpolation | install.py:225-226 | with a dict context, interpolation succeeds exactly when every token's key is present, and otherwise raises KeyError for the first missing key |
| Interpolation.ExampleTail | test/install_test.py:201 | `{{ key:value }}.` against `{"key:value": "replacement"}` gives `replacement.` |
| Interpolation.InterpolateExample | test/install_test.py:198-213 | the first parameterised interpolation test: the text around the placeholder is kept and the placeholder is replaced |
| Interpolation.InterpolateItem | install.py:229-248 | interpolating a value keeps its shape: strings stay strings, lists keep their length, mappings keep their keys, other scalars come back unchanged |
| Interpolation.InterpolateList | install.py:229-236 | `interpolate_list` succeeds exactly when every item interpolates, and then gives the same number of items, in order, each interpolated |
| Interpolation.InterpolateDict | install.py:239-248 | `interpolate_dict` gives the same keys in the same order |
| Interpolation.InterpolateDictEntries | install.py:239-248 | `interpolate_dict` succeeds exactly when every value interpolates, and then maps each key to its interpolated value |
| Interpolation.NoPlaceholdersUnchanged | install.py:229-248 | a nested value without placeholders comes back unchanged |
| Interpolation.LoadTemplate | install.py:18-34 | the template loader keeps the document's shape (a string stays a string, a list or mapping keeps its length, any other scalar is kept), and a string loads exactly when every key the loose pattern finds in it is in the context |
| Interpolation.LoadItems | install.py:27-29 | the loader treats a list item by item, keeping its length and order |
| Interpolation.LoadEntries | install.py:27-29 | the loader keeps the number of entries of a mapping |
| Interpolation.LoadEntriesKeys | install.py:22-29 | the loader's hook on every string scalar also replaces tokens inside mapping keys, not only inside values |
| Interpolation.LoadTemplateUnchanged | install.py:27-29 | a document without placeholders loads as it is written |
| Interpolation.LoadItemsUnchanged | install.py:27-29 | a list whose items load unchanged loads unchanged |
| Interpolation.LoadEntriesUnchanged | install.py:27-29 | a mapping whose keys and values load unchanged loads unchanged |
| DataDirs.GlobMatch | install.py:161 | a name the glob matches has at least as many characters as the pattern has characters other than `*`, and exactly as many as a pattern without `*` |
| DataDirs.StarMatchesAll | install.py:161 | the glob `*` matches every directory name |
| DataDirs.LiteralMatchesItself | install.py:161 | a glob without wildcards matches exactly the name it spells |
| DataDirs.StarSuffix | install.py:161 | `*w`, for a literal `w`, matches exactly the names that end in `w` |
| DataDirs.CheckRule | install.py:150-160 | a rule with more than one key is a ValueError, a recursive glob (`**` or `/`) a ValueError, a key other than include or exclude a KeyError, in that order; an accepted rule is a single include or exclude of a non-recursive glob |
| DataDirs.CheckRuleOf | install.py:150-160 | a single-key include or exclude rule with a non-recursive glob passes the checks |
| DataDirs.Glob | install.py:161-162 | the directories the glob yields are exactly the subdirectories it matches; an empty pattern is an error |
| DataDirs.Step | install.py:155-163 | after one rule, a directory the rule matches is in the set exactly when the rule is an include; every other directory is as it was |
| DataDirs.EffectiveRules | install.py:144-147 | the rules are never empty after the implicit `{include: '*'}`, start with an include, and end with the caller's rules unchanged |
| DataDirs.FindDataDirsSpec | install.py:136-164 | `find_data_dirs` returns a set of subdirectories exactly when every rule, the implicit first one included, is valid, and otherwise raises the fault of the first invalid rule |
| DataDirs.ApplyRulesFails | install.py:149-160 | applying the rules succeeds exactly when every rule is valid, and otherwise fails with the fault of the first invalid rule |
| DataDirs.VerdictStep | install.py:149-163 | reading the verdict from the last rule that matches agrees with applying the first rule and then the others |
| DataDirs.LastRuleDecides | install.py:148-164 | after the rules are applied in order, a directory is in the result exactly when the last rule that matches it is an include (or, if none does, when it was in the starting set) |
| DataDirs.ApplyRules | install.py:148-164 | the loop over the rules never adds or removes a name that is not a subdirectory of the source root |
| DataDirs.FindDataDirsDecides | install.py:136-164 | the result of `find_data_dirs` is a set of subdirectories, each one present exactly when its last matching rule is an include, the implicit first rule counting |
| DataDirs.NoRulesAllDirs | install.py:144-145 | with no rules, every directory is included |
| DataDirs.ExcludeOnly | install.py:146-147 | exclude rules alone remove exactly their matches from the full set of directories |
| DataDirs.FindDataDirs | install.py:136-164 | the method inserts `{include: '*'}` into the caller's list in place when the first rule has no include (an empty list is replaced locally and left untouched), and returns the specification's result |
| DataDirs.RunRules | install.py:148-164 | the loop over the rules, from an empty set, computes the fold of the rules |
| DataDirs.ApplyOp | install.py:161-163 | adding or discarding one matching directory at a time gives the effect of the whole rule |
| DataDirs.Copying | install.py:177-187 | the pairs copied are never more than the pairs given, and no destination that existed disappears |
| DataDirs.CopyingKeeps | install.py:177-187 | with distinct destinations, `copy_data_dirs` returns, in input order, exactly the pairs whose destination did not exist or whose overwrite was confirmed, and afterwards exactly those destinations and the old ones exist |
| DataDirs.CopyDataDirs | install.py:168-187 | the method returns the copied pairs and leaves the disk as the specification says |
| DataDirs.CopyPairs | install.py:208-211 | each pair handed to `copy_data_dirs` is the source root joined with the match and the target root joined with it |
| DataDirs.FindAndCopyDataDirs | install.py:190-212 | `find_and_copy_data_dirs` inserts `{include: '*'}` into the caller's list as `find_data_dirs` does, fails exactly when `find_data_dirs` does, returns `(match, match)` identity pairs covering exactly the found directories, each once, and copies their joined paths |
| DataDirs.PairEach | install.py:204-207 | the `(match, match)` list pairs each found directory with itself: one pair per directory, each directory once, and no other |
| Context.ChainLookup | install.py:312-314 | a ChainMap answer is the answer of one of its layers |
| Context.ChainFirstAnswer | install.py:312-314 | the chain answers with the first layer that does not raise KeyError |
| Context.ChainMissing | install.py:312-314 | the chain raises KeyError exactly when every layer does, and then for the key asked |
| Context.PathKeyInjective | install.py:125 | different sources give different `path:` keys under one prefix |
| Context.DataFilesMap | install.py:121-125 | every key of a data-files context is a `<prefix>path:` key |
| Context.DataFilesKeys | install.py:121-133 | the keys of a data-files context are exactly the prefixed `path:<src>` keys of the pairs |
| Context.DataFilesValue | install.py:121-133 | a source that no later pair repeats maps to its destination joined under the root |
| Context.DataFilesMeaning | install.py:121-125 | for all pairs at once: the keys are exactly the prefixed sources, and a source no later pair repeats maps to its destination joined under the root |
| Context.LocalPaths | install.py:128-129 | `local_paths_context` has a `local-path:<src>` key exactly for each copied source, giving the destination of that source's last pair joined under the root |
| Context.RuntimePaths | install.py:132-133 | `runtime_paths_context` has a `runtime-path:<src>` key exactly for each copied source, giving the destination of that source's last pair joined under the root |
| Context.DataFilesContext | install.py:122-125 | the loop filling the dict gives the data-files context |
| Context.SplitItem | install.py:257 | `item.split(":", 1)` splits at the first colon, and an item without a colon cannot be unpacked (ValueError) |
| Context.SplitItemJoin | install.py:257 | a namespace without a colon and a name, joined by `:`, split back into the two |
| Context.CondaGetItem | install.py:256-265 | a conda lookup that succeeds gives a string |
| Context.CondaNamespaces | install.py:256-265 | `env:` reads the environment (KeyError when absent), `which:` searches `<env>/bin` before PATH and raises ValueError when nothing is found, any other namespace raises KeyError for the whole item |
| Context.CondaForeignNamespace | install.py:265 | the conda layer answers no namespace other than `env` and `which` |
| Context.ParseEnv | install.py:395-397 | parsing the `env` output succeeds exactly when every line has an `=`, and otherwise fails on a line without one |
| Context.ParseEnvLines | install.py:395-397 | parsing the `env` output fails only on a line without `=` |
| Context.ParseEnvFails | install.py:395-397 | parsing succeeds exactly when every line has an `=`, and otherwise fails on the first line without one |
| Context.ParseEnvLastWins | install.py:395-397 | a key of the parsed dict comes from some line, and the last line with a given key decides its value |
| Context.Which | install.py:399-413 | `get_which` succeeds exactly when `which` exits with status 0, and then gives its stripped output |
| Context.EnvVar | install.py:381-384 | `get_env_var` gives the parsed value of the name, and raises KeyError exactly when the output parses and lacks the name |
| Context.DockerGetItem | install.py:373-379 | a docker lookup that succeeds gives a string |
| Context.DockerForeignNamespace | install.py:379 | the docker layer answers no namespace other than `env` and `which` |
| Context.DockerEnvContextMap.PopulateEnvVars | install.py:386-397 | `_populate_env_vars` runs `env` once more and stores the parsed dict only when every line parses |
| Context.DockerEnvContextMap.GetEnvVar | install.py:381-384 | `get_env_var` answers as the specification says, and runs `env` only while nothing is cached |
| Context.DockerEnvContextMap.GetItem | install.py:373-379 | `__getitem__` answers as `DockerGetItem` says whatever the cache holds; only an `env:` lookup on an empty cache runs `env`, once, and keeps its parsed output when every line parses; every other lookup leaves the cache and the run count as they were |
| Context.VarsMapKeys | install.py:315-318 | every key of the `var` layer is `var:` followed by a key of `vars` |
| Context.BaseLayers | install.py:312-314 | the base chain has three layers: environment, local paths, runtime paths |
| Context.InstallContext | install.py:312-319 | the context of `install_service` has the `var` layer in front of the base chain |
| Context.VarsOnTop | install.py:312-319 | the `var` layer answers first for its keys, and every other key is answered as the base chain answers it |
| Context.VarsCannotReferToVars | install.py:315-318 | `vars` are interpolated against the base chain only, so a `var:` placeholder inside `vars` is never found |
| Context.LocalPathLookup | install.py:305-314 | a copied directory's `local-path:` key gives its destination under the data directory, unless the environment layer answers first |
| Context.RuntimePathLookup | install.py:308-314 | a copied directory's `runtime-path:` key gives its destination under the runtime root, unless the environment layer answers first |
| Context.RuntimeNotLocal | install.py:129-133 | no `runtime-path:` key is a `local-path:` key |
| Context.DockerOtherKey | install.py:379 | the docker layer lets a namespace other than `env` and `which` through to the next layer |
| Context.DockerPathKeys | install.py:373-379 | the docker layer lets both data-path namespaces through |
| Context.DockerRuntimePath | install.py:438-444 | inside the container, a copied directory is found under `/data` |
| Installer.Splat | install.py:218 | `[*v]` splats a string into its characters, a list into its items and a mapping into its keys, and fails on any other value |
| Installer.PrependCommand | install.py:218 | the new command is the prefix followed by the old command's items; every other key keeps its value and the key order is kept; a config without `command` or with a scalar one fails |
| Installer.CopyServiceFile | install.py:215-222 | a rendered service has a list command that starts with the prefix |
| Installer.PlainTemplate | install.py:216-218 | a template without placeholders only has its command prefixed |
| Installer.ListCommandKept | install.py:218 | a list command keeps its own items after the prefix, in order |
| Installer.BaseName | install.py:286 | the suffix is cut off by length only: the base name is a prefix of the file name, empty when the name is shorter than the suffix |
| Installer.BaseNameOf | install.py:286 | cutting a suffix off a name that ends in it gives the base back |
| Installer.ServiceTemplateName | install.py:323 | the service template's name starts with the base name and cutting `.service.yaml` off gives the base name back |
| Installer.CondaPrefix | install.py:321 | the conda prefix is four items, the executable first and the environment path last |
| Installer.MountArgs | install.py:451-457 | two arguments per copied directory: `--mount` and the bind spec from its destination |
| Installer.DockerVars | install.py:462 | exactly the `DOCKER_*` variables of the environment, as `name=value` |
| Installer.DockerVarsOrder | install.py:462 | the variables keep the environment's order: the variables of two parts of the environment are those of the first part, then those of the second |
| Installer.ExeValue | install.py:460 | a found `env` executable is its path; a missing one is a null |
| Installer.DockerPrefix | install.py:459-467 | the docker prefix is `env`, the `DOCKER_*` variables, `bash`, the wrapper script, the mount arguments and the image last |
| Installer.ImageBeforeCommand | install.py:459-473 | in the rendered docker service, the image comes right before the template's own command |
| Installer.FullTag | install.py:502 | `name:tag` when a non-empty tag is given, and the bare name otherwise |
| Installer.AfterLastColon | install.py:502 | the text after the last colon, present exactly when the text has a colon |
| Installer.FullTagRoundTrip | install.py:502 | a tag without a colon is read back from the full tag, whatever colons the image name holds |
| Installer.PlatformOptions | install.py:504-505 | `--platform` and the platform exactly when a non-empty platform is given |
| Installer.PullArgs | install.py:521-533 | `docker image pull`, the platform options, `--quiet` and the full tag last |
| Installer.BuildArgs | install.py:499-515 | `docker buildx build --tag <full tag>`, the platform options, then `--file`, the Dockerfile and its directory |
| Installer.TextOf | install.py:479-494 | a loaded value used as a name: a string as it is, another scalar by its text, a list or mapping is rejected |
| Installer.Index | install.py:484-491 | `m[key]` succeeds exactly on a mapping holding the key, and otherwise fails with the matching error |
| Installer.OptionalText | install.py:485-493 | `m.get(key)` is None when the key is absent; a name it gives is the key's text |
| Installer.MakeImage | install.py:476-495 | a string `pull` is pulled as it is; a `pull` mapping is pulled with its `image`, `tag` and `platform`, and fails exactly when one of them does; `build` is used only without `pull`, needs a string `dockerfile`, which is joined under the source root, and takes its `image`, `tag` and `platform` the same way; neither is a ValueError |
| Installer.MakeImageName | install.py:499-501 | an invalid image configuration passes its error on; otherwise the name is the full tag of the request, and it fails, with FileNotFoundError naming the Dockerfile, exactly when the request is a build whose Dockerfile is missing |
| Installer.FirstTruthy | install.py:354 | the first candidate that is present and non-empty, and None exactly when there is none |
| Installer.DetectCondaExe | install.py:352-364 | a detected executable is never empty |
| Installer.MambaExeFirst | install.py:360 | a non-empty `MAMBA_EXE` always wins |
| Installer.CondaExeFromPath | install.py:359-364 | without either variable, the path is searched for micromamba, then mamba, then conda |
| Installer.CondaExe | install.py:269-272 | a given executable gives what the path lookup finds for it, and is an error exactly when that lookup finds nothing; without one, the result is the detected executable, and an error exactly when none is detected; every failure is FileNotFoundError |
| Installer.DockerExe | install.py:417-420 | the docker executable is found on the path, or the installer fails |
| Installer.RuleOfValue | install.py:149-152 | a rule that is not a mapping raises the not-iterable error; a mapping loads exactly when all its patterns are strings, into the same key-pattern pairs in order, and otherwise raises the not-text error |
| Installer.RuleEntries | install.py:149-152 | the entries load exactly when every pattern is a string, into the same key-pattern pairs in order; otherwise the not-text error |
| Installer.FilesRules | install.py:303 | `config.get("files", [])`: no rules when the key is absent or its value is falsy (which `find_data_dirs` replaces by the implicit rule), a list loads exactly when each of its items loads as a rule, and then gives those rules in order; any other value is the not-iterable error |
| Installer.RulesOfItems | install.py:303 | the items load exactly when each one loads as a rule, into those rules in order; on failure, the error is that of the first item that does not load |
| Installer.VarsOf | install.py:317 | `config.get("vars", {})`: empty when absent, the mapping itself otherwise |
| Installer.LiftLookup | install.py:312-319 | a context error is reported as an installer error |
| Installer.CondaService | install.py:311-327 | rendering fails when `vars` is not a mapping; a rendered service has a list command that starts with `<conda> run -p <env>` |
| Installer.DockerService | install.py:441-473 | rendering fails when `vars` is not a mapping; a rendered service has a list command that starts with the docker prefix for the copied directories and the image |
| Installer.CondaInstallService | install.py:275-327 | `CondaInstaller.install_service` reports a bad `files` list or a bad rule before copying, copies the found directories under `data/<base>`, and renders the service with the conda prefix |
| Installer.DockerInstallService | install.py:422-473 | `DockerInstaller.install_service` makes the image first, so a bad image configuration fails before anything is copied; then it copies and renders the service with the docker prefix |
| JalviewFormat.AnnotationHeaderPrinted | services/jronn-3.1b/scripts/jalview_parser.py:36 | the annotation header is `JALVIEW_ANNOTATION` and an empty line, neither holding a newline of its own |
| JalviewFormat.WriteAnnotationHeader | services/jronn-3.1b/scripts/jalview_parser.py:36 | `file.write('JALVIEW_ANNOTATION\n\n')` appends exactly the header lines to the file |
| JalviewFormat.TypeName | services/jronn-3.1b/scripts/jalview_parser.py:8-11 | a graph type's name is a non-empty cell |
| JalviewFormat.Pairs | services/jronn-3.1b/scripts/jalview_parser.py:47 | every value is rendered `v,v`, one per value, in order |
| JalviewFormat.AnnotationRowLines | services/jronn-3.1b/scripts/jalview_parser.py:42-57 | the row comes first; a graph other than a line graph prints only the row; a line graph adds the `GRAPHLINE` line and the `COLOUR` line exactly when each is given |
| JalviewFormat.PrintAnnotationRow | services/jronn-3.1b/scripts/jalview_parser.py:42-57 | `print_annotation_row` appends exactly those lines, each with its newline |
| JalviewFormat.ValuesDecode | services/jronn-3.1b/scripts/jalview_parser.py:47 | when no value holds `\|` or `,`, the values column splits back into the `v,v` pairs and each pair into its value twice |
| JalviewFormat.RowDecode | services/jronn-3.1b/scripts/jalview_parser.py:43-48 | a row whose texts hold no tab or newline splits back at its tabs into type, label, description and values |
| JalviewFormat.BarGraphOneLine | services/jronn-3.1b/scripts/jalview_parser.py:49-57 | a bar graph row is exactly one line of the file |
| JalviewFormat.RowExcludesNewline | services/jronn-3.1b/scripts/jalview_parser.py:43-48 | a row built from newline-free texts holds no newline |
| JalviewFormat.FeatureFields | services/disembl-1.4/scripts/jalview_parser.py:124-126 | the fields printed are the feature's six fields in order, and the score last only when it is not None |
| JalviewFormat.PrintFeatureRow | services/disembl-1.4/scripts/jalview_parser.py:124-126 | `print_feature_row` appends the tab-joined row and a newline |
| JalviewFormat.FeatureDecode | services/disembl-1.4/scripts/jalview_parser.py:124-126 | a feature row splits back at its tabs into exactly the printed fields, and holds no newline |
| Streams.Sink.Write | services/jronn-3.1b/scripts/jalview_parser.py:36 | `file.write(s)` appends `s` |
| Streams.Sink.Print | services/jronn-3.1b/scripts/jalview_parser.py:49 | `print(s, file=file)` appends `s` and a newline |
| Streams.LineReader.ReadLine | services/disembl-1.4/scripts/jalview_parser.py:32 | `readline()` gives the next line and advances, or `""` once the file is exhausted |
| Streams.LineReader.Next | services/globplot-2.3/scripts/jalview_parser.py:35-39 | `next(file)` gives the next line and advances, or fails (StopIteration) once the file is exhausted |
| Streams.PrintedAppend | services/jronn-3.1b/scripts/jalview_parser.py:49 | printing two groups of lines is printing the first group, then the second |
| Streams.PrintedLines | services/jronn-3.1b/scripts/jalview_parser.py:49 | printed lines that hold no newline read back as the same lines, each terminated |
| Streams.PrintedFour | services/globplot-2.3/scripts/jalview_parser.py:88-92 | printing four lines is writing each of them followed by a newline, as the one header literal spells them |
| Streams.PrintedFive | services/disembl-1.4/scripts/jalview_parser.py:98-103 | printing five lines is writing each of them followed by a newline, as the one header literal spells them |
| OrderedMaps.MapKeys | services/jronn-3.1b/scripts/jalview_parser.py:26 | the keys of an ordered dict, in order |
| OrderedMaps.Get | install.py:294 | `d.get(key)` is None exactly when the key is absent, and otherwise a value stored under the key |
| OrderedMaps.PutOrder | services/jronn-3.1b/scripts/jalview_parser.py:30 | assigning to an existing key keeps its place; a new key goes at the end |
| OrderedMaps.PutGet | services/jronn-3.1b/scripts/jalview_parser.py:30 | after `d[key] = v`, the key has the new value and every other key its old one |
| OrderedMaps.PutKeys | services/jronn-3.1b/scripts/jalview_parser.py:30 | after an assignment the key is present, and so is every key that was |
| OrderedMaps.PutDistinct | services/jronn-3.1b/scripts/jalview_parser.py:30 | assignment keeps the keys distinct |
| Text.Find | services/disembl-1.4/scripts/jalview_parser.py:43 | a position found is an occurrence of the separator |
| Text.FindFirst | services/disembl-1.4/scripts/jalview_parser.py:43 | the search gives the first occurrence, and nothing only when there is none |
| Text.Split | services/disembl-1.4/scripts/jalview_parser.py:43 | `s.split(sep)` always gives at least one piece |
| Text.JoinSplit | services/disembl-1.4/scripts/jalview_parser.py:43 | joining the pieces of `s.split(sep)` with `sep` gives `s` back |
| Text.SplitJoin | services/jronn-3.1b/scripts/jalview_parser.py:47 | splitting a join gives back the parts when no part holds the separator's first character |
| Text.SplitWhitespace | services/jronn-3.1b/scripts/jalview_parser.py:30 | `s.split()` gives non-empty words without whitespace |
| Text.SplitLeadingSpaces | services/rnaalifold-2.6.4/scripts/jalview_parser.py:81 | `split()` ignores leading whitespace |
| Text.SplitWhitespaceSpaced | services/rnaalifold-2.6.4/scripts/jalview_parser.py:81 | words padded by any non-empty runs of whitespace, after any leading whitespace, split back into the words |
| Text.SplitWhitespaceJoin | services/jronn-3.1b/scripts/jalview_parser.py:30 | words separated by single spaces split back into the words, whatever whitespace ends the text |
| Text.SplitWhitespaceExcludes | services/jronn-3.1b/scripts/jalview_parser.py:30 | a character the text does not hold is in none of its words |
| Text.TrimEnd | services/disembl-1.4/scripts/jalview_parser.py:37 | the trimmed text is a prefix that ends in a non-space, and only whitespace was cut |
| Text.Strip | install.py:413 | `s.strip()` neither starts nor ends with whitespace |
| Text.SplitFirstWord | services/rnaalifold-2.6.4/scripts/jalview_parser.py:40 | `s.split(None, 1)` gives at most two non-empty parts, the first without whitespace |
| Text.Lines | services/jronn-3.1b/scripts/jalview_parser.py:27 | the lines of a file each hold one newline at most, at their end, and only the last may lack it |
| Text.LinesConcat | services/jronn-3.1b/scripts/jalview_parser.py:27 | the lines written back one after the other give the file |
| Text.ConcatLines | services/jronn-3.1b/scripts/jalview_parser.py:27 | lines that each end with their only newline are exactly the lines of the text they make up |
| Text.LinesAppend | services/jronn-3.1b/scripts/jalview_parser.py:27 | a text that ends with a newline splits into lines independently of what follows it |
| Text.SplitLines | install.py:396 | `s.splitlines()` gives lines without line breaks |
| Text.SplitJoinLines | install.py:396 | lines written out with a newline after each split back into the same lines |
| Text.ParseInt | services/rnaalifold-2.6.4/scripts/jalview_parser.py:87 | `int(s)` never accepts the empty text |
| Text.ParsePrintedInt | services/rnaalifold-2.6.4/scripts/jalview_parser.py:87 | `int` of a printed integer gives it back |
| PredictorText.HeaderName | services/disembl-1.4/scripts/jalview_parser.py:37 | the name a `>` header yields is non-empty, holds no newline and does not end in whitespace |
| PredictorText.HeaderRoundTrip | services/disembl-1.4/scripts/jalview_parser.py:37 | a header written `>`, at most one space, the name and trailing whitespace yields exactly the name |
| PredictorText.TrimEndSpaces | services/disembl-1.4/scripts/jalview_parser.py:37 | the trailing `\s*` is given up to the greedy `(.*\S)` only as whitespace, so a name followed by whitespace is the name |
| PredictorText.ScanItem | services/disembl-1.4/scripts/jalview_parser.py:41 | one repetition of `\d+-\d+(?:, )?` is two digit runs, and consumes at least one character of the text |
| PredictorText.ScanItemText | services/disembl-1.4/scripts/jalview_parser.py:41 | the repetition spells out exactly the text it consumed |
| PredictorText.ScanItemWritten | services/disembl-1.4/scripts/jalview_parser.py:41 | a written `a-b` followed by something that does not continue the number is read as the pair, with its `, ` when one follows |
| PredictorText.ScanRanges | services/disembl-1.4/scripts/jalview_parser.py:41 | the captured ranges are well-formed pairs, each but the last followed by `, ` |
| PredictorText.ScanPrefix | services/disembl-1.4/scripts/jalview_parser.py:41 | the group text is a prefix of what follows the label |
| PredictorText.RangeGroup | services/disembl-1.4/scripts/jalview_parser.py:41 | group 2 is a prefix of the text after the label and its whitespace |
| PredictorText.ParseRanges | services/disembl-1.4/scripts/jalview_parser.py:43 | an empty group gives no ranges |
| PredictorText.ItemRegions | services/disembl-1.4/scripts/jalview_parser.py:43 | one region per pair, and one more when the list ends with `, ` |
| PredictorText.Pieces | services/disembl-1.4/scripts/jalview_parser.py:43 | `split(', ')` gives one piece per pair, and an empty one more when the list ends with `, ` |
| PredictorText.GroupJoin | services/disembl-1.4/scripts/jalview_parser.py:43 | the group text is the pieces joined by `, ` |
| PredictorText.ParseScanned | services/disembl-1.4/scripts/jalview_parser.py:41-43 | `split(', ')` and `split('-')` turn the scanned group into its pairs in order, plus a region `("",)` when the group ends with `, ` |
| PredictorText.PieceSplit | services/disembl-1.4/scripts/jalview_parser.py:43 | `a-b` splits at its dash into the two numbers |
| PredictorText.SplitPieces | services/disembl-1.4/scripts/jalview_parser.py:43 | splitting every piece at its dash gives the regions of the scan |
| PredictorText.PairItems | services/disembl-1.4/scripts/jalview_parser.py:41 | a written list of pairs is scanned into one item per pair |
| PredictorText.ScanWritten | services/disembl-1.4/scripts/jalview_parser.py:41 | scanning a written region list, followed by anything that neither continues a number nor starts `, `, takes exactly the written regions |
| PredictorText.RangesRoundTrip | services/disembl-1.4/scripts/jalview_parser.py:41-43 | a written region list reads back as the same pairs |
| PredictorText.LabelledRanges | services/disembl-1.4/scripts/jalview_parser.py:41 | a labelled line is at least `# `, the label and something more |
| PredictorText.LabelledAfter | services/disembl-1.4/scripts/jalview_parser.py:41 | after `# ` and the label, the whitespace is skipped and group 2 is read from what follows |
| PredictorText.LabelledRegions | services/disembl-1.4/scripts/jalview_parser.py:41-43 | the regions of a labelled line are digit pairs, except possibly a last region `("",)` left by a list that ends with `, ` |
| PredictorText.LabelledMismatch | services/disembl-1.4/scripts/jalview_parser.py:41 | a line that differs from the label does not carry it |
| PredictorText.PairRegions | services/disembl-1.4/scripts/jalview_parser.py:43 | one region per pair |
| PredictorText.LabelledRoundTrip | services/disembl-1.4/scripts/jalview_parser.py:41-43 | a labelled line written from well-formed pairs yields those pairs |
| PredictorText.Then | services/disembl-1.4/scripts/jalview_parser.py:108-121 | one part of the output after another, and nothing printed after a failure |
| PredictorText.ThenAssoc | services/disembl-1.4/scripts/jalview_parser.py:108-121 | sequencing output parts is associative |
| PredictorText.RegionRow | services/disembl-1.4/scripts/jalview_parser.py:110-119 | the row for a region is printed exactly when the region has a start and an end (otherwise `region[1]` raises IndexError) |
| PredictorText.FirstShort | services/disembl-1.4/scripts/jalview_parser.py:109-119 | the first region with fewer than two parts, every one before it having two |
| PredictorText.RowsBefore | services/disembl-1.4/scripts/jalview_parser.py:109-119 | one row per region before the first short one |
| PredictorText.RegionRowsShape | services/disembl-1.4/scripts/jalview_parser.py:109-119 | the loop prints one row per region up to the first region that is too short and fails there; it gets through exactly when every region has two parts |
| PredictorText.RegionRowsFail | services/disembl-1.4/scripts/jalview_parser.py:109-119 | a failing region leaves the rest of the group unprinted |
| PredictorText.PrintRegions | services/disembl-1.4/scripts/jalview_parser.py:109-119 | the `for region in group` loop appends exactly the rows of the specification and reports whether it got through |
| PredictorText.ScoreBlock | services/disembl-1.4/scripts/jalview_parser.py:63-75 | each sequence contributes five lines |
| PredictorText.ScoreBlocks | services/disembl-1.4/scripts/jalview_parser.py:62-75 | five lines per sequence |
| PredictorText.ScoreFileLines | services/disembl-1.4/scripts/jalview_parser.py:59-75 | the annotation file is the two header lines and five lines per sequence |
| PredictorText.ScoreBlocksSnoc | services/disembl-1.4/scripts/jalview_parser.py:62-75 | one more sequence adds its block at the end |
| PredictorText.PrintScoreFile | services/disembl-1.4/scripts/jalview_parser.py:59-75 | `print_annotations_file` writes exactly the specification's lines |
| PredictorText.PrintScoreBlock | services/disembl-1.4/scripts/jalview_parser.py:63-75 | one round of the loop writes the sequence's five lines |
| PredictorText.FeatureFileLines | services/disembl-1.4/scripts/jalview_parser.py:96-121 | the features file is the header, then the rows of the sequences and `ENDGROUP`, stopping at a failure |
| PredictorText.GroupsFail | services/disembl-1.4/scripts/jalview_parser.py:108-119 | a failing group leaves the later groups unprinted |
| PredictorText.BlocksFail | services/disembl-1.4/scripts/jalview_parser.py:104-120 | a failing sequence leaves the later sequences unprinted |
| PredictorText.PrintSequenceRows | services/disembl-1.4/scripts/jalview_parser.py:105-120 | one round of the loop over sequences writes the rows of each group, then the blank line when the layout has one |
| PredictorText.PrintFeatureBlocks | services/disembl-1.4/scripts/jalview_parser.py:104-121 | the loop over sequences and the `ENDGROUP` line write exactly the specification's lines |
| PredictorText.ScoreFileHeader | services/disembl-1.4/scripts/jalview_parser.py:61 | the annotation file starts with the annotation header |
| PredictorText.ScoreFileDecode | services/disembl-1.4/scripts/jalview_parser.py:62-75 | sequence `i`'s block is its `SEQUENCE_REF` line, a `LINE_GRAPH` row splitting back into its four columns, the `GRAPHLINE` line, the `COLOUR` line and a blank line |
| PredictorText.ScoreLinesAt | services/disembl-1.4/scripts/jalview_parser.py:62-75 | line `2 + 5i + k` of the file is line `k` of sequence `i`'s block |
| PredictorText.GroupLinesSnoc | services/disembl-1.4/scripts/jalview_parser.py:108-119 | one more group adds its rows at the end |
| PredictorText.BlockLinesSnoc | services/disembl-1.4/scripts/jalview_parser.py:104-120 | one more sequence adds its rows, and the blank line when the layout has one, at the end |
| PredictorText.GroupsRowsSpec | services/disembl-1.4/scripts/jalview_parser.py:108-119 | the region rows get through exactly when every region has a start and an end, and then hold one row per region, group by group, in order |
| PredictorText.FeatureBlocksSpec | services/disembl-1.4/scripts/jalview_parser.py:104-120 | the same holds for the loop over the sequences |
| PredictorText.FeatureFileSpec | services/disembl-1.4/scripts/jalview_parser.py:96-121 | the features file gets through exactly when every region is a pair, and is then the header, the rows of every sequence and `ENDGROUP` |
| Jronn.RunAppend | services/jronn-3.1b/scripts/jalview_parser.py:29 | the value-group automaton reads a concatenation one part after the other |
| Jronn.NumberRun | services/jronn-3.1b/scripts/jalview_parser.py:29 | a number `-?\d+\.\d+` read at the start of a repetition leaves the automaton in a fraction state, where the group may end |
| Jronn.FractionRun | services/jronn-3.1b/scripts/jalview_parser.py:29 | the fraction digits after the dot leave the automaton where the group may end |
| Jronn.RunChars | services/jronn-3.1b/scripts/jalview_parser.py:29 | once the automaton fails it stays failed, so any other end state means every character read is one a value group can hold |
| Jronn.ParseLine | services/jronn-3.1b/scripts/jalview_parser.py:29-30 | the name of a matching line is a non-empty run of word characters |
| Jronn.JoinedNumbersRun | services/jronn-3.1b/scripts/jalview_parser.py:29 | numbers separated by single spaces match the value group |
| Jronn.NumberNonEmpty | services/jronn-3.1b/scripts/jalview_parser.py:29-30 | a number is non-empty and holds no whitespace, so `split()` keeps it whole |
| Jronn.ParseLineShape | services/jronn-3.1b/scripts/jalview_parser.py:29-30 | a line `#name g` with a word as its name yields the name and `g.split()` exactly when `g` matches the value group |
| Jronn.LineRoundTrip | services/jronn-3.1b/scripts/jalview_parser.py:29-30 | a line written `#name v1 v2 …` from well-formed numbers yields the name and the values in order |
| Jronn.ParsedLineCells | services/jronn-3.1b/scripts/jalview_parser.py:29-30 | what a matching line yields fits an annotation row: the name and every value hold no tab or newline, and the values hold no `\|` or `,` |
| Jronn.ChunksCells | services/jronn-3.1b/scripts/jalview_parser.py:30 | the words of a matched value group hold no tab, newline, `\|` or `,` |
| Jronn.Classify | services/jronn-3.1b/scripts/jalview_parser.py:28-30 | a line is blank exactly when it is `\n`; otherwise it is an entry when the pattern matches, with the name and values the pattern gives, and unmatched when it does not |
| Jronn.Kinds | services/jronn-3.1b/scripts/jalview_parser.py:27 | one kind per line |
| Jronn.ReadAnnotations | services/jronn-3.1b/scripts/jalview_parser.py:25-31 | the loop over the lines still to be read gives the specification's result for them |
| Jronn.ReadLines | services/jronn-3.1b/scripts/jalview_parser.py:25-31 | `read_annotations` fails exactly when some line is neither blank nor a match of the pattern, and then on the first such line; otherwise no method appears twice |
| Jronn.KindsBad | services/jronn-3.1b/scripts/jalview_parser.py:27-29 | a line is classified as unmatched exactly when it is neither blank nor a match, and then carries its own text |
| Jronn.LoopStep | services/jronn-3.1b/scripts/jalview_parser.py:26-30 | one round of the loop: a blank line changes nothing, an unmatched line makes the whole read fail on it, and a matching line assigns its method |
| Jronn.CollectStep | services/jronn-3.1b/scripts/jalview_parser.py:26-30 | the dictionary after one more line is the one before it, unchanged for a blank line, failed for an unmatched one, and assigned for a match |
| Jronn.ErrorStays | services/jronn-3.1b/scripts/jalview_parser.py:29-30 | once a prefix of the file fails, the whole file fails the same way |
| Jronn.KindOf | services/jronn-3.1b/scripts/jalview_parser.py:28-30 | a line is unmatched exactly when it is not blank and the pattern fails on it, and it names a method exactly when the pattern gives that name |
| Jronn.ReadFailsIff | services/jronn-3.1b/scripts/jalview_parser.py:29-30 | reading fails exactly when some non-blank line does not match, and then on the first such line |
| Jronn.LastValuesSpec | services/jronn-3.1b/scripts/jalview_parser.py:30 | the last values of a method exist exactly when some line names it, and are those of the last such line |
| Jronn.ReadLastWins | services/jronn-3.1b/scripts/jalview_parser.py:30 | after a successful read, each method maps to the values of its last line, and a name no line carries is absent |
| Jronn.PrefixNames | services/jronn-3.1b/scripts/jalview_parser.py:27 | the lines of a prefix name what the same lines of the whole file name |
| Jronn.CollectLast | services/jronn-3.1b/scripts/jalview_parser.py:27-30 | the last line of a successful read assigns its method (a new method going at the end), and a blank line changes nothing |
| Jronn.FirstLine | services/jronn-3.1b/scripts/jalview_parser.py:26 | the first line naming a method |
| Jronn.ReadKeysDistinct | services/jronn-3.1b/scripts/jalview_parser.py:26 | the methods of a successful read are distinct |
| Jronn.KeysNamed | services/jronn-3.1b/scripts/jalview_parser.py:26-30 | every method of a successful read is named on some line |
| Jronn.NamedKeys | services/jronn-3.1b/scripts/jalview_parser.py:26-30 | every name on a matching line is a method of a successful read |
| Jronn.ReadKeysOrder | services/jronn-3.1b/scripts/jalview_parser.py:26 | the methods of a successful read come in the order of their first lines |
| Jronn.AnnotationRows | services/jronn-3.1b/scripts/jalview_parser.py:37-39 | one row per method |
| Jronn.PrintAnnotationsFile | services/jronn-3.1b/scripts/jalview_parser.py:34-39 | `print_annotations_file` writes exactly the header and the rows |
| Jronn.AnnotationFileLines | services/jronn-3.1b/scripts/jalview_parser.py:36-39 | the annotation file is the header and one line per method |
| Jronn.KindsCells | services/jronn-3.1b/scripts/jalview_parser.py:29-30 | every entry of every line fits a row |
| Jronn.ReadCells | services/jronn-3.1b/scripts/jalview_parser.py:25-31 | every entry of a successful read fits a row |
| Jronn.PutEntries | services/jronn-3.1b/scripts/jalview_parser.py:30 | every entry after an assignment is the new one or an old one |
| Jronn.WrittenRows | services/jronn-3.1b/scripts/jalview_parser.py:25-49 | the file written from a successful read reads back as its lines, and line `i + 2` splits at its tabs into `BAR_GRAPH`, the method twice and the `v,v` pairs of its values |
| Disembl.Assign | services/disembl-1.4/scripts/jalview_parser.py:40-46 | a region line replaces the regions of its own category and leaves the other two and the scores as they were |
| Disembl.RangeLine | services/disembl-1.4/scripts/jalview_parser.py:41-43 | an empty string, which `readline` returns at the end of the file, is not a region line |
| Disembl.Chomp | services/disembl-1.4/scripts/jalview_parser.py:41 | `$` leaves off at most the final newline |
| Disembl.DataValue | services/disembl-1.4/scripts/jalview_parser.py:51-53 | an empty string is not a score row |
| Disembl.RangesFrom | services/disembl-1.4/scripts/jalview_parser.py:39-46 | the region loop ends at the end of the file or on the first line that is not a region line, and leaves the scores alone |
| Disembl.DataFrom | services/disembl-1.4/scripts/jalview_parser.py:48-54 | the score loop ends at the end of the file or on the first line that is not a row, appending one value per row it read |
| Disembl.BlockAt | services/disembl-1.4/scripts/jalview_parser.py:37-54 | a block that reads ends after its header, within the file |
| Disembl.ReadFile | services/disembl-1.4/scripts/jalview_parser.py:29-56 | the method over a line reader gives the specification's result for the lines still to be read |
| Disembl.ReadFrom | services/disembl-1.4/scripts/jalview_parser.py:29-56 | what `read_file` returns is a dictionary: no sequence name appears twice |
| Disembl.BlocksDistinct | services/disembl-1.4/scripts/jalview_parser.py:31-55 | storing block after block into a dictionary keeps its sequence names distinct |
| Disembl.BlockThenDistinct | services/disembl-1.4/scripts/jalview_parser.py:35-55 | storing one block and then the blocks after it keeps the sequence names distinct |
| Disembl.ReadBlock | services/disembl-1.4/scripts/jalview_parser.py:37-54 | one round of the outer loop: the error of the block, or its name and record, with the reader after its last row and the next line in hand |
| Disembl.ReadRegions | services/disembl-1.4/scripts/jalview_parser.py:39-46 | the region loop gives the record of the specification and the first line that is not a region line |
| Disembl.RangesGo | services/disembl-1.4/scripts/jalview_parser.py:40-45 | a region line assigns its regions and the loop goes on |
| Disembl.RangesEnd | services/disembl-1.4/scripts/jalview_parser.py:44-46 | the loop stops at a line that is not a region line |
| Disembl.ReadRows | services/disembl-1.4/scripts/jalview_parser.py:48-54 | the row loop gives the REM465 scores of the specification and the first line that is not a row |
| Disembl.DataGo | services/disembl-1.4/scripts/jalview_parser.py:52-54 | a row appends its REM465 score and the loop goes on |
| Disembl.DataEnd | services/disembl-1.4/scripts/jalview_parser.py:50-51 | the loop stops at a line that is not a row |
| Disembl.DataFields | services/disembl-1.4/scripts/jalview_parser.py:51-53 | `line.split()` on a row has four fields, and its third is the REM465 score |
| Disembl.DataParts | services/disembl-1.4/scripts/jalview_parser.py:51 | a row is a residue and three decimals separated by tabs, followed by at most a newline |
| Disembl.RowWords | services/disembl-1.4/scripts/jalview_parser.py:52 | such a row splits at its whitespace into the residue and the three decimals |
| Disembl.RangesLastWins | services/disembl-1.4/scripts/jalview_parser.py:40-45 | each category holds the regions of the last line naming it, and a category no line names keeps what it had |
| Disembl.RangeLineRegions | services/disembl-1.4/scripts/jalview_parser.py:41-43 | the regions of a region line are pairs of digit strings, except possibly a last one holding only an empty string |
| Disembl.MissingColumns | services/disembl-1.4/scripts/jalview_parser.py:47 | a header not followed, after its region lines, by the column header fails the assertion |
| Disembl.WrittenBlock | services/disembl-1.4/scripts/jalview_parser.py:37-54 | a block of the predictor's output has five lines and its rows |
| Disembl.RowLineData | services/disembl-1.4/scripts/jalview_parser.py:51-53 | a written row gives back its REM465 score |
| Disembl.CoilsLineWritten | services/disembl-1.4/scripts/jalview_parser.py:41-43 | a written COILS line gives back its regions |
| Disembl.Rem465LineWritten | services/disembl-1.4/scripts/jalview_parser.py:41-43 | a written REM465 line gives back its regions |
| Disembl.HotloopsLineWritten | services/disembl-1.4/scripts/jalview_parser.py:41-43 | a written HOTLOOPS line gives back its regions |
| Disembl.ColumnsNotRanges | services/disembl-1.4/scripts/jalview_parser.py:44-47 | the column header ends the region loop |
| Disembl.HeaderLine | services/disembl-1.4/scripts/jalview_parser.py:37 | a written header line gives back its name |
| Disembl.HeaderNotData | services/disembl-1.4/scripts/jalview_parser.py:50-51 | a header ends the row loop |
| Disembl.RegionsRead | services/disembl-1.4/scripts/jalview_parser.py:39-46 | the three written region lines and the column header leave each category's regions |
| Disembl.DataRun | services/disembl-1.4/scripts/jalview_parser.py:48-54 | a run of rows gives their scores and ends where they end |
| Disembl.BlockSeen | services/disembl-1.4/scripts/jalview_parser.py:37-54 | a written block reads back as its record, and the read goes on after its last row |
| Disembl.BlocksSeen | services/disembl-1.4/scripts/jalview_parser.py:31-55 | the outer loop over written blocks stores each under its name, in order |
| Disembl.BlocksSkip | services/disembl-1.4/scripts/jalview_parser.py:35-36 | a blank line between blocks is skipped |
| Disembl.BlocksTake | services/disembl-1.4/scripts/jalview_parser.py:37-55 | a block that reads is stored under its name and the loop goes on after it |
| Disembl.FileRoundTrip | services/disembl-1.4/scripts/jalview_parser.py:29-56 | `read_file` on a whole predictor output file, with or without blank lines between blocks, gives each sequence's record under its name, in the order of the file |
| Disembl.Rem465Scores | services/disembl-1.4/scripts/jalview_parser.py:63-65 | each sequence paired with its REM465 scores |
| Disembl.PrintAnnotationsFile | services/disembl-1.4/scripts/jalview_parser.py:59-75 | writes the score file of the REM465 scores under the constants of lines 66-74 |
| Disembl.WriteFeatureHeader | services/disembl-1.4/scripts/jalview_parser.py:98-103 | writes the feature header |
| Disembl.FeatureGroups | services/disembl-1.4/scripts/jalview_parser.py:105-119 | each sequence paired with its feature groups |
| Disembl.FeaturesComplete | services/disembl-1.4/scripts/jalview_parser.py:96-121 | the feature file is complete exactly when every region of every sequence has two parts, and is then the header, one block per sequence with a blank line after it, and `ENDGROUP` |
| Disembl.PrintFeaturesFile | services/disembl-1.4/scripts/jalview_parser.py:96-126 | writes the lines of the feature file up to the first region of fewer than two parts, and reports whether it got to the end |
| Globplot.Regions | services/globplot-2.3/scripts/jalview_parser.py:35-38 | a region line yields regions exactly when the labelled pattern matches it |
| Globplot.RowsFrom | services/globplot-2.3/scripts/jalview_parser.py:41-44 | the row loop keeps the values before it and ends within the file |
| Globplot.HeadAt | services/globplot-2.3/scripts/jalview_parser.py:34-39 | a block's head reads exactly when the header has a name, the next line is a `GlobDoms` line, the one after it a `Disorder` line, and a fourth line follows to be skipped |
| Globplot.BlockAt | services/globplot-2.3/scripts/jalview_parser.py:34-45 | a block that reads spans at least the header, the two region lines and the skipped line, within the file |
| Globplot.ReadFile | services/globplot-2.3/scripts/jalview_parser.py:29-46 | the method over a line reader gives the specification's result for the lines still to be read |
| Globplot.ReadFrom | services/globplot-2.3/scripts/jalview_parser.py:29-46 | what `read_file` returns is a dictionary: no sequence name appears twice |
| Globplot.BlocksDistinct | services/globplot-2.3/scripts/jalview_parser.py:30-45 | storing block after block into a dictionary keeps its sequence names distinct |
| Globplot.ReadHead | services/globplot-2.3/scripts/jalview_parser.py:34-39 | reading the header, the two region lines and the skipped line gives the head `HeadAt` describes, with the reader at the first row |
| Globplot.ReadBlock | services/globplot-2.3/scripts/jalview_parser.py:34-45 | one round of the outer loop: the error of the block, or its name and record, with the reader after its rows |
| Globplot.ReadRows | services/globplot-2.3/scripts/jalview_parser.py:40-44 | the inner loop gives the rows' dydx values and stops after the blank line, or gives the error of the first row that does not split into four fields |
| Globplot.BlankFrom | services/globplot-2.3/scripts/jalview_parser.py:41-42 | the first blank line at or after a line, or the end of the file |
| Globplot.SecondFields | services/globplot-2.3/scripts/jalview_parser.py:43-44 | the second field of each line of a run |
| Globplot.RowsSpec | services/globplot-2.3/scripts/jalview_parser.py:40-44 | the rows read succeed exactly when every line up to the blank line splits into four fields, and then give their dydx values and go on after the blank line; otherwise the error names the first line that does not |
| Globplot.RowsOk | services/globplot-2.3/scripts/jalview_parser.py:40-44 | the success half of the same |
| Globplot.RowsErr | services/globplot-2.3/scripts/jalview_parser.py:43 | the error half of the same |
| Globplot.BlockRegions | services/globplot-2.3/scripts/jalview_parser.py:35-38 | the domains and disordered regions of a block read are pairs of digit strings, except possibly a last one holding only an empty string |
| Globplot.BlockShape | services/globplot-2.3/scripts/jalview_parser.py:34-38 | a block read takes its name from its header and its regions from the two lines after it |
| Globplot.WrittenBlock | services/globplot-2.3/scripts/jalview_parser.py:34-44 | a block of the predictor's output is four lines and its rows |
| Globplot.RowLines | services/globplot-2.3/scripts/jalview_parser.py:41-44 | one line per row |
| Globplot.Dydx | services/globplot-2.3/scripts/jalview_parser.py:44 | the dydx column of each row |
| Globplot.RowLineFields | services/globplot-2.3/scripts/jalview_parser.py:42-43 | a written row splits back into its four columns and is not a blank line |
| Globplot.HeaderLine | services/globplot-2.3/scripts/jalview_parser.py:32-34 | a written header line gives back its name and is not blank |
| Globplot.DomsLine | services/globplot-2.3/scripts/jalview_parser.py:35-36 | a written `# GlobDoms` line gives back its regions |
| Globplot.DisorderLine | services/globplot-2.3/scripts/jalview_parser.py:37-38 | a written `# Disorder` line gives back its regions |
| Globplot.RowsRun | services/globplot-2.3/scripts/jalview_parser.py:41-44 | a run of rows ended by a blank line or by the end of the file gives their dydx values |
| Globplot.BlockSeen | services/globplot-2.3/scripts/jalview_parser.py:34-45 | what the reader sees in a written block reads back as its record |
| Globplot.BlockRead | services/globplot-2.3/scripts/jalview_parser.py:34-45 | a written block followed by a blank line or the end of the file reads back as its record |
| Globplot.BlocksStep | services/globplot-2.3/scripts/jalview_parser.py:31-45 | a block read is stored under its name and the outer loop goes on after it |
| Globplot.BlocksRead | services/globplot-2.3/scripts/jalview_parser.py:31-45 | whole blocks are stored in order and the read goes on after them |
| Globplot.FirstBlock | services/globplot-2.3/scripts/jalview_parser.py:31-45 | the first of whole blocks reads as its record and the read goes on after its blank line |
| Globplot.ReadAfter | services/globplot-2.3/scripts/jalview_parser.py:29-46 | whole blocks at the start of a file are stored in order, whatever follows |
| Globplot.FileRoundTrip | services/globplot-2.3/scripts/jalview_parser.py:29-46 | `read_file` on a whole predictor output file gives each sequence's record, under its name, in the order of the file |
| Globplot.OpenEndRoundTrip | services/globplot-2.3/scripts/jalview_parser.py:29-46 | the same where the last block ends with the file rather than a blank line |
| Globplot.TruncatedBlock | services/globplot-2.3/scripts/jalview_parser.py:35-39 | a file ending within the three lines after a header raises `StopIteration` |
| Globplot.MissingDomains | services/globplot-2.3/scripts/jalview_parser.py:35 | a block whose `# GlobDoms` line does not match fails on that line |
| Globplot.MissingDisorder | services/globplot-2.3/scripts/jalview_parser.py:37 | a block whose `# Disorder` line does not match fails on that line |
| Globplot.DydxScores | services/globplot-2.3/scripts/jalview_parser.py:52-59 | each sequence paired with its dydx scores |
| Globplot.PrintAnnotationsFile | services/globplot-2.3/scripts/jalview_parser.py:49-83 | writes the score file of the dydx scores under the constants of lines 53-64 |
| Globplot.WriteFeatureHeader | services/globplot-2.3/scripts/jalview_parser.py:88-92 | writes the feature header |
| Globplot.FeatureGroups | services/globplot-2.3/scripts/jalview_parser.py:93-115 | each sequence paired with its domain and disorder features |
| Globplot.FeaturesComplete | services/globplot-2.3/scripts/jalview_parser.py:86-116 | the feature file is complete exactly when every region has two parts, and is then the header, the rows of every sequence with no blank line between them, and `ENDGROUP` |
| Globplot.PrintFeaturesFile | services/globplot-2.3/scripts/jalview_parser.py:86-121 | writes the lines of the feature file up to the first region of fewer than two parts, and reports whether it got to the end |
| Rnaalifold.Header | services/rnaalifold-2.6.4/scripts/jalview_parser.py:35-44 | the first two lines give the stripped alignment and the MFE structure with its energies, and no other structure; the alignment assertion fails exactly when the stripped first line is not a run of `[_\-a-zA-Z]`; after a good alignment, a second line that does not split into two words, whose first word is not a structure, or whose second word does not match the energy pattern gives its own error, and otherwise the MFE pair is the first word and the energies read from the second |
| Rnaalifold.StructRun | services/rnaalifold-2.6.4/scripts/jalview_parser.py:49 | the `structure_pat` match at the start of a line stops before the first character it cannot take |
| Rnaalifold.StructRunIsStructure | services/rnaalifold-2.6.4/scripts/jalview_parser.py:49-51 | a non-empty such match is a structure |
| Rnaalifold.StructRunStops | services/rnaalifold-2.6.4/scripts/jalview_parser.py:49-51 | the match over a structure and a text not starting with a structure character is the structure |
| Rnaalifold.FrequencyScores | services/rnaalifold-2.6.4/scripts/jalview_parser.py:66-71 | a frequency line appends its two numbers to the partition function scores and keeps its structure, and fails exactly when no partition function line came before it |
| Rnaalifold.ReadStructures | services/rnaalifold-2.6.4/scripts/jalview_parser.py:33-72 | the method over a line reader gives the specification's result for the lines still to be read |
| Rnaalifold.ScanLines | services/rnaalifold-2.6.4/scripts/jalview_parser.py:46-72 | the `for line in file` loop gives the specification's result for the lines it scans |
| Rnaalifold.ScanOk | services/rnaalifold-2.6.4/scripts/jalview_parser.py:46-71 | a line accepted moves from the lines to scan to the structures read |
| Rnaalifold.ScanErr | services/rnaalifold-2.6.4/scripts/jalview_parser.py:65 | a line rejected ends the loop with its error |
| Rnaalifold.StructureLineValid | services/rnaalifold-2.6.4/scripts/jalview_parser.py:50-65 | a structure line the loop accepts keeps the alignment and the MFE structure and stores only what its patterns check |
| Rnaalifold.PartitionSetValid | services/rnaalifold-2.6.4/scripts/jalview_parser.py:53-56 | storing a partition function structure with one score keeps the structures well formed |
| Rnaalifold.CentroidSetValid | services/rnaalifold-2.6.4/scripts/jalview_parser.py:57-60 | storing a centroid structure keeps the structures well formed |
| Rnaalifold.MeaSetValid | services/rnaalifold-2.6.4/scripts/jalview_parser.py:61-64 | storing an MEA structure keeps the structures well formed |
| Rnaalifold.FrequencyValid | services/rnaalifold-2.6.4/scripts/jalview_parser.py:66-71 | a frequency line keeps the structures well formed, the alignment and the MFE structure |
| Rnaalifold.StepValid | services/rnaalifold-2.6.4/scripts/jalview_parser.py:47-71 | every line the loop accepts keeps the structures well formed, the alignment and the MFE structure |
| Rnaalifold.ScanValid | services/rnaalifold-2.6.4/scripts/jalview_parser.py:46-72 | so does the whole loop |
| Rnaalifold.ReadStructuresFrom | services/rnaalifold-2.6.4/scripts/jalview_parser.py:33-72 | a first line that is not an alignment is the alignment error, and any error of the first two lines is passed on; whatever `read_structures` returns has the shapes its patterns check, the alignment of its first line and the MFE pair read from its second |
| Rnaalifold.StructureSplit | services/rnaalifold-2.6.4/scripts/jalview_parser.py:49-52 | in a line a structure starts, the match is the structure and the energy text is what follows the character after it |
| Rnaalifold.PartitionLine | services/rnaalifold-2.6.4/scripts/jalview_parser.py:53-56 | a partition function line `structure [e]` stores its structure and energy |
| Rnaalifold.CentroidLine | services/rnaalifold-2.6.4/scripts/jalview_parser.py:57-60 | a centroid line stores its structure, its energies and `d=` with the distance |
| Rnaalifold.MeaLine | services/rnaalifold-2.6.4/scripts/jalview_parser.py:61-64 | an MEA line stores its structure, its energies and `MEA=` with the accuracy |
| Rnaalifold.EnsembleNotTagged | services/rnaalifold-2.6.4/scripts/jalview_parser.py:53-57 | a text starting with `{` is not a partition function energy |
| Rnaalifold.NotCentroid | services/rnaalifold-2.6.4/scripts/jalview_parser.py:57-61 | the energies of an MEA line do not match the centroid pattern |
| Rnaalifold.FrequencyStep | services/rnaalifold-2.6.4/scripts/jalview_parser.py:66-71 | a frequency line does what `FrequencyScores` says |
| Rnaalifold.BlankStep | services/rnaalifold-2.6.4/scripts/jalview_parser.py:47-48 | a blank line changes nothing |
| Rnaalifold.UnrecognisedStep | services/rnaalifold-2.6.4/scripts/jalview_parser.py:65 | a structure line whose energies match none of the three patterns raises the error naming the line |
| Rnaalifold.StepOfStructure | services/rnaalifold-2.6.4/scripts/jalview_parser.py:49-52 | a line a structure starts is handled as a structure line |
| Rnaalifold.Token | services/rnaalifold-2.6.4/scripts/jalview_parser.py:155-157 | `S,c` for a character other than `.`, and `,.` for `.`: a comma and the character at the end |
| Rnaalifold.Tokens | services/rnaalifold-2.6.4/scripts/jalview_parser.py:155-157 | one token per column, in order |
| Rnaalifold.Lasts | services/rnaalifold-2.6.4/scripts/jalview_parser.py:155-158 | the last characters of the tokens |
| Rnaalifold.LastsTokens | services/rnaalifold-2.6.4/scripts/jalview_parser.py:155-157 | the last characters of the tokens are the structure |
| Rnaalifold.StructureToAnnotations | services/rnaalifold-2.6.4/scripts/jalview_parser.py:154-158 | a structure without `\|` reads back from its annotations, the last character of each `\|`-separated token |
| Rnaalifold.JoinedTokensRoundTrip | services/rnaalifold-2.6.4/scripts/jalview_parser.py:154-158 | the column tokens joined by `\|` give back the structure's characters, one per token |
| Rnaalifold.ContactTexts | services/rnaalifold-2.6.4/scripts/jalview_parser.py:118-119 | one tooltip entry per contact, in order |
| Rnaalifold.ContactGraph | services/rnaalifold-2.6.4/scripts/jalview_parser.py:112-123 | the graph loop gives one entry per column, or the error of the first entry that fails |
| Rnaalifold.EntriesFail | services/rnaalifold-2.6.4/scripts/jalview_parser.py:113-123 | an entry that fails makes the whole graph fail with its error |
| Rnaalifold.EntriesShape | services/rnaalifold-2.6.4/scripts/jalview_parser.py:113-123 | with no empty contact list among the columns, the graph has one entry per column, each the entry of its column |
| Rnaalifold.ContactPart | services/rnaalifold-2.6.4/scripts/jalview_parser.py:109-129 | the contact row is written exactly when the partition function structure and the contacts are both there |
| Rnaalifold.AnnotationOutput | services/rnaalifold-2.6.4/scripts/jalview_parser.py:96-151 | the annotation header, the consensus row and the MFE row always come first; an error in the contact row stops the output right after them, and the error is reported exactly when the contact row fails |
| Rnaalifold.PrintAnnotations | services/rnaalifold-2.6.4/scripts/jalview_parser.py:96-151 | the writer writes the lines of the annotation output up to its error, and reports that error |
| Rnaalifold.PrintHead | services/rnaalifold-2.6.4/scripts/jalview_parser.py:97-108 | the header, the consensus row and the MFE row |
| Rnaalifold.ContactLines | services/rnaalifold-2.6.4/scripts/jalview_parser.py:109-129 | the contact graph is built before anything of its row is written |
| Rnaalifold.PrintTrailer | services/rnaalifold-2.6.4/scripts/jalview_parser.py:130-151 | the centroid and MEA rows, the blank line and the row properties |
| Rnaalifold.PrintOpt | services/rnaalifold-2.6.4/scripts/jalview_parser.py:130-143 | a row for a structure only when it is there |
| Rnaalifold.PrintProperties | services/rnaalifold-2.6.4/scripts/jalview_parser.py:145-151 | the row properties |
| Rnaalifold.OutputShape | services/rnaalifold-2.6.4/scripts/jalview_parser.py:96-151 | output without error is the header, the consensus and MFE rows, the contact, centroid and MEA rows each only when their data is there, a blank line, and the row properties of the MFE, centroid and MEA structures present |
| Rnaalifold.ReadContactsPrint | services/rnaalifold-2.6.4/scripts/jalview_parser.py:75-129 | with contacts as `read_alifold` builds them, the writer fails only when the partition function scores are not three, and the contact row has one entry per column |
| Rnaalifold.EntryTop | services/rnaalifold-2.6.4/scripts/jalview_parser.py:86-123 | the value shown for a column is the highest probability among the contacts touching it, and the tooltip lists its contacts |
| Rnaalifold.TopContact | services/rnaalifold-2.6.4/scripts/jalview_parser.py:86-117 | the first contact of a column touches it and has the highest probability of those that do |
| Rnaalifold.EntryOf | services/rnaalifold-2.6.4/scripts/jalview_parser.py:115-123 | a column with contacts shows the probability of its first one, its character and the tooltip |
| RnaPatterns.DigitRun | services/rnaalifold-2.6.4/scripts/jalview_parser.py:19 | the `[0-9]*` run at the start of a text stops before the first non-digit |
| RnaPatterns.DigitRunDigits | services/rnaalifold-2.6.4/scripts/jalview_parser.py:19 | that run is all digits |
| RnaPatterns.DigitRunStops | services/rnaalifold-2.6.4/scripts/jalview_parser.py:19 | the run over digits followed by a non-digit is the digits |
| RnaPatterns.BlankRun | services/rnaalifold-2.6.4/scripts/jalview_parser.py:42 | the ` *` run stops before the first character other than a space |
| RnaPatterns.Unsigned | services/rnaalifold-2.6.4/scripts/jalview_parser.py:19 | `[+-]?` takes at most one character |
| RnaPatterns.UnsignedLen | services/rnaalifold-2.6.4/scripts/jalview_parser.py:19 | the unsigned part of a `float_pat` match lies within the text |
| RnaPatterns.UnsignedLenMatches | services/rnaalifold-2.6.4/scripts/jalview_parser.py:19 | what the scanner takes after the sign is an unsigned float, and no digit can follow it |
| RnaPatterns.UnsignedTakes | services/rnaalifold-2.6.4/scripts/jalview_parser.py:19 | an unsigned float followed by a character that cannot continue it is taken whole |
| RnaPatterns.UnsignedSplit | services/rnaalifold-2.6.4/scripts/jalview_parser.py:19 | a text is its sign, if any, and the rest |
| RnaPatterns.SignedFloat | services/rnaalifold-2.6.4/scripts/jalview_parser.py:19 | an optional sign before an unsigned float makes a float |
| RnaPatterns.FloatStart | services/rnaalifold-2.6.4/scripts/jalview_parser.py:19 | a float starts with a sign, a digit or a point |
| RnaPatterns.FloatMatch | services/rnaalifold-2.6.4/scripts/jalview_parser.py:19 | the sign and what the scanner takes after it make a float, which no digit follows |
| RnaPatterns.Char | services/rnaalifold-2.6.4/scripts/jalview_parser.py:42-57 | a literal character matches exactly when the text starts with it, and leaves the rest |
| RnaPatterns.Word | services/rnaalifold-2.6.4/scripts/jalview_parser.py:57-67 | a literal text matches exactly when it is a prefix, and leaves the rest |
| RnaPatterns.Blanks | services/rnaalifold-2.6.4/scripts/jalview_parser.py:42 | ` *` leaves a suffix of the text that does not start with a space |
| RnaPatterns.BlankOne | services/rnaalifold-2.6.4/scripts/jalview_parser.py:42 | one space, or none, before another character is skipped |
| RnaPatterns.Float | services/rnaalifold-2.6.4/scripts/jalview_parser.py:19 | a `float_pat` match at the start of a text is a float, the text is it and the rest, and no digit follows it |
| RnaPatterns.EnergySum | services/rnaalifold-2.6.4/scripts/jalview_parser.py:42-61 | `(float) *= *(float) *\+ *(float)` gives three floats and stops where no digit follows |
| RnaPatterns.MfeEnergy | services/rnaalifold-2.6.4/scripts/jalview_parser.py:42-44 | the energies after the MFE structure are three floats |
| RnaPatterns.EnsembleEnergy | services/rnaalifold-2.6.4/scripts/jalview_parser.py:53-55 | the ensemble energy after the partition function structure is a float |
| RnaPatterns.TaggedEnergy | services/rnaalifold-2.6.4/scripts/jalview_parser.py:57-63 | a centroid or MEA energy text gives three floats and the tag followed by a float |
| RnaPatterns.Frequency | services/rnaalifold-2.6.4/scripts/jalview_parser.py:66-69 | a frequency line gives the frequency and the diversity, both floats |
| RnaPatterns.FloatStep | services/rnaalifold-2.6.4/scripts/jalview_parser.py:19 | a float followed by a character that cannot continue it scans back whole |
| RnaPatterns.OperatorStep | services/rnaalifold-2.6.4/scripts/jalview_parser.py:42 | ` *c *` written as one space on each side is read |
| RnaPatterns.EnergyRoundTrip | services/rnaalifold-2.6.4/scripts/jalview_parser.py:42-61 | written energies scan back, followed by anything that cannot continue the last float |
| Rnaalifold.HeaderRoundTrip | services/rnaalifold-2.6.4/scripts/jalview_parser.py:35-44 | an alignment line followed by a structure, one space and `(e = a + b)` reads back as that alignment, structure and energies |
| Text.SplitFirstWordOf | services/rnaalifold-2.6.4/scripts/jalview_parser.py:40 | a word, one space and a text starting with a non-space split into the word and that text |
| RnaPatterns.MfeRoundTrip | services/rnaalifold-2.6.4/scripts/jalview_parser.py:42-44 | `(e = a + b)` written after the MFE structure reads back as its energies |
| RnaPatterns.EnsembleRoundTrip | services/rnaalifold-2.6.4/scripts/jalview_parser.py:53-55 | `[e]` reads back as its energy |
| RnaPatterns.TaggedRoundTrip | services/rnaalifold-2.6.4/scripts/jalview_parser.py:57-63 | `{e = a + b tag x}` reads back as its energies and `tag` with `x`, whatever follows |
| RnaPatterns.FrequencyRoundTrip | services/rnaalifold-2.6.4/scripts/jalview_parser.py:66-69 | a frequency line as the program writes it reads back as its frequency and diversity |
| RnaContacts.ParseRow | services/rnaalifold-2.6.4/scripts/jalview_parser.py:81-87 | a row of fewer than six columns stops the loop when it starts with a structure character and fails the assertion otherwise; a longer row converts the probability of its fourth column without its last character first, then its first and second columns as integers: the first that does not convert raises its ValueError, and when all three convert the row gives that contact |
| RnaContacts.Append | services/rnaalifold-2.6.4/scripts/jalview_parser.py:89-90 | appending to a column adds it at the end of the columns when it is new |
| RnaContacts.AppendGet | services/rnaalifold-2.6.4/scripts/jalview_parser.py:89-90 | appending to a column adds the contact at the end of its list and leaves the other columns alone |
| RnaContacts.CollectGet | services/rnaalifold-2.6.4/scripts/jalview_parser.py:88-90 | a contact of positive probability is appended to the lists of its two columns |
| RnaContacts.HitsOf | services/rnaalifold-2.6.4/scripts/jalview_parser.py:89-90 | the list of a column grows by the contact once per end of it that is the column |
| RnaContacts.TableGet | services/rnaalifold-2.6.4/scripts/jalview_parser.py:79-90 | every column of the table holds its contacts in file order, and a column is there exactly when some contact of positive probability touches it |
| RnaContacts.TableDistinct | services/rnaalifold-2.6.4/scripts/jalview_parser.py:79 | no column is listed twice |
| RnaContacts.Insert | services/rnaalifold-2.6.4/scripts/jalview_parser.py:92 | inserting into a descending list keeps it descending and adds exactly the contact |
| RnaContacts.DescendingTail | services/rnaalifold-2.6.4/scripts/jalview_parser.py:92 | the tail of a descending list is descending |
| RnaContacts.DescendingCons | services/rnaalifold-2.6.4/scripts/jalview_parser.py:92 | a contact of at least the head's probability put in front keeps the list descending |
| RnaContacts.SortDesc | services/rnaalifold-2.6.4/scripts/jalview_parser.py:91-92 | the sorted list is descending by probability and a permutation of the list |
| RnaContacts.WithPSnoc | services/rnaalifold-2.6.4/scripts/jalview_parser.py:92 | the contacts of one probability of a list with one more contact |
| RnaContacts.WithPBelow | services/rnaalifold-2.6.4/scripts/jalview_parser.py:92 | a descending list whose head is below a probability holds no contact of it |
| RnaContacts.InsertWithP | services/rnaalifold-2.6.4/scripts/jalview_parser.py:92 | inserting keeps the order of the contacts of each probability |
| RnaContacts.SortStable | services/rnaalifold-2.6.4/scripts/jalview_parser.py:92 | the sort is stable: the contacts of each probability keep the order they were read in |
| RnaContacts.SortedHead | services/rnaalifold-2.6.4/scripts/jalview_parser.py:92-117 | the head of the sorted list is a contact of the list of the highest probability |
| RnaContacts.SortAll | services/rnaalifold-2.6.4/scripts/jalview_parser.py:91-92 | the sort keeps the number of columns |
| RnaContacts.SortAllGet | services/rnaalifold-2.6.4/scripts/jalview_parser.py:91-92 | the sort keeps the columns and sorts each list |
| RnaContacts.HeaderEnd | services/rnaalifold-2.6.4/scripts/jalview_parser.py:77-78 | the two header lines are skipped, or as many as the file has |
| RnaContacts.ReadAlifoldContacts | services/rnaalifold-2.6.4/scripts/jalview_parser.py:75-93 | a column is in the result exactly when some contact of positive probability touches it; its list holds exactly those contacts, from the highest probability to the lowest, equal probabilities in file order; no column appears twice |
| RnaContacts.ReadAlifold | services/rnaalifold-2.6.4/scripts/jalview_parser.py:75-93 | the method over a line reader gives the specification's result for the lines still to be read |
| RnaContacts.ReadAlifoldFrom | services/rnaalifold-2.6.4/scripts/jalview_parser.py:75-93 | `read_alifold` fails exactly when a row after the two header lines fails, with that row's error, and returns no column twice |
| RnaContacts.SortAllDistinct | services/rnaalifold-2.6.4/scripts/jalview_parser.py:91-92 | sorting every column's list keeps the columns distinct |
| RnaContacts.CollectRows | services/rnaalifold-2.6.4/scripts/jalview_parser.py:80-90 | the `for` loop gives the table of the contacts read up to the stopping row, or the error of the row that fails |
| RnaContacts.AddContact | services/rnaalifold-2.6.4/scripts/jalview_parser.py:88-90 | the loop body adds a contact to the table |
| RnaContacts.RowsEntry | services/rnaalifold-2.6.4/scripts/jalview_parser.py:86-90 | a contact row moves the contact from the rows still to read to those read |
| RnaContacts.RowsStop | services/rnaalifold-2.6.4/scripts/jalview_parser.py:84-85 | a short row starting with a structure character ends the loop |
| RnaContacts.RowsError | services/rnaalifold-2.6.4/scripts/jalview_parser.py:82-83 | a row that fails ends the read with its error |
| RnaContacts.SortLists | services/rnaalifold-2.6.4/scripts/jalview_parser.py:91-92 | the sorting loop sorts every list in place |
| RnaContacts.SortAllAt | services/rnaalifold-2.6.4/scripts/jalview_parser.py:91-92 | each column keeps its place, with its list sorted |
| RnaContacts.RowRoundTrip | services/rnaalifold-2.6.4/scripts/jalview_parser.py:81-87 | a row of at least six columns, padded with any whitespace before and between them and after the last, whose first two are integers and whose fourth is a number and one more character, reads as that contact |
| Context.DockerEnvContextMap.constructor | install.py:367-371 | a new docker context holds its executable, its image and the `env` output, with nothing cached yet |
| DataDirs.RuleList.constructor | install.py:136 | the caller's rule list, which `find_data_dirs` may change in place |
| DataDirs.Disk.constructor | install.py:168-187 | the destination paths that exist |
| Streams.Sink.constructor | services/jronn-3.1b/scripts/jalview_parser.py:34-35 | an empty output file |
| Streams.LineReader.constructor | services/disembl-1.4/scripts/jalview_parser.py:29-32 | a reader at the first line of a text |

## Left out

- `main`, the click prompts and the retry, skip and abort loop (install.py:32-117): interactive user interface.
- `create_env` (install.py:330-349), `init_slivka` and `copy_shared_files` (install.py:538-554): they only run subprocesses and walk or copy directories.
- The subprocess calls themselves: `conda env create`, `docker run`, `docker buildx build`, `docker image pull` and `slivka init`. What the code does with their output is modelled, and that output is a parameter.
- The filesystem: `Path.glob`, `is_dir`, `copytree`, `rmtree` and `copy2`. Directory listings and existing paths are sets of names, and a copy is recorded rather than performed.
- Glob character classes (`[...]`): the matcher knows `*`, `?` and literal characters only.
- The YAML library (ruamel) and its constructor hook: loading and dumping are not modelled. A loaded document is a value tree of strings, other scalars, sequences and mappings, and only the substitution on string scalars is modelled.
- Non-string YAML scalars are opaque: the model keeps their text and their truth value only.
- `\w`, `\d` and `\s` are the ASCII classes (plus Python's whitespace characters for `\s` and `split()`): Unicode word characters and digits are not modelled.
- `int()` is modelled on an optional sign and decimal digits: underscores and surrounding whitespace are not accepted.
- Newline translation when a file is opened in text mode is not modelled: a line ends at `\n`.
- Floating point in the RNAalifold converter: `float()` on the probability column and `%.1f` are parameters over real numbers, so NaN, infinities and rounding are not modelled.
- The `run` and `argparse` entry points and the opening of files in the four converters: input and output wrappers.
- The dictionary that `read_structures` returns is a record with one optional field per key: the order in which its keys were inserted is not modelled, and the writer looks keys up by name only.
- The insertion of `contacts` into that dictionary by `run` (services/rnaalifold-2.6.4/scripts/jalview_parser.py:26-27): the writer takes the contacts as a separate optional field.
- The test expectations at test/install_test.py:169-193 expect `data/<name>` destinations from `find_and_copy_data_dirs`. The code returns the identity mapping (install.py:204-207), and the model follows the code.
- Globplot.FileRoundTrip: the rows of a written file are separated by one whitespace character between columns; wider separators are not covered by the round trip.
- RnaPatterns.MfeRoundTrip: the energies are written with one space around `=` and `+`; other spacing, which the patterns also accept, is not covered by the round trip.
- RnaPatterns.TaggedRoundTrip: the same single-space layout, with one space before the tag.
- DataDirs.JoinPath: a path is joined as `root + "/" + name`. The normalisation pathlib applies is not modelled: `.` components and repeated or trailing slashes are kept, and an absolute second part does not replace the root as it does with `Path.__truediv__`.
- DataDirs.CopyPairs: the pairs are joined with JoinPath, so they spell the paths pathlib builds only for a relative match under a root without a trailing slash.
- DataDirs.FindAndCopyDataDirs: the copied paths are JoinPath's, with the same limit.
- Context.DataFilesValue: the destination is JoinPath's join, not pathlib's normalised path.
- Context.DataFilesMeaning: the same JoinPath join.
- Context.LocalPaths: the same JoinPath join.
- Context.RuntimePaths: the same JoinPath join.
- Context.LocalPathLookup: the destination it gives is JoinPath's join.
- Context.RuntimePathLookup: the destination it gives is JoinPath's join.
- Installer.MountArgs: the bind source is JoinPath's join of the data directory and the copied name.
- Installer.CondaInstallService: the copied paths and the rendered paths use JoinPath's join.
- Installer.DockerInstallService: the copied paths, the mounts and the rendered paths use JoinPath's join.
- Installer.MakeImage: the Dockerfile path is JoinPath's join of the source root and `dockerfile`, so an absolute `dockerfile` is placed under the root where pathlib would use it as it is. An `image`, `tag` or `platform` that is a list or a mapping is an error here (`NotText`), where the source passes it on and formats it into the image name with `str()`.
- Installer.RulesOfItems: every rule must be a mapping of strings before any rule is checked. The source checks rule by rule (install.py:149-158), so when an earlier rule has another fault (more than one key, a recursive glob, an unknown key), the source raises that fault first, and a non-string pattern raises whatever error the check it reaches raises.
