/**
 * The deployment task that fetches the TYPO3 configuration of a source and a
 * target context from the project's repository and hands their database
 * credentials to the application as the option `contextConfiguration`.
 *
 * `Run` specifies one execution as a function of the state before it;
 * `GetContextConfigurationTask.Execute` performs it step by step and is
 * proved to agree with `Run`; the lemmas state what `Run` promises.
 */
module ContextConfigurationTask {
  import opened Wrappers
  import opened Php
  import opened Surf

  /** The options a caller must set, checked in this order. */
  const RequiredOptions: seq<string> := ["sourceContext", "targetContext"]

  /** The code of the exception for a missing required option. */
  const MissingOptionCode := 1405592631

  /** The base configuration file. */
  const LocalConfigFile := "LocalConfiguration.php"

  /** The entries of `$GLOBALS['TYPO3_CONF_VARS']['DB']` that are read, in order... */
  const DbFields: seq<string> := ["host", "username", "password", "database"]
  /** ... the keys they are stored under for the source context ... */
  const SourceKeys: seq<string> := ["sourceHost", "sourceUser", "sourcePassword", "sourceDatabase"]
  /** ... and for the target context. */
  const TargetKeys: seq<string> := ["targetHost", "targetUser", "targetPassword", "targetDatabase"]

  /** The node the fetch commands run on: `new Node('localhost')` with host name `localhost`. */
  const Localhost := Node("localhost", "localhost")

  function MissingOption(name: string): Exception {
    InvalidConfiguration("Required option \"" + name + "\" is not set!", MissingOptionCode)
  }

  // ---------------------------------------------------------------------
  // Required options

  /** The first of `names` that is not set in `options`. */
  function FirstMissing(names: seq<string>, options: map<string, Value>): Option<string> {
    if names == [] then None
    else if !IsSet(options, names[0]) then Some(names[0])
    else FirstMissing(names[1..], options)
  }

  /** How the check of the required options ends. */
  function Validation(options: map<string, Value>): Outcome {
    match FirstMissing(RequiredOptions, options)
    case None => Done
    case Some(name) => Raised(MissingOption(name))
  }

  /** Nothing is missing exactly when every name is set. */
  lemma {:induction false} FirstMissingNone(names: seq<string>, options: map<string, Value>)
    ensures FirstMissing(names, options) == None <==> forall i :: 0 <= i < |names| ==> IsSet(options, names[i])
  {
    if names != [] {
      FirstMissingNone(names[1..], options);
      assert forall i :: 1 <= i < |names| ==> names[i] == names[1..][i - 1];
    }
  }

  /** The first unset name of the list is the one reported. */
  lemma {:induction false} FirstMissingAt(names: seq<string>, options: map<string, Value>, k: nat)
    requires k < |names| && !IsSet(options, names[k])
    requires forall j :: 0 <= j < k ==> IsSet(options, names[j])
    ensures FirstMissing(names, options) == Some(names[k])
  {
    if k > 0 {
      FirstMissingAt(names[1..], options, k - 1);
    }
  }

  /** A reported name is not set, and every name before its position is. */
  lemma {:induction false} FirstMissingSome(names: seq<string>, options: map<string, Value>, name: string)
    requires FirstMissing(names, options) == Some(name)
    ensures exists k :: 0 <= k < |names| && names[k] == name && !IsSet(options, name) &&
                        forall j :: 0 <= j < k ==> IsSet(options, names[j])
  {
    if IsSet(options, names[0]) {
      FirstMissingSome(names[1..], options, name);
      var k :| 0 <= k < |names[1..]| && names[1..][k] == name && !IsSet(options, name) &&
               forall j :: 0 <= j < k ==> IsSet(options, names[1..][j]);
      assert forall j :: 1 <= j < k + 1 ==> names[j] == names[1..][j - 1];
      assert names[k + 1] == name;
    } else {
      assert names[0] == name;
    }
  }

  /** For the task's two options: `sourceContext` is checked before `targetContext`. */
  lemma ValidationOrder(options: map<string, Value>)
    ensures Validation(options) ==
      if !IsSet(options, "sourceContext") then Raised(MissingOption("sourceContext"))
      else if !IsSet(options, "targetContext") then Raised(MissingOption("targetContext"))
      else Done
  {
    if !IsSet(options, "sourceContext") {
      FirstMissingAt(RequiredOptions, options, 0);
    } else if !IsSet(options, "targetContext") {
      FirstMissingAt(RequiredOptions, options, 1);
    } else {
      FirstMissingNone(RequiredOptions, options);
    }
  }

  // ---------------------------------------------------------------------
  // File names and commands

  /** The three files staged from the repository's `typo3conf` directory. */
  datatype ConfigFiles = ConfigFiles(local: string, source: string, target: string)

  /** `'AdditionalConfiguration.' . $context . '.php'`. */
  function OverlayFile(context: Value): string {
    "AdditionalConfiguration." + ToText(context) + ".php"
  }

  function Files(options: map<string, Value>): ConfigFiles {
    ConfigFiles(LocalConfigFile, OverlayFile(Get(options, "sourceContext")), OverlayFile(Get(options, "targetContext")))
  }

  /** `$directory . '/' . $file`. */
  function Path(directory: string, file: string): string {
    directory + "/" + file
  }

  function MkdirCommand(directory: string): string {
    "mkdir -p " + directory
  }

  function FetchCommand(directory: string, repositoryUrl: string, file: string): string {
    "cd " + directory + "; git archive --remote=" + repositoryUrl + " HEAD:typo3conf -- " + file + " | tar -x"
  }

  /** The fetch commands of one run, in the order they are handed to the shell. */
  function FetchCommands(directory: string, repositoryUrl: string, files: ConfigFiles): seq<string> {
    [FetchCommand(directory, repositoryUrl, files.local),
     FetchCommand(directory, repositoryUrl, files.source),
     FetchCommand(directory, repositoryUrl, files.target)]
  }

  /** Where the fetch commands put the files. */
  function Staged(directory: string, files: ConfigFiles): set<string> {
    {Path(directory, files.local), Path(directory, files.source), Path(directory, files.target)}
  }

  /** The name of an overlay file determines its context's text. */
  lemma OverlayFileInjective(a: Value, b: Value)
    ensures OverlayFile(a) == OverlayFile(b) <==> ToText(a) == ToText(b)
  {
    var p := "AdditionalConfiguration.";
    if OverlayFile(a) == OverlayFile(b) {
      assert |ToText(a)| == |ToText(b)|;
      assert ToText(a) == OverlayFile(a)[|p|..|p| + |ToText(a)|];
      assert ToText(b) == OverlayFile(b)[|p|..|p| + |ToText(b)|];
    }
  }

  /** The base file is never an overlay file. */
  lemma LocalIsNoOverlay(context: Value)
    ensures LocalConfigFile != OverlayFile(context)
  {
    assert LocalConfigFile[0] == 'L';
    assert OverlayFile(context)[0] == 'A';
  }

  /** Within one directory, distinct files have distinct paths. */
  lemma PathInjective(directory: string, a: string, b: string)
    ensures Path(directory, a) == Path(directory, b) <==> a == b
  {
    if Path(directory, a) == Path(directory, b) {
      assert a == Path(directory, a)[|directory| + 1..];
      assert b == Path(directory, b)[|directory| + 1..];
    }
  }

  /**
   * Three distinct files are staged unless both contexts name the same
   * overlay; the base file is always distinct from both overlays.
   */
  lemma StagedFiles(directory: string, options: map<string, Value>)
    ensures var files := Files(options);
      && Path(directory, files.local) != Path(directory, files.source)
      && Path(directory, files.local) != Path(directory, files.target)
      && (Path(directory, files.source) == Path(directory, files.target) <==>
          ToText(Get(options, "sourceContext")) == ToText(Get(options, "targetContext")))
      && |Staged(directory, files)| == if ToText(Get(options, "sourceContext")) == ToText(Get(options, "targetContext")) then 2 else 3
  {
    var files := Files(options);
    LocalIsNoOverlay(Get(options, "sourceContext"));
    LocalIsNoOverlay(Get(options, "targetContext"));
    PathInjective(directory, files.local, files.source);
    PathInjective(directory, files.local, files.target);
    PathInjective(directory, files.source, files.target);
    OverlayFileInjective(Get(options, "sourceContext"), Get(options, "targetContext"));
  }

  // ---------------------------------------------------------------------
  // Reading the database credentials

  /**
   * `$conf['DB'][$field]`. Only an error handler that throws makes it fail,
   * and nothing is read out of null.
   */
  function DbField(conf: Value, field: string, warningsThrow: bool): (r: Result<Value, Exception>)
    ensures r.Err? ==> warningsThrow
    ensures conf.Null? ==> r == Ok(Null)
  {
    match Index(conf, "DB", warningsThrow)
    case Err(e) => Err(e)
    case Ok(db) => Index(db, field, warningsThrow)
  }

  /**
   * The array literal `array(keys[0] => $conf['DB'][fields[0]], ...)` with
   * distinct keys (the task's two literals have them): its entries are read
   * in order and the first failing read ends it. With a repeated key it would
   * keep the first value where PHP keeps the last.
   */
  function ReadFields(conf: Value, keys: seq<string>, fields: seq<string>, warningsThrow: bool): Result<map<string, Value>, Exception>
    requires |keys| == |fields|
    decreases |keys|
  {
    if keys == [] then Ok(map[])
    else match DbField(conf, fields[0], warningsThrow)
      case Err(e) => Err(e)
      case Ok(v) =>
        match ReadFields(conf, keys[1..], fields[1..], warningsThrow)
        case Err(e) => Err(e)
        case Ok(m) => Ok(m[keys[0] := v])
  }

  /** The literal is built exactly when every read succeeds. */
  lemma {:induction false} ReadFieldsOk(conf: Value, keys: seq<string>, fields: seq<string>, warningsThrow: bool)
    requires |keys| == |fields|
    ensures ReadFields(conf, keys, fields, warningsThrow).Ok? <==>
            forall i :: 0 <= i < |fields| ==> DbField(conf, fields[i], warningsThrow).Ok?
    decreases |keys|
  {
    if keys != [] {
      ReadFieldsOk(conf, keys[1..], fields[1..], warningsThrow);
      assert forall i :: 1 <= i < |fields| ==> fields[i] == fields[1..][i - 1];
    }
  }

  /** A failing literal fails with the exception of its first failing read. */
  lemma {:induction false} ReadFieldsErr(conf: Value, keys: seq<string>, fields: seq<string>, warningsThrow: bool)
    requires |keys| == |fields|
    requires ReadFields(conf, keys, fields, warningsThrow).Err?
    ensures exists i :: 0 <= i < |fields| &&
              DbField(conf, fields[i], warningsThrow) == Err(ReadFields(conf, keys, fields, warningsThrow).error) &&
              forall j :: 0 <= j < i ==> DbField(conf, fields[j], warningsThrow).Ok?
    decreases |keys|
  {
    if DbField(conf, fields[0], warningsThrow).Ok? {
      ReadFieldsErr(conf, keys[1..], fields[1..], warningsThrow);
      var i :| 0 <= i < |fields[1..]| &&
        DbField(conf, fields[1..][i], warningsThrow) == Err(ReadFields(conf, keys[1..], fields[1..], warningsThrow).error) &&
        forall j :: 0 <= j < i ==> DbField(conf, fields[1..][j], warningsThrow).Ok?;
      assert forall j :: 1 <= j < i + 1 ==> fields[j] == fields[1..][j - 1];
      assert DbField(conf, fields[i + 1], warningsThrow) == Err(ReadFields(conf, keys, fields, warningsThrow).error);
    } else {
      assert DbField(conf, fields[0], warningsThrow) == Err(ReadFields(conf, keys, fields, warningsThrow).error);
    }
  }

  /** A built literal has exactly the given keys, each holding its own field. */
  lemma {:induction false} ReadFieldsValues(conf: Value, keys: seq<string>, fields: seq<string>, warningsThrow: bool)
    requires |keys| == |fields|
    requires forall i, j :: 0 <= i < j < |keys| ==> keys[i] != keys[j]
    requires ReadFields(conf, keys, fields, warningsThrow).Ok?
    ensures var m := ReadFields(conf, keys, fields, warningsThrow).value;
      && (forall k :: k in m <==> k in keys)
      && forall i :: 0 <= i < |keys| ==>
           keys[i] in m && DbField(conf, fields[i], warningsThrow).Ok? && m[keys[i]] == DbField(conf, fields[i], warningsThrow).value
    decreases |keys|
  {
    if keys != [] {
      ReadFieldsValues(conf, keys[1..], fields[1..], warningsThrow);
      assert forall i :: 1 <= i < |keys| ==> keys[i] == keys[1..][i - 1] && fields[i] == fields[1..][i - 1];
      assert forall k :: k in keys <==> k == keys[0] || k in keys[1..];
      assert keys[0] !in keys[1..];
    }
  }

  /** The source and target keys are eight distinct names. */
  lemma CredentialKeys()
    ensures forall i, j :: 0 <= i < j < |SourceKeys| ==> SourceKeys[i] != SourceKeys[j]
    ensures forall i, j :: 0 <= i < j < |TargetKeys| ==> TargetKeys[i] != TargetKeys[j]
    ensures forall k :: k in SourceKeys ==> k !in TargetKeys
  {
  }

  // ---------------------------------------------------------------------
  // One execution

  /**
   * One execution of the task on `w`, called for `node` with `options`, in
   * the temporary directory `directory`: the state afterwards and how it ended.
   */
  function Run(w: World, node: Node, options: map<string, Value>, directory: string, rt: Runtime): (World, Outcome) {
    if Validation(options).Raised? then (w, Validation(options))
    else
      var mkdir := ShellCall(ViaExecute, [MkdirCommand(directory)], node);
      var w1 := w.(log := w.log + [mkdir]);
      if rt.shell(mkdir).Some? then (w1, Raised(rt.shell(mkdir).value))
      else
        var files := Files(options);
        var fetch := FetchCall(w, options, directory);
        var w2 := w1.(log := w1.log + [fetch]);
        if rt.shell(fetch).Some? then (w2, Raised(rt.shell(fetch).value))
        else Resolve(w2.(files := w2.files + Staged(directory, files)), directory, files, rt)
  }

  /** The call that fetches the three files, on the local host. */
  function FetchCall(w: World, options: map<string, Value>, directory: string): ShellCall {
    ShellCall(ViaExecuteOrSimulate, FetchCommands(directory, ToText(Get(w.appOptions, "repositoryUrl")), Files(options)), Localhost)
  }

  /**
   * The `try` block: evaluate the staged files, set the option
   * `contextConfiguration` to the merged credentials, and unlink the three
   * files. A failing evaluation leaves the options and the files as they were.
   */
  function Resolve(w: World, directory: string, files: ConfigFiles, rt: Runtime): (World, Outcome) {
    var (globals, merged) := Evaluate(w.confVars, directory, files, rt);
    match merged
    case Err(e) => (w.(confVars := globals), Raised(e))
    case Ok(configuration) =>
      Cleanup(w.(confVars := globals, appOptions := w.appOptions["contextConfiguration" := Arr(configuration)]),
              [Path(directory, files.local), Path(directory, files.source), Path(directory, files.target)],
              rt.warningsThrow)
  }

  /**
   * The evaluation of the staged files, starting from `conf` as the value of
   * `$GLOBALS['TYPO3_CONF_VARS']`: the base file's return value replaces it,
   * the source overlay runs on it and the source credentials are read, then
   * the target overlay runs on the same value and the target credentials are
   * read. Gives the final value of the global and the merged credentials, or
   * the exception that stopped the evaluation.
   */
  function Evaluate(conf: Value, directory: string, files: ConfigFiles, rt: Runtime): (Value, Result<map<string, Value>, Exception>) {
    var base := rt.evaluate(conf, Path(directory, files.local));
    if base.raised.Some? then (base.globals, Err(base.raised.value))
    else
      var source := rt.evaluate(base.returned, Path(directory, files.source));
      if source.raised.Some? then (source.globals, Err(source.raised.value))
      else match ReadFields(source.globals, SourceKeys, DbFields, rt.warningsThrow)
        case Err(e) => (source.globals, Err(e))
        case Ok(configSource) =>
          var target := rt.evaluate(source.globals, Path(directory, files.target));
          if target.raised.Some? then (target.globals, Err(target.raised.value))
          else match ReadFields(target.globals, TargetKeys, DbFields, rt.warningsThrow)
            case Err(e) => (target.globals, Err(e))
            case Ok(configTarget) => (target.globals, Ok(ArrayMerge(configSource, configTarget)))
  }

  /** Unlinks `paths` in order; the first failing unlink ends it. */
  function Cleanup(w: World, paths: seq<string>, warningsThrow: bool): (World, Outcome)
    decreases |paths|
  {
    if paths == [] then (w, Done)
    else
      var (files, r) := Unlinked(w.files, paths[0], warningsThrow);
      if r.Raised? then (w.(files := files), r)
      else Cleanup(w.(files := files), paths[1..], warningsThrow)
  }

  /** Once the options are set and both shell calls succeeded, `Run` goes on as `Resolve`. */
  lemma RunReachesResolve(w: World, node: Node, options: map<string, Value>, directory: string, rt: Runtime)
    requires Validation(options).Done?
    requires rt.shell(ShellCall(ViaExecute, [MkdirCommand(directory)], node)).None?
    requires rt.shell(FetchCall(w, options, directory)).None?
    ensures Run(w, node, options, directory, rt) ==
            Resolve(w.(log := w.log + [ShellCall(ViaExecute, [MkdirCommand(directory)], node), FetchCall(w, options, directory)],
                       files := w.files + Staged(directory, Files(options))),
                    directory, Files(options), rt)
  {
    var mkdir := ShellCall(ViaExecute, [MkdirCommand(directory)], node);
    assert w.log + [mkdir] + [FetchCall(w, options, directory)] == w.log + [mkdir, FetchCall(w, options, directory)];
  }

  // ---------------------------------------------------------------------
  // What the cleanup, the evaluation and one execution promise

  /** Every path is in `files` when its turn comes: present, and not unlinked before. */
  predicate Removable(files: set<string>, paths: seq<string>) {
    forall i :: 0 <= i < |paths| ==> paths[i] in files && paths[i] !in paths[..i]
  }

  lemma RemovableStep(files: set<string>, paths: seq<string>)
    requires paths != [] && paths[0] in files
    ensures Removable(files, paths) <==> Removable(files - {paths[0]}, paths[1..])
  {
    forall i | 1 <= i < |paths|
      ensures paths[..i] == [paths[0]] + paths[1..][..i - 1]
    {
    }
    assert paths[..0] == [];
  }

  /**
   * The cleanup changes only the files. It succeeds exactly when warnings do
   * not throw or every path can be removed in turn, and then none of the
   * paths is left; otherwise it stops at the first path that is gone, having
   * removed the ones before it.
   */
  lemma {:induction false} CleanupEffect(w: World, paths: seq<string>, warningsThrow: bool)
    ensures var (w', r) := Cleanup(w, paths, warningsThrow);
      && w' == w.(files := w'.files)
      && (r.Done? <==> !warningsThrow || Removable(w.files, paths))
      && (r.Done? ==> forall p :: p in w'.files <==> p in w.files && p !in paths)
      && (r.Raised? ==> exists i :: 0 <= i < |paths| && r == Raised(UnlinkFailed(paths[i])) &&
                         (paths[i] !in w.files || paths[i] in paths[..i]) &&
                         forall p :: p in w'.files <==> p in w.files && p !in paths[..i])
    decreases |paths|
  {
    if paths != [] {
      var (files, r1) := Unlinked(w.files, paths[0], warningsThrow);
      assert files == w.files - {paths[0]};
      if r1.Raised? {
        assert paths[..0] == [];
      } else {
        var w1 := w.(files := files);
        CleanupEffect(w1, paths[1..], warningsThrow);
        if warningsThrow {
          RemovableStep(w.files, paths);
        }
        var (w', r) := Cleanup(w1, paths[1..], warningsThrow);
        assert forall p :: p in paths <==> p == paths[0] || p in paths[1..];
        if r.Raised? {
          var i :| 0 <= i < |paths[1..]| && r == Raised(UnlinkFailed(paths[1..][i])) &&
                   (paths[1..][i] !in w1.files || paths[1..][i] in paths[1..][..i]) &&
                   forall p :: p in w'.files <==> p in w1.files && p !in paths[1..][..i];
          assert paths[..i + 1] == [paths[0]] + paths[1..][..i];
          assert r == Raised(UnlinkFailed(paths[i + 1]));
        }
      }
    }
  }

  /**
   * The evaluation succeeds exactly when no included file throws and every
   * credential read succeeds, each read taken from the value the global has
   * at that point.
   */
  lemma EvaluateSucceeds(conf: Value, directory: string, files: ConfigFiles, rt: Runtime)
    ensures var base := rt.evaluate(conf, Path(directory, files.local));
      var source := rt.evaluate(base.returned, Path(directory, files.source));
      var target := rt.evaluate(source.globals, Path(directory, files.target));
      Evaluate(conf, directory, files, rt).1.Ok? <==>
        && base.raised.None?
        && source.raised.None?
        && (forall i :: 0 <= i < |DbFields| ==> DbField(source.globals, DbFields[i], rt.warningsThrow).Ok?)
        && target.raised.None?
        && (forall i :: 0 <= i < |DbFields| ==> DbField(target.globals, DbFields[i], rt.warningsThrow).Ok?)
  {
    var base := rt.evaluate(conf, Path(directory, files.local));
    var source := rt.evaluate(base.returned, Path(directory, files.source));
    var target := rt.evaluate(source.globals, Path(directory, files.target));
    ReadFieldsOk(source.globals, SourceKeys, DbFields, rt.warningsThrow);
    ReadFieldsOk(target.globals, TargetKeys, DbFields, rt.warningsThrow);
  }

  // Merging the source credentials read from `afterSource` with the target
  // credentials read from `afterTarget` keeps every value, because the key
  // sets are disjoint; the next three lemmas say so for the keys, the source
  // values and the target values.

  lemma MergedKeys(afterSource: Value, afterTarget: Value, warningsThrow: bool)
    requires ReadFields(afterSource, SourceKeys, DbFields, warningsThrow).Ok?
    requires ReadFields(afterTarget, TargetKeys, DbFields, warningsThrow).Ok?
    ensures var m := ArrayMerge(ReadFields(afterSource, SourceKeys, DbFields, warningsThrow).value,
                                ReadFields(afterTarget, TargetKeys, DbFields, warningsThrow).value);
      forall k :: k in m <==> k in SourceKeys || k in TargetKeys
  {
    ReadFieldsValues(afterSource, SourceKeys, DbFields, warningsThrow);
    ReadFieldsValues(afterTarget, TargetKeys, DbFields, warningsThrow);
  }

  lemma MergedSourceValues(afterSource: Value, afterTarget: Value, warningsThrow: bool)
    requires ReadFields(afterSource, SourceKeys, DbFields, warningsThrow).Ok?
    requires ReadFields(afterTarget, TargetKeys, DbFields, warningsThrow).Ok?
    ensures var m := ArrayMerge(ReadFields(afterSource, SourceKeys, DbFields, warningsThrow).value,
                                ReadFields(afterTarget, TargetKeys, DbFields, warningsThrow).value);
      forall i :: 0 <= i < |DbFields| ==>
        DbField(afterSource, DbFields[i], warningsThrow).Ok? &&
        m[SourceKeys[i]] == DbField(afterSource, DbFields[i], warningsThrow).value
  {
    var src := ReadFields(afterSource, SourceKeys, DbFields, warningsThrow).value;
    var tgt := ReadFields(afterTarget, TargetKeys, DbFields, warningsThrow).value;
    CredentialKeys();
    ReadFieldsValues(afterSource, SourceKeys, DbFields, warningsThrow);
    ReadFieldsValues(afterTarget, TargetKeys, DbFields, warningsThrow);
    forall i | 0 <= i < |DbFields|
      ensures DbField(afterSource, DbFields[i], warningsThrow).Ok?
      ensures ArrayMerge(src, tgt)[SourceKeys[i]] == DbField(afterSource, DbFields[i], warningsThrow).value
    {
      assert SourceKeys[i] in SourceKeys;
      assert SourceKeys[i] !in tgt;
    }
  }

  lemma MergedTargetValues(afterSource: Value, afterTarget: Value, warningsThrow: bool)
    requires ReadFields(afterSource, SourceKeys, DbFields, warningsThrow).Ok?
    requires ReadFields(afterTarget, TargetKeys, DbFields, warningsThrow).Ok?
    ensures var m := ArrayMerge(ReadFields(afterSource, SourceKeys, DbFields, warningsThrow).value,
                                ReadFields(afterTarget, TargetKeys, DbFields, warningsThrow).value);
      forall i :: 0 <= i < |DbFields| ==>
        DbField(afterTarget, DbFields[i], warningsThrow).Ok? &&
        m[TargetKeys[i]] == DbField(afterTarget, DbFields[i], warningsThrow).value
  {
    CredentialKeys();
    ReadFieldsValues(afterTarget, TargetKeys, DbFields, warningsThrow);
  }

  /**
   * A successful evaluation yields exactly the eight keys. The source
   * credentials are the `DB` entries of the global after the base file and
   * the source overlay; the target credentials those after the target overlay
   * ran on that same value, with no return to the base file's value. This is
   * also the global's final value.
   */
  lemma EvaluatedCredentials(conf: Value, directory: string, files: ConfigFiles, rt: Runtime)
    requires Evaluate(conf, directory, files, rt).1.Ok?
    ensures var m := Evaluate(conf, directory, files, rt).1.value;
      var base := rt.evaluate(conf, Path(directory, files.local));
      var afterSource := rt.evaluate(base.returned, Path(directory, files.source)).globals;
      var afterTarget := rt.evaluate(afterSource, Path(directory, files.target)).globals;
      && Evaluate(conf, directory, files, rt).0 == afterTarget
      && (forall k :: k in m <==> k in SourceKeys || k in TargetKeys)
      && (forall i :: 0 <= i < |DbFields| ==>
            DbField(afterSource, DbFields[i], rt.warningsThrow).Ok? &&
            m[SourceKeys[i]] == DbField(afterSource, DbFields[i], rt.warningsThrow).value)
      && (forall i :: 0 <= i < |DbFields| ==>
            DbField(afterTarget, DbFields[i], rt.warningsThrow).Ok? &&
            m[TargetKeys[i]] == DbField(afterTarget, DbFields[i], rt.warningsThrow).value)
  {
    var base := rt.evaluate(conf, Path(directory, files.local));
    var afterSource := rt.evaluate(base.returned, Path(directory, files.source)).globals;
    var afterTarget := rt.evaluate(afterSource, Path(directory, files.target)).globals;
    var src := ReadFields(afterSource, SourceKeys, DbFields, rt.warningsThrow);
    var tgt := ReadFields(afterTarget, TargetKeys, DbFields, rt.warningsThrow);
    assert src.Ok? && tgt.Ok?;
    assert Evaluate(conf, directory, files, rt) == (afterTarget, Ok(ArrayMerge(src.value, tgt.value)));
    MergedKeys(afterSource, afterTarget, rt.warningsThrow);
    MergedSourceValues(afterSource, afterTarget, rt.warningsThrow);
    MergedTargetValues(afterSource, afterTarget, rt.warningsThrow);
  }

  /**
   * Validation comes first: with a required option missing, a run issues no
   * shell command, changes nothing, and raises the exception for the first
   * missing option.
   */
  lemma MissingOptionChangesNothing(w: World, node: Node, options: map<string, Value>, directory: string, rt: Runtime)
    requires !IsSet(options, "sourceContext") || !IsSet(options, "targetContext")
    ensures Run(w, node, options, directory, rt) ==
      (w, Raised(InvalidConfiguration(
            "Required option \"" + (if !IsSet(options, "sourceContext") then "sourceContext" else "targetContext") + "\" is not set!",
            1405592631)))
  {
    ValidationOrder(options);
  }

  /** The evaluation and the cleanup never call the shell. */
  lemma ResolveKeepsLog(w: World, directory: string, files: ConfigFiles, rt: Runtime)
    ensures Resolve(w, directory, files, rt).0.log == w.log
  {
    var (globals, merged) := Evaluate(w.confVars, directory, files, rt);
    if merged.Ok? {
      CleanupEffect(w.(confVars := globals, appOptions := w.appOptions["contextConfiguration" := Arr(merged.value)]),
                    [Path(directory, files.local), Path(directory, files.source), Path(directory, files.target)],
                    rt.warningsThrow);
    }
  }

  /**
   * With both options set, a run makes `mkdir -p` on the caller's node
   * through `execute` and then, if that succeeded, one `executeOrSimulate`
   * call on the local host with the three fetch commands, base file first,
   * then the source overlay, then the target overlay. It makes no other
   * shell call.
   */
  lemma ShellCalls(w: World, node: Node, options: map<string, Value>, directory: string, rt: Runtime)
    requires IsSet(options, "sourceContext") && IsSet(options, "targetContext")
    ensures var mkdir := ShellCall(ViaExecute, ["mkdir -p " + directory], node);
      var url := ToText(Get(w.appOptions, "repositoryUrl"));
      var fetch := ShellCall(ViaExecuteOrSimulate,
        [FetchCommand(directory, url, "LocalConfiguration.php"),
         FetchCommand(directory, url, "AdditionalConfiguration." + ToText(options["sourceContext"]) + ".php"),
         FetchCommand(directory, url, "AdditionalConfiguration." + ToText(options["targetContext"]) + ".php")],
        Node("localhost", "localhost"));
      Run(w, node, options, directory, rt).0.log == w.log + if rt.shell(mkdir).Some? then [mkdir] else [mkdir, fetch]
  {
    ValidationOrder(options);
    var mkdir := ShellCall(ViaExecute, [MkdirCommand(directory)], node);
    if rt.shell(mkdir).None? && rt.shell(FetchCall(w, options, directory)).None? {
      RunReachesResolve(w, node, options, directory, rt);
      ResolveKeepsLog(w.(log := w.log + [mkdir, FetchCall(w, options, directory)],
                         files := w.files + Staged(directory, Files(options))),
                      directory, Files(options), rt);
    }
  }

  /**
   * A run whose evaluation fails raises that same exception and leaves the
   * application's options unchanged and all three fetched files in the
   * workspace.
   */
  lemma FailedEvaluationKeepsFiles(w: World, node: Node, options: map<string, Value>, directory: string, rt: Runtime)
    requires IsSet(options, "sourceContext") && IsSet(options, "targetContext")
    requires rt.shell(ShellCall(ViaExecute, [MkdirCommand(directory)], node)).None?
    requires rt.shell(FetchCall(w, options, directory)).None?
    requires Evaluate(w.confVars, directory, Files(options), rt).1.Err?
    ensures var (w', r) := Run(w, node, options, directory, rt);
      && r == Raised(Evaluate(w.confVars, directory, Files(options), rt).1.error)
      && w'.appOptions == w.appOptions
      && w'.files == w.files + Staged(directory, Files(options))
  {
    ValidationOrder(options);
    RunReachesResolve(w, node, options, directory, rt);
  }

  /**
   * A failing `mkdir -p` ends the run with the shell service's exception; the
   * fetch is never made, no file is staged and the options and the global
   * keep their values.
   */
  lemma MkdirFails(w: World, node: Node, options: map<string, Value>, directory: string, rt: Runtime)
    requires IsSet(options, "sourceContext") && IsSet(options, "targetContext")
    requires rt.shell(ShellCall(ViaExecute, [MkdirCommand(directory)], node)).Some?
    ensures var mkdir := ShellCall(ViaExecute, ["mkdir -p " + directory], node);
      Run(w, node, options, directory, rt) == (w.(log := w.log + [mkdir]), Raised(rt.shell(mkdir).value))
  {
    ValidationOrder(options);
  }

  /**
   * A failing fetch, after a successful `mkdir -p`, ends the run with the
   * shell service's exception before the `try` block: `contextConfiguration`
   * is not set, no file is staged and the global keeps its value.
   */
  lemma FetchFails(w: World, node: Node, options: map<string, Value>, directory: string, rt: Runtime)
    requires IsSet(options, "sourceContext") && IsSet(options, "targetContext")
    requires rt.shell(ShellCall(ViaExecute, [MkdirCommand(directory)], node)).None?
    requires rt.shell(FetchCall(w, options, directory)).Some?
    ensures var (w', r) := Run(w, node, options, directory, rt);
      && r == Raised(rt.shell(FetchCall(w, options, directory)).value)
      && w' == w.(log := w.log + [ShellCall(ViaExecute, [MkdirCommand(directory)], node), FetchCall(w, options, directory)])
  {
    ValidationOrder(options);
    var mkdir := ShellCall(ViaExecute, [MkdirCommand(directory)], node);
    assert w.log + [mkdir] + [FetchCall(w, options, directory)] == w.log + [mkdir, FetchCall(w, options, directory)];
  }

  /**
   * Unlinking the three staged files from a workspace that holds them leaves
   * none of them and changes nothing else. It ends normally unless warnings
   * throw and both contexts name the same overlay: then the second unlink of
   * that file raises.
   */
  lemma CleanupStaged(w: World, directory: string, options: map<string, Value>, warningsThrow: bool)
    requires Staged(directory, Files(options)) <= w.files
    ensures var files := Files(options);
      var (w', r) := Cleanup(w, [Path(directory, files.local), Path(directory, files.source), Path(directory, files.target)], warningsThrow);
      && w' == w.(files := w.files - Staged(directory, files))
      && r == if warningsThrow && files.source == files.target
              then Raised(UnlinkFailed(Path(directory, files.target))) else Done
  {
    var files := Files(options);
    var paths := [Path(directory, files.local), Path(directory, files.source), Path(directory, files.target)];
    CleanupEffect(w, paths, warningsThrow);
    StagedFiles(directory, options);
    OverlayFileInjective(Get(options, "sourceContext"), Get(options, "targetContext"));
    PathInjective(directory, files.source, files.target);
    assert paths[..0] == [] && paths[..1] == [paths[0]] && paths[..2] == [paths[0], paths[1]];
    var (w', r) := Cleanup(w, paths, warningsThrow);
    assert forall p :: p in paths <==> p in Staged(directory, files);
    if r.Raised? {
      var i :| 0 <= i < |paths| && r == Raised(UnlinkFailed(paths[i])) &&
               (paths[i] !in w.files || paths[i] in paths[..i]) &&
               forall p :: p in w'.files <==> p in w.files && p !in paths[..i];
      assert i == 2;
    }
  }

  /**
   * After a successful evaluation the option `contextConfiguration` holds
   * the merged credentials and none of the staged files is left, whatever
   * the outcome. The run ends normally unless warnings throw and both
   * contexts name the same overlay: then that file is unlinked twice and the
   * second unlink raises, after the option was set.
   */
  lemma SuccessfulEvaluation(w: World, node: Node, options: map<string, Value>, directory: string, rt: Runtime)
    requires IsSet(options, "sourceContext") && IsSet(options, "targetContext")
    requires rt.shell(ShellCall(ViaExecute, [MkdirCommand(directory)], node)).None?
    requires rt.shell(FetchCall(w, options, directory)).None?
    requires Evaluate(w.confVars, directory, Files(options), rt).1.Ok?
    ensures var (w', r) := Run(w, node, options, directory, rt);
      var files := Files(options);
      && w'.appOptions == w.appOptions["contextConfiguration" := Arr(Evaluate(w.confVars, directory, files, rt).1.value)]
      && w'.files == w.files - Staged(directory, files)
      && r == if rt.warningsThrow && files.source == files.target
              then Raised(UnlinkFailed(Path(directory, files.target))) else Done
  {
    ValidationOrder(options);
    RunReachesResolve(w, node, options, directory, rt);
    var files := Files(options);
    var w2 := w.(log := w.log + [ShellCall(ViaExecute, [MkdirCommand(directory)], node), FetchCall(w, options, directory)],
                 files := w.files + Staged(directory, files));
    var (globals, merged) := Evaluate(w2.confVars, directory, files, rt);
    CleanupStaged(w2.(confVars := globals, appOptions := w2.appOptions["contextConfiguration" := Arr(merged.value)]),
                  directory, options, rt.warningsThrow);
  }

  /**
   * A run that ends normally had both options set and both shell calls
   * succeed; its option `contextConfiguration` holds the merged credentials
   * and none of the staged files is left.
   */
  lemma SuccessfulRun(w: World, node: Node, options: map<string, Value>, directory: string, rt: Runtime)
    requires Run(w, node, options, directory, rt).1 == Done
    ensures IsSet(options, "sourceContext") && IsSet(options, "targetContext")
    ensures rt.shell(ShellCall(ViaExecute, [MkdirCommand(directory)], node)).None?
    ensures rt.shell(FetchCall(w, options, directory)).None?
    ensures Evaluate(w.confVars, directory, Files(options), rt).1.Ok?
    ensures var w' := Run(w, node, options, directory, rt).0;
      && w'.appOptions == w.appOptions["contextConfiguration" := Arr(Evaluate(w.confVars, directory, Files(options), rt).1.value)]
      && w'.files == w.files - Staged(directory, Files(options))
  {
    ValidationOrder(options);
    SuccessfulEvaluation(w, node, options, directory, rt);
  }

  // ---------------------------------------------------------------------
  // The task

  class GetContextConfigurationTask {
    const requiredOptions: seq<string> := RequiredOptions

    /** Fails for the first required option that is not set. */
    method AssertRequiredOptionsExist(options: map<string, Value>) returns (r: Outcome)
      ensures r == match FirstMissing(requiredOptions, options)
                   case None => Done
                   case Some(name) => Raised(MissingOption(name))
      ensures r.Done? <==> forall i :: 0 <= i < |requiredOptions| ==> IsSet(options, requiredOptions[i])
    {
      for i := 0 to |requiredOptions|
        invariant FirstMissing(requiredOptions, options) == FirstMissing(requiredOptions[i..], options)
        invariant forall j :: 0 <= j < i ==> IsSet(options, requiredOptions[j])
      {
        var optionName := requiredOptions[i];
        if !IsSet(options, optionName) {
          return Raised(MissingOption(optionName));
        }
        assert requiredOptions[i..][1..] == requiredOptions[i + 1..];
      }
      FirstMissingNone(requiredOptions, options);
      return Done;
    }

    /** Runs the task for `node` and `application`, staging files in `temporaryDirectory`. */
    method Execute(node: Node, application: Application, options: map<string, Value>,
                   env: Environment, temporaryDirectory: string, rt: Runtime) returns (r: Outcome)
      modifies application, env
      ensures (env.Snapshot(application), r) == Run(old(env.Snapshot(application)), node, options, temporaryDirectory, rt)
    {
      ghost var w0 := env.Snapshot(application);
      r := AssertRequiredOptionsExist(options);
      if r.Raised? {
        return;
      }

      var repositoryUrl := Get(application.options, "repositoryUrl");

      var mkdir := ShellCall(ViaExecute, [MkdirCommand(temporaryDirectory)], node);
      r := env.Shell(mkdir, {}, rt);
      if r.Raised? {
        return;
      }
      ghost var w1 := env.Snapshot(application);

      var localConfigFile := LocalConfigFile;
      var sourceConfigFile := OverlayFile(Get(options, "sourceContext"));
      var targetConfigFile := OverlayFile(Get(options, "targetContext"));
      var commands: seq<string> := [];
      commands := commands + [FetchCommand(temporaryDirectory, ToText(repositoryUrl), localConfigFile)];
      commands := commands + [FetchCommand(temporaryDirectory, ToText(repositoryUrl), sourceConfigFile)];
      commands := commands + [FetchCommand(temporaryDirectory, ToText(repositoryUrl), targetConfigFile)];
      var localhost := Node("localhost", "localhost");
      var files := ConfigFiles(localConfigFile, sourceConfigFile, targetConfigFile);
      assert commands == FetchCommands(temporaryDirectory, ToText(repositoryUrl), files);
      var fetch := ShellCall(ViaExecuteOrSimulate, commands, localhost);
      assert files == Files(options) && fetch == FetchCall(w0, options, temporaryDirectory);
      r := env.Shell(fetch, Staged(temporaryDirectory, files), rt);
      if r.Raised? {
        assert Validation(options).Done? && rt.shell(mkdir).None? && w1 == w0.(log := w0.log + [mkdir]);
        assert env.Snapshot(application) == w1.(log := w1.log + [fetch]);
        return;
      }
      RunReachesResolve(w0, node, options, temporaryDirectory, rt);
      assert env.Snapshot(application) ==
             w0.(log := w0.log + [mkdir, fetch], files := w0.files + Staged(temporaryDirectory, files));
      r := EvaluateAndCleanUp(application, env, temporaryDirectory, files, rt);
    }

    /**
     * The `try` block of `Execute`, on the files `files` staged in
     * `temporaryDirectory`.
     */
    method EvaluateAndCleanUp(application: Application, env: Environment, temporaryDirectory: string,
                              files: ConfigFiles, rt: Runtime) returns (r: Outcome)
      modifies application, env
      ensures (env.Snapshot(application), r) == Resolve(old(env.Snapshot(application)), temporaryDirectory, files, rt)
    {
      ghost var w0 := env.Snapshot(application);
      var base := env.Include(Path(temporaryDirectory, files.local), rt);
      if base.Err? {
        return Raised(base.error);
      }
      env.confVars := base.value;
      var source := env.Include(Path(temporaryDirectory, files.source), rt);
      if source.Err? {
        return Raised(source.error);
      }
      var configSource := ReadFields(env.confVars, SourceKeys, DbFields, rt.warningsThrow);
      if configSource.Err? {
        return Raised(configSource.error);
      }
      var target := env.Include(Path(temporaryDirectory, files.target), rt);
      if target.Err? {
        return Raised(target.error);
      }
      var configTarget := ReadFields(env.confVars, TargetKeys, DbFields, rt.warningsThrow);
      if configTarget.Err? {
        return Raised(configTarget.error);
      }
      assert Evaluate(w0.confVars, temporaryDirectory, files, rt) ==
             (env.confVars, Ok(ArrayMerge(configSource.value, configTarget.value)));
      application.SetOption("contextConfiguration", Arr(ArrayMerge(configSource.value, configTarget.value)));
      ghost var w1 := env.Snapshot(application);
      ghost var paths := [Path(temporaryDirectory, files.local), Path(temporaryDirectory, files.source), Path(temporaryDirectory, files.target)];
      assert Resolve(w0, temporaryDirectory, files, rt) == Cleanup(w1, paths, rt.warningsThrow);
      r := env.Unlink(Path(temporaryDirectory, files.local), rt.warningsThrow);
      if r.Raised? {
        return;
      }
      assert paths[1..] == [Path(temporaryDirectory, files.source), Path(temporaryDirectory, files.target)];
      ghost var w2 := env.Snapshot(application);
      assert Cleanup(w1, paths, rt.warningsThrow) == Cleanup(w2, paths[1..], rt.warningsThrow);
      r := env.Unlink(Path(temporaryDirectory, files.source), rt.warningsThrow);
      if r.Raised? {
        return;
      }
      assert paths[1..][1..] == [Path(temporaryDirectory, files.target)];
      ghost var w3 := env.Snapshot(application);
      assert Cleanup(w2, paths[1..], rt.warningsThrow) == Cleanup(w3, paths[1..][1..], rt.warningsThrow);
      r := env.Unlink(Path(temporaryDirectory, files.target), rt.warningsThrow);
      assert paths[1..][1..][1..] == [];
      assert Cleanup(w3, paths[1..][1..], rt.warningsThrow) == (env.Snapshot(application), r);
    }

    /** A dry run is the same call as `Execute`. */
    method Simulate(node: Node, application: Application, options: map<string, Value>,
                    env: Environment, temporaryDirectory: string, rt: Runtime) returns (r: Outcome)
      modifies application, env
      ensures (env.Snapshot(application), r) == Run(old(env.Snapshot(application)), node, options, temporaryDirectory, rt)
    {
      r := Execute(node, application, options, env, temporaryDirectory, rt);
    }
  }
}
