/**
 * The collaborators of a deployment task that the task changes or asks:
 * nodes, the calls it makes to the shell command service, the application
 * whose options it sets, and the machine it runs on (the shell service's
 * record of calls, the files of the temporary workspace and the PHP global
 * `$GLOBALS['TYPO3_CONF_VARS']`). What they answer is given by a `Runtime`.
 */
module Surf {
  import opened Wrappers
  import opened Php

  /** A deployment node, by its name and host name. */
  datatype Node = Node(name: string, hostname: string)

  /**
   * The entry point of the shell command service a call went through:
   * `execute` always runs the command, `executeOrSimulate` is the one a dry
   * run may only log.
   */
  datatype Via = ViaExecute | ViaExecuteOrSimulate

  /** One call to the shell command service: its commands, run on `node`. */
  datatype ShellCall = ShellCall(via: Via, commands: seq<string>, node: Node)

  /**
   * What `include <path>` did: the value of `$GLOBALS['TYPO3_CONF_VARS']`
   * when the included code stopped, the value the file returned, and the
   * exception it threw, if any.
   */
  datatype Evaluation = Evaluation(globals: Value, returned: Value, raised: Option<Exception>)

  /**
   * The behaviour of everything the task calls but this model cannot see:
   * - `shell`: the exception the shell command service throws for a call, if any;
   * - `evaluate`: what including a file does, given the current value of
   *   `$GLOBALS['TYPO3_CONF_VARS']` and the file's path;
   * - `warningsThrow`: whether the error handler turns PHP notices and
   *   warnings into exceptions.
   */
  datatype Runtime = Runtime(
    shell: ShellCall -> Option<Exception>,
    evaluate: (Value, string) -> Evaluation,
    warningsThrow: bool)

  /** The state the task can change, as one value. */
  datatype World = World(
    log: seq<ShellCall>,
    files: set<string>,
    confVars: Value,
    appOptions: map<string, Value>)

  /** `unlink($path)`: the files left and how the call ended. */
  function Unlinked(files: set<string>, path: string, warningsThrow: bool): (r: (set<string>, Outcome))
    ensures path !in r.0 && r.0 <= files && files - {path} <= r.0
    ensures r.1.Raised? <==> warningsThrow && path !in files
    ensures r.1.Raised? ==> r.1 == Raised(UnlinkFailed(path))
  {
    if path in files then (files - {path}, Done)
    else if warningsThrow then (files, Raised(UnlinkFailed(path)))
    else (files, Done)
  }

  /** The application being deployed, reduced to its options. */
  class Application {
    var options: map<string, Value>

    constructor (options: map<string, Value>)
      ensures this.options == options
    {
      this.options := options;
    }

    method SetOption(key: string, value: Value)
      modifies this
      ensures options == old(options)[key := value]
    {
      options := options[key := value];
    }
  }

  /**
   * The machine the task runs on: the calls made to the shell command
   * service so far, the files present in the workspace, and the current
   * value of `$GLOBALS['TYPO3_CONF_VARS']`.
   */
  class Environment {
    var log: seq<ShellCall>
    var files: set<string>
    var confVars: Value

    constructor (files: set<string>, confVars: Value)
      ensures log == [] && this.files == files && this.confVars == confVars
    {
      log := [];
      this.files := files;
      this.confVars := confVars;
    }

    /** This machine together with the options of `app`. */
    function Snapshot(app: Application): World
      reads this, app
    {
      World(log, files, confVars, app.options)
    }

    /**
     * Hands `call` to the shell command service. When it succeeds, the
     * files `stages` that its commands extract are in the workspace.
     */
    method Shell(call: ShellCall, stages: set<string>, rt: Runtime) returns (r: Outcome)
      modifies this
      ensures log == old(log) + [call] && confVars == old(confVars)
      ensures rt.shell(call).Some? ==> r == Raised(rt.shell(call).value) && files == old(files)
      ensures rt.shell(call).None? ==> r == Done && files == old(files) + stages
    {
      log := log + [call];
      match rt.shell(call)
      case Some(e) =>
        r := Raised(e);
      case None =>
        files := files + stages;
        r := Done;
    }

    /** `include $path`: runs the file against `$GLOBALS['TYPO3_CONF_VARS']`. */
    method Include(path: string, rt: Runtime) returns (r: Result<Value, Exception>)
      modifies this
      ensures log == old(log) && files == old(files)
      ensures confVars == rt.evaluate(old(confVars), path).globals
      ensures r == match rt.evaluate(old(confVars), path).raised
                   case Some(e) => Err(e)
                   case None => Ok(rt.evaluate(old(confVars), path).returned)
    {
      var evaluation := rt.evaluate(confVars, path);
      confVars := evaluation.globals;
      r := match evaluation.raised
           case Some(e) => Err(e)
           case None => Ok(evaluation.returned);
    }

    /** `unlink($path)`. */
    method Unlink(path: string, warningsThrow: bool) returns (r: Outcome)
      modifies this
      ensures log == old(log) && confVars == old(confVars)
      ensures (files, r) == Unlinked(old(files), path, warningsThrow)
    {
      if path in files {
        files := files - {path};
        r := Done;
      } else if warningsThrow {
        r := Raised(UnlinkFailed(path));
      } else {
        r := Done;
      }
    }
  }
}
