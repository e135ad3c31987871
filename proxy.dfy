/**
 * A model of the deployment action proxy: a dispatcher that forwards a named
 * deployment action to one of eight collaborator operations, translates the
 * collaborator's boolean outcome into a `{success, message}` result, and
 * latches itself shut after the first failure.
 *
 * The collaborators themselves (the npm, git, catalog and project services)
 * are outside the model: what a collaborator operation returns for given
 * arguments is an input, the function `outcome`.
 */
module DeployProxy {

  datatype Option<+T> = None | Some(value: T)

  /** The eight collaborator operations the proxy can delegate to. */
  datatype Operation =
    | NpmBuild
    | CatalogTo
    | CatalogBack
    | ProjectStart
    | ProjectRestart
    | ProjectReplaceVersion
    | GitPush
    | GitPull

  /**
   * The error constants of the deploy-errors module. Their text is not part
   * of the model; they are distinct opaque values.
   */
  datatype ErrorConst =
    | BuildError
    | ToProjectError
    | BackDeployError
    | StartError
    | RestartError
    | ReplaceVersionError
    | PushError
    | PullError

  /** A result message: a fixed literal of the proxy, or an error constant. */
  datatype Message = Text(text: string) | Code(code: ErrorConst)

  /** The `{success, message}` envelope; `message == None` is JavaScript's undefined. */
  datatype CallResult = CallResult(success: bool, message: Option<Message>)

  const BlockedText: string := "no execution caused by error blocking"
  const SuccessText: string := "execute success"

  /** What every call returns once the proxy is latched shut. */
  const Blocked: CallResult := CallResult(false, Some(Text(BlockedText)))

  /** What a call whose handler succeeded returns. */
  const Executed: CallResult := CallResult(true, Some(Text(SuccessText)))

  /** The case labels of the dispatch switch. */
  const ActionNames: set<string> := {
    "npm.build", "catalog.to", "catalog.back", "project.start",
    "project.restart", "project.replaceVersion", "git.push", "git.pull"
  }

  /** The case labels of the error-message switch. */
  const ErrorKeys: set<string> := {
    "build", "catalog.to", "catalog.back", "project.start",
    "project.restart", "project.replaceVersion", "git.push", "git.pull"
  }

  /** The dispatch case label that selects each operation. */
  function ActionName(op: Operation): string
  {
    match op
    case NpmBuild => "npm.build"
    case CatalogTo => "catalog.to"
    case CatalogBack => "catalog.back"
    case ProjectStart => "project.start"
    case ProjectRestart => "project.restart"
    case ProjectReplaceVersion => "project.replaceVersion"
    case GitPush => "git.push"
    case GitPull => "git.pull"
  }

  /**
   * The collaborator operation that the dispatch switch selects for an
   * action, or None when no case label matches. A selected operation is the
   * one whose label is exactly the action.
   */
  function Dispatch(action: string): (r: Option<Operation>)
    ensures r.Some? ==> ActionName(r.value) == action
  {
    match action
    case "npm.build" => Some(NpmBuild)
    case "catalog.to" => Some(CatalogTo)
    case "catalog.back" => Some(CatalogBack)
    case "project.start" => Some(ProjectStart)
    case "project.restart" => Some(ProjectRestart)
    case "project.replaceVersion" => Some(ProjectReplaceVersion)
    case "git.push" => Some(GitPush)
    case "git.pull" => Some(GitPull)
    case _ => None
  }

  /**
   * The error-message switch: the error constant for an action, or None
   * (undefined) for an action with no case label. Its keys are not the
   * dispatch labels: it has "build" where dispatch has "npm.build".
   */
  function ErrorMessage(action: string): (r: Option<ErrorConst>)
    ensures r.Some? <==> action in ErrorKeys
  {
    match action
    case "build" => Some(BuildError)
    case "catalog.to" => Some(ToProjectError)
    case "catalog.back" => Some(BackDeployError)
    case "project.start" => Some(StartError)
    case "project.restart" => Some(RestartError)
    case "project.replaceVersion" => Some(ReplaceVersionError)
    case "git.push" => Some(PushError)
    case "git.pull" => Some(PullError)
    case _ => None
  }

  /** The result of a call whose handler did not succeed. */
  function Failed(action: string): CallResult
  {
    CallResult(false, match ErrorMessage(action)
                      case Some(c) => Some(Code(c))
                      case None => None)
  }

  /**
   * What the handler reports for an action: the selected collaborator's
   * outcome on the arguments, and false when no operation is selected.
   */
  predicate Handles<A>(action: string, args: A, outcome: (Operation, A) -> bool)
  {
    match Dispatch(action)
    case Some(op) => outcome(op, args)
    case None => false
  }

  /**
   * One call as a transition of the latch: from the flag before the call and
   * the handler's outcome to the flag after the call and the call's result.
   * When the flag is false the handler's outcome is not consulted.
   */
  function Step(nonBlocking: bool, action: string, handled: bool): (bool, CallResult)
  {
    if !nonBlocking then (false, Blocked)
    else if handled then (true, Executed)
    else (false, Failed(action))
  }

  class Proxy {
    /** True until the first failed call; nothing sets it back. */
    var nonBlocking: bool

    constructor ()
      ensures nonBlocking
    {
      nonBlocking := true;
    }

    /**
     * Runs the dispatch switch: invokes at most one collaborator operation,
     * the one whose label is the action, and reports its outcome; for an
     * action with no label it invokes nothing and reports false.
     * `invoked` is the collaborator operation that was called.
     */
    method ActionHandler<A>(action: string, args: A, outcome: (Operation, A) -> bool)
      returns (success: bool, invoked: Option<Operation>)
      ensures invoked == Dispatch(action)
      ensures invoked.Some? ==> ActionName(invoked.value) == action
      ensures success <==> invoked.Some? && outcome(invoked.value, args)
    {
      success := false;
      invoked := None;
      match action
      case "npm.build" =>
        success := outcome(NpmBuild, args);
        invoked := Some(NpmBuild);
      case "catalog.to" =>
        success := outcome(CatalogTo, args);
        invoked := Some(CatalogTo);
      case "catalog.back" =>
        success := outcome(CatalogBack, args);
        invoked := Some(CatalogBack);
      case "project.start" =>
        success := outcome(ProjectStart, args);
        invoked := Some(ProjectStart);
      case "project.restart" =>
        success := outcome(ProjectRestart, args);
        invoked := Some(ProjectRestart);
      case "project.replaceVersion" =>
        success := outcome(ProjectReplaceVersion, args);
        invoked := Some(ProjectReplaceVersion);
      case "git.push" =>
        success := outcome(GitPush, args);
        invoked := Some(GitPush);
      case "git.pull" =>
        success := outcome(GitPull, args);
        invoked := Some(GitPull);
      case _ =>
    }

    /**
     * Calls a deployment action. A latched proxy invokes nothing and returns
     * the blocked result; otherwise the handler runs, a success is reported
     * as such, and a failure (an unknown action included) latches the proxy
     * and reports the action's error constant.
     */
    method Call<A>(action: string, args: A, outcome: (Operation, A) -> bool)
      returns (r: CallResult, invoked: Option<Operation>)
      modifies this
      ensures !old(nonBlocking) ==> invoked == None && r == Blocked && !nonBlocking
      ensures old(nonBlocking) ==> invoked == Dispatch(action)
      ensures old(nonBlocking) && Handles(action, args, outcome) ==> r == Executed && nonBlocking
      ensures old(nonBlocking) && !Handles(action, args, outcome) ==> r == Failed(action) && !nonBlocking
      ensures (nonBlocking, r) == Step(old(nonBlocking), action, Handles(action, args, outcome))
    {
      if !nonBlocking {
        return Blocked, None;
      }
      var success;
      success, invoked := ActionHandler(action, args, outcome);
      if success {
        r := Executed;
      } else {
        nonBlocking := false;
        r := Failed(action);
      }
    }
  }

  /** Every operation is selected by its own label. */
  lemma DispatchSelectsByLabel(op: Operation)
    ensures Dispatch(ActionName(op)) == Some(op)
  {
  }

  /** Dispatch selects an operation for exactly the eight case labels. */
  lemma DispatchDomain(action: string)
    ensures Dispatch(action).Some? <==> action in ActionNames
  {
  }

  /** The two switches agree on every key but one each: "build" against "npm.build". */
  lemma ErrorKeysMismatch()
    ensures ErrorKeys - ActionNames == {"build"}
    ensures ActionNames - ErrorKeys == {"npm.build"}
  {
  }

  /**
   * Among dispatchable actions the failure result carries an error constant
   * for all but "npm.build", whose failure message is undefined.
   */
  lemma FailureMessageDefined(action: string)
    requires Dispatch(action).Some?
    ensures Failed(action).message.None? <==> action == "npm.build"
  {
  }

  /** Distinct keys of the error-message switch yield distinct constants. */
  lemma ErrorMessageInjective(a: string, b: string)
    requires ErrorMessage(a).Some? && ErrorMessage(a) == ErrorMessage(b)
    ensures a == b
  {
  }

  /**
   * One call as the handler of a sequential caller sees it: the action and
   * what the handler would report for it.
   */
  datatype Attempt = Attempt(action: string, handled: bool)

  /** The flag after, and the results of, a sequence of calls made one after another. */
  function Run(nonBlocking: bool, attempts: seq<Attempt>): (r: (bool, seq<CallResult>))
    ensures |r.1| == |attempts|
    ensures r.0 ==> nonBlocking
    decreases |attempts|
  {
    if attempts == [] then (nonBlocking, [])
    else
      var (next, result) := Step(nonBlocking, attempts[0].action, attempts[0].handled);
      var (last, results) := Run(next, attempts[1..]);
      (last, [result] + results)
  }

  /** A latched proxy stays latched and answers every later call with the blocked result. */
  lemma {:induction false} RunWhileBlocked(attempts: seq<Attempt>)
    ensures !Run(false, attempts).0
    ensures forall i :: 0 <= i < |attempts| ==> Run(false, attempts).1[i] == Blocked
    decreases |attempts|
  {
    if attempts != [] {
      RunWhileBlocked(attempts[1..]);
    }
  }

  /**
   * The result of the i-th call of a fresh proxy: the call's own outcome
   * while every earlier handler succeeded, the blocked result otherwise.
   */
  lemma {:induction false} RunResult(attempts: seq<Attempt>, i: nat)
    requires i < |attempts|
    ensures Run(true, attempts).1[i] ==
      if forall k :: 0 <= k < i ==> attempts[k].handled
      then Step(true, attempts[i].action, attempts[i].handled).1
      else Blocked
    decreases |attempts|
  {
    var head := attempts[0];
    var next := Step(true, head.action, head.handled).0;
    if i > 0 {
      if next {
        RunResult(attempts[1..], i - 1);
        if forall k :: 0 <= k < i - 1 ==> attempts[1..][k].handled {
          assert forall k :: 0 <= k < i ==> attempts[k].handled by {
            forall k | 0 <= k < i ensures attempts[k].handled {
              if k > 0 { assert attempts[1..][k - 1] == attempts[k]; }
            }
          }
        } else {
          var k :| 0 <= k < i - 1 && !attempts[1..][k].handled;
          assert !attempts[k + 1].handled;
        }
      } else {
        RunWhileBlocked(attempts[1..]);
        assert !attempts[0].handled;
      }
    }
  }

  /** A fresh proxy is still open after a sequence of calls iff every handler succeeded. */
  lemma {:induction false} RunStaysOpen(attempts: seq<Attempt>)
    ensures Run(true, attempts).0 <==> forall k :: 0 <= k < |attempts| ==> attempts[k].handled
    decreases |attempts|
  {
    if attempts != [] {
      if attempts[0].handled {
        RunStaysOpen(attempts[1..]);
        assert forall k :: 1 <= k < |attempts| ==> attempts[k] == attempts[1..][k - 1];
      } else {
        RunWhileBlocked(attempts[1..]);
      }
    }
  }

  /** After a failed call, every later call of the sequence returns the blocked result. */
  lemma FailureIsPermanent(attempts: seq<Attempt>, i: nat, j: nat)
    requires i < j < |attempts|
    requires !Run(true, attempts).1[i].success
    ensures Run(true, attempts).1[j] == Blocked
  {
    RunResult(attempts, i);
    RunResult(attempts, j);
    if forall k :: 0 <= k < i ==> attempts[k].handled {
      assert !attempts[i].handled;
    }
  }

  /**
   * A build that succeeds, then a push that fails, then a start: the start
   * is answered with the blocked result and invokes no collaborator.
   */
  method BuildPushStart() returns (built: CallResult, pushed: CallResult, started: CallResult, invoked: Option<Operation>)
    ensures built == Executed
    ensures pushed == CallResult(false, Some(Code(PushError)))
    ensures started == Blocked && invoked == None
  {
    var proxy := new Proxy();
    var outcome := (op: Operation, args: seq<string>) => op != GitPush;
    built, invoked := proxy.Call("npm.build", [], outcome);
    pushed, invoked := proxy.Call("git.push", ["origin"], outcome);
    started, invoked := proxy.Call("project.start", [], outcome);
  }

  /**
   * An unknown action fails with an undefined message and latches the proxy,
   * so a following build is not attempted although it would succeed.
   */
  method UnknownActionLatches() returns (unknown: CallResult, build: CallResult, invoked: Option<Operation>)
    ensures unknown == CallResult(false, None)
    ensures build == Blocked && invoked == None
  {
    var proxy := new Proxy();
    var outcome := (op: Operation, args: seq<string>) => true;
    unknown, invoked := proxy.Call("unknown.action", [], outcome);
    build, invoked := proxy.Call("npm.build", [], outcome);
  }
}
