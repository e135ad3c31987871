# Deployment action proxy

A Dafny model of the `Proxy` class of the deploy service: the router that a
deployment pipeline calls with an action name such as `npm.build` or
`git.push`. The proxy forwards the call to one of eight collaborator
operations (build, move into the project directory, move back, start,
restart, replace the version, push, pull) and wraps the collaborator's
boolean outcome in a `{success, message}` result. It also holds a one-way
latch, `nonBlocking`, that is set by the constructor and cleared by the
first failed call. Once it is cleared, every later call returns the
blocked result and invokes nothing.

Everything is in `proxy.dfy`, module `DeployProxy`:

- `Operation` lists the eight collaborator operations. `ErrorConst` lists the
  eight constants of the deploy-errors module. `CallResult` is the result
  envelope; a message of `None` stands for JavaScript's `undefined`.
- `Dispatch` is the dispatch switch as a table. `ActionName` is its inverse.
  `ErrorMessage` is the error-message switch.
- `Proxy` is the class. It has the `nonBlocking` field, the constructor,
  `ActionHandler` and `Call`. A collaborator's outcome is an input to these
  methods: the function `outcome`, applied to the selected operation and to
  the arguments, which are forwarded unchanged. `ActionHandler` and `Call`
  also return `invoked`, the collaborator operation that was called, if any.
  This makes "nothing was invoked" something a contract can state.
- `Step` is one call seen as a transition of the latch. `Run` is a sequence
  of calls made one after another. The lemmas about `Run` state that
  blocking is permanent.

The two switches do not use the same keys. The error-message switch has
`build` where the dispatch switch has `npm.build`. So a failed `npm.build`
returns `{success: false, message: undefined}`. The model keeps this
behaviour as the code has it. `ErrorKeysMismatch` and
`FailureMessageDefined` state it.

## Model

| member | source | states |
|---|---|---|
| `DeployProxy.Proxy.constructor` | server/service/proxy.js:20-22 | a new proxy is non-blocking |
| `DeployProxy.Dispatch` | server/service/proxy.js:35-60 | an operation is selected only by the case label that names it; otherwise no operation is selected |
| `DeployProxy.DispatchSelectsByLabel` | server/service/proxy.js:36-59 | each of the eight operations is selected by its own label, so labels and operations are in one-to-one correspondence |
| `DeployProxy.DispatchDomain` | server/service/proxy.js:35-60 | an action selects an operation if and only if it is one of the eight case labels |
| `DeployProxy.Proxy.ActionHandler` | server/service/proxy.js:30-63 | the operation invoked is the one dispatch selects for the action, and the reported success is that operation's outcome on the arguments; an unmatched action invokes nothing and reports false |
| `DeployProxy.ErrorMessage` | server/service/proxy.js:82-99 | an error constant is defined exactly for the eight keys `build`, `catalog.to`, `catalog.back`, `project.start`, `project.restart`, `project.replaceVersion`, `git.push`, `git.pull`; any other action, `npm.build` included, gives undefined |
| `DeployProxy.ErrorMessageInjective` | server/service/proxy.js:82-99 | two keys that give the same defined error constant are the same key |
| `DeployProxy.ErrorKeysMismatch` | server/service/proxy.js:82-99 | the error keys and the dispatch labels differ only in `build` (error table only) and `npm.build` (dispatch only) |
| `DeployProxy.FailureMessageDefined` | server/service/proxy.js:123-129 | for a dispatchable action, the failure message is undefined if and only if the action is `npm.build` |
| `DeployProxy.Proxy.Call` | server/service/proxy.js:108-131 | a latched proxy returns the blocked result, invokes nothing and stays latched; an open proxy invokes the dispatched operation; on success it returns `execute success` and stays open; on failure, an unknown action included, it latches and returns the action's error message |
| `DeployProxy.Run` | server/service/proxy.js:108-131 | a sequence of calls gives one result per call, and the proxy can be open at the end only if it was open at the start |
| `DeployProxy.RunWhileBlocked` | server/service/proxy.js:109-114 | after the latch is set, every later call, whatever its action, returns the same blocked result and the latch stays set |
| `DeployProxy.RunResult` | server/service/proxy.js:108-131 | the i-th call of a fresh proxy returns its own outcome if every earlier handler succeeded, and the blocked result otherwise |
| `DeployProxy.RunStaysOpen` | server/service/proxy.js:118-124 | after a sequence of calls, a fresh proxy is still open if and only if every handler succeeded |
| `DeployProxy.FailureIsPermanent` | server/service/proxy.js:123-124 | once a call fails, every later call in the sequence returns the blocked result |
| `DeployProxy.BuildPushStart` | server/service/proxy.js:108-131 | a successful build, then a failed push, then a start: the push reports the push error, and the start is blocked and invokes nothing |
| `DeployProxy.UnknownActionLatches` | server/service/proxy.js:123-129 | an unknown action fails with an undefined message and latches the proxy, so a following build is blocked and not invoked |

## Left out

- The collaborator modules `npm`, `git`, `catalog` and `project` (server/service/proxy.js:10-13) are not part of this model. They run subprocesses and do filesystem and network work. Their result is the input function `outcome`.
- The deploy-errors module (server/service/proxy.js:7) is not part of this model. Its eight constants are distinct opaque values (`ErrorConst`), assumed to differ from the proxy's two literal messages.
- The `console.info` log line (server/service/proxy.js:33) is output only.
- `async`/`await`: calls are modelled as sequential and each collaborator call as finishing before the proxy continues. Concurrent calls of `call` on one instance, and races on the flag, are not modelled.
- Exceptions thrown by a collaborator are not modelled. The source does not catch them.
- A collaborator that resolves to a non-boolean value is not modelled: `outcome` returns a boolean, so JavaScript truthiness does not arise.
