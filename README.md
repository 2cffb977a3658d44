# ucx-py public API lifecycle, modelled in Dafny

This project models the Python layer of ucx-py's public API (`ucp/public_api.py`):
the single, lazily created UCX application context held in the module global
`_ctx`, the explicit `init` (which can let environment variables override the
caller's options by deleting keys from the caller's dict in place),
`get_config`, and `reset`, which empties the slot and then raises `UCXError`
listing every object that still references the old context. It also models the
`Listener` handle, whose `close` destroys the native listening service at most
once, whether it is called directly, again, or from finalisation.

Layout:

- `wrappers.dfy` — `Option`, standing for Python's `None` and for "raised or not".
- `options.dfy` — the option dict (`OptionDict`, updated in place), key
  filtering, and the configuration a native context runs with.
- `leak.dfy` — the objects still referencing a context, and the leak message
  `reset` builds from them (`BuildLeakMessage` has the source's loop).
- `context.dfy` — the abstract state `Api`, one step function per operation,
  the class `Ucp` whose fields are the module globals and whose methods are
  proved to follow the step functions, and lemmas over single steps and over
  whole call sequences (`Run`).
- `listener.dfy` — `ListenerState` and its step functions, and the class
  `Listener` with the fields `_closed` and `_b` and a ghost count of backend
  `destroy` calls.

Abstractions of what the Python code relies on but does not define:

- A native `ApplicationContext` is `NativeContext(token, config)`. Each creation
  takes a fresh identity from the counter `nextToken`, standing for a new Python
  object.
- The configuration a context runs with is `Effective(env, options)`: the
  environment, overridden by the options passed explicitly. `init`'s docstring
  (`ucp/public_api.py:54-56`) implies this order. It is an assumption about the
  native library, not code this repository contains.
- Garbage-collected reachability is an explicit registry `holders` of live
  Endpoints and Listeners, each naming the context it references and carrying
  the text `"%s" % o` renders it as. `Referrers` stands for `gc.get_referrers`.
- `core.get_config()` without a context is taken to return `DefaultConfig(env)`,
  the configuration `core.ApplicationContext()` would run with.
- The process environment is a map fixed when the module is loaded.
- `Release` stands for an object dropping its reference to the context: a
  Listener's `close` setting `self._b = None` (line 206), an Endpoint's `close`,
  or a collection. The registry's listener holders and the `Listener` class of
  `listener.dfy` are separate models; nothing joins `Listener.Close` to `Release`.

The comment at `ucp/public_api.py:11-13` says the module should only
instantiate one application context, but `reset` empties `_ctx` (line 164)
before its leak check, so after a failed `reset` the next API call creates a
second context while the leaked one is still alive
(`Context.LeakedContextOutlivesReset` for one trace,
`Context.RaisingResetThenNewContext` for every state).

## Model

| member | source | states |
|---|---|---|
| `Options.FilteredExactly` | ucp/public_api.py:64-67 | filtering removes exactly the given keys and keeps every other key with its value |
| `Options.EnvironmentWins` | ucp/public_api.py:64-69 | after the environment's keys are dropped from the options, every environment variable has the environment's value in the context's configuration, and other options keep theirs |
| `Options.ExplicitOptionsWin` | ucp/public_api.py:54-56 | options passed unfiltered override the environment; environment variables not given as options keep their values |
| `Leak.Referrers` | ucp/public_api.py:172 | an object is listed exactly when it is a live holder that references the given context, and as many times as it is registered; with the distinct identities that `Context.Inv` keeps, each referencing object is listed exactly once |
| `Leak.NoReferrers` | ucp/public_api.py:166-172 | the referrer list is empty exactly when no live holder references the context |
| `Leak.BuildLeakMessage` | ucp/public_api.py:167-173 | the loop appending one line per referrer produces the header followed by the referrers' lines in order |
| `Leak.LeakMessageListsEach` | ucp/public_api.py:172-173 | the line of every referrer appears in the message, at the position after the lines of the referrers before it |
| `Leak.LeakMessageLineCount` | ucp/public_api.py:167-173 | when no referrer's text contains a line break, the message has the header's line breaks plus exactly one per referrer |
| `Context.Ucp.constructor` | ucp/public_api.py:14 | at import time the slot is empty and no object references a context |
| `Context.GetCtxCreatesOnce` | ucp/public_api.py:17-21 | `_get_ctx` creates a context (fresh identity, default configuration) only when the slot is empty; afterwards the slot holds the returned context and a second call returns it again without creating another |
| `Context.Ucp.GetCtx` | ucp/public_api.py:17-21 | the global slot and the returned context change as `_get_ctx` prescribes |
| `Context.InitRefusesWhenLive` | ucp/public_api.py:58-63 | `init` with a live context raises `RuntimeError` and changes neither the slot nor the caller's options |
| `Context.InitEnvironmentTakesPrecedence` | ucp/public_api.py:64-69 | with `env_takes_precedence`, the caller's options lose exactly the keys that are environment variables, the rest keep their values, and the slot holds a new context whose configuration takes every environment variable's value |
| `Context.InitOptionsTakePrecedence` | ucp/public_api.py:64-69 | without `env_takes_precedence`, the options are passed unchanged, and the new context in the slot takes every option's value |
| `Context.Ucp.Init` | ucp/public_api.py:43-69 | the loop over the environment deletes keys from the caller's dict in place; slot, dict and error end as `init` prescribes |
| `Context.ConfigAgreesWithLazyContext` | ucp/public_api.py:136-152 | given that the native `get_config()` without a context returns the configuration a default context would run with, `get_config` answers the same before and after `_get_ctx` creates the context |
| `Context.Ucp.GetConfig` | ucp/public_api.py:149-152 | `get_config` changes no state, even through its call to `_get_ctx`, and returns the defaults or the live context's configuration |
| `Context.ResetEmptiesSlot` | ucp/public_api.py:160-166 | `reset` on an empty slot changes nothing; on a live slot it leaves the slot empty whether or not it raises, and changes nothing else |
| `Context.ResetLeakIff` | ucp/public_api.py:165-174 | `reset` raises exactly when a live object still references the old context, and the error is `UCXError` with the message listing those objects |
| `Context.FreshContextAfterReset` | ucp/public_api.py:155-174 | after any `reset`, the next lazily created context has the default configuration, no object references it, and resetting it succeeds |
| `Context.LeakedContextOutlivesReset` | ucp/public_api.py:160-174 | create a listener, reset, call the API again: a second context is live while the listener still references the first |
| `Context.Ucp.Reset` | ucp/public_api.py:155-174 | the slot is empty afterwards whether or not `reset` raises, nothing else changes, and the error, when raised, is `UCXError` whose message is the leak message of the referrers, built by the message loop; the module's own reference to the context, the reason the source clears `_ctx` before the check, is not modelled |
| `Context.Ucp.CreateListener` | ucp/public_api.py:97 | obtains the context through `_get_ctx` and registers a new listener referencing it |
| `Context.Ucp.CreateEndpoint` | ucp/public_api.py:115 | obtains the context through `_get_ctx` and registers a new endpoint referencing it |
| `Context.Ucp.Release` | ucp/public_api.py:201-206 | dropping an object removes exactly its reference from the registry |
| `Context.AttachThenResetRaises` | ucp/public_api.py:97-115 | in every state, a Listener or Endpoint just created through `create_listener` or `create_endpoint` references the live context, so a `reset` right after raises and lists it |
| `Context.RaisingResetThenNewContext` | ucp/public_api.py:160-174 | whenever `reset` raises, the next `_get_ctx` creates a context with a new identity while some object still references the old one |
| `Context.OneContextUntilReset` | ucp/public_api.py:11-21 | once a context is live, any sequence of calls without `reset` keeps that same context in the slot and creates no other |
| `Context.InitialInv` | ucp/public_api.py:14 | the identity invariant holds at import time |
| `Context.AttachGivesFreshId` | ucp/public_api.py:97-115 | a new Endpoint or Listener gets an identity no live object has, so releasing it removes exactly that object |
| `Context.ApplyKeepsInv` | ucp/public_api.py:11-21 | every operation keeps every existing context's identity below the next one to be created, so a new context is never confused with an old one, and keeps the identities of live objects pairwise distinct |
| `Context.RunKeepsInv` | ucp/public_api.py:11-21 | the same holds after any sequence of API calls |
| `Listeners.OpenedIsOpen` | ucp/public_api.py:184-186 | a new listener is not closed and holds its backend |
| `Listeners.Listener.constructor` | ucp/public_api.py:184-186 | `_b` is the backend, `_closed` is false, no `destroy` call yet |
| `Listeners.Listener.Closed` | ucp/public_api.py:192-194 | `closed()` is true exactly when the listener no longer holds a backend |
| `Listeners.Listener.Close` | ucp/public_api.py:201-206 | the first `close` calls `destroy` once, sets closed and drops the backend; a later `close` changes nothing |
| `Listeners.Listener.Finalize` | ucp/public_api.py:188-190 | finalisation closes an open listener and leaves a closed one untouched |
| `Listeners.CloseIsIdempotent` | ucp/public_api.py:201-206 | after `close` the listener is closed without backend; a second `close` or a finalisation changes nothing |
| `Listeners.DestroyAtMostOnce` | ucp/public_api.py:188-206 | any sequence of `close` calls and finalisations adds one `destroy` call if the listener was open and the sequence is non-empty, none otherwise |
| `Listeners.LifetimeDestroysOnce` | ucp/public_api.py:184-206 | over a listener's whole life `destroy` runs at most once, and exactly once if it was closed or finalised |

## Left out

- The native `core` module: creating `ApplicationContext` (and its configuration errors), the native `create_listener` and `create_endpoint` (bind and connection errors, accept callbacks), `progress`, `get_ucp_worker`, `get_ucx_version`. These are foreign calls. Their effect on the modelled state is the lazy creation by the wrapper's own `_get_ctx` call and, for `create_listener` and `create_endpoint`, a new live object that references the context (a holder), which `CreateListener` and `CreateEndpoint` register.
- `progress` and `get_ucp_worker` (ucp/public_api.py:118-133): they call `_get_ctx` and then the native context; the call is modelled by `GetCtx`.
- `unbind_epoll_fd_to_event_loop` in `reset` and all asyncio plumbing: treated as having no effect on the slot or the leak check. A `create_endpoint` still awaiting its connection (line 115) keeps the context alive, so a `reset` in that window would raise; the model makes creation atomic and does not represent that window. Whether the event-loop registration undone at line 162 references the context is not visible in this source.
- `gc.collect`, `weakref` and `gc.get_referrers`: replaced by the explicit holder registry. The model treats the old context as alive exactly when a registered holder references it; other Python objects that might keep it alive, such as a caller's own variable, are not represented. The order of the referrers is the registry's order, not the collector's.
- Class `Endpoint`: every method delegates to the native endpoint; in the model an endpoint is only a holder of the context.
- `Listener.port`: it reads from the native backend.
- The process environment is fixed for the life of the module; `init` in Python reads `os.environ` at each call.
- The default argument `options={}` is one dict shared between calls; filtering never deletes from an empty dict, so it is modelled as a fresh empty `OptionDict`.
- `Listeners.Listener.Close`: the backend's `destroy` is taken to return normally. In the source it runs before `_closed` is set (lines 204-205), so if it raised the listener would stay open and a later `close` or finalisation would call it again; `DestroyAtMostOnce` and `LifetimeDestroysOnce` hold only for a `destroy` that returns.
- `Leak.LeakMessageLineCount`: states the line breaks of the message relative to those of the fixed header (which has none) rather than as an absolute count.
