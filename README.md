# Reentrant database session manager and configuration loader — a Dafny model

This project models two small parts of a Python service.

1. `SessionManager` (`core/db/session.py`) shares one asynchronous database session across a call chain.
   - The first `async_start` creates the session.
   - A nested `async_start` returns the same session and increments `recursion_depth`. It also logs a "re-entering" warning.
   - Each `async_close` undoes one start. Only the close that balances the first start closes the session, and it does so once.
   - A close when no session is held only logs a warning.
   - `__aenter__` and `__aexit__` are `async_start` and `async_close`.
   - `_on_connect` sends `pragma foreign_keys=on` on every new connection whose URL starts with `sqlite`.
2. `ConfigLoader` (`core/config/config_loader.py`) checks the `llms`, `prompt` and `rag` sections of a parsed YAML document.
   - It indexes the LLM entries by their `provider`. A later entry replaces an earlier one with the same provider.
   - It stores the assembled `Config` in a class-level slot, which `get_config` reads.

`db_session.dfy` (module `DbSession`) has two layers.
- The manager's state as a value: `ScopeState`, with the transitions `Start` and `Close` and `Run` over call sequences. Lemmas about reference counting and nesting sit beside it.
- The manager as a class `SessionManager`. Its fields are `asyncSession` and `recursionDepth`. Ghost fields hold the history of created sessions, the number of closes and the number of warnings. Each method is proved to perform one step of the value-level machine.
- Sessions are objects of class `Session`. `new Session()` stands for the session factory, so sessions are compared by reference, as in Python. Each session has a ghost counter of how often it was closed.

`config_loader.dfy` (module `ConfigLoading`) has the config model.
- The section helpers are a method (`InitLlmsConfig`, which keeps the source's loop) and two functions.
- The class `ConfigLoader` holds the `config` slot.

`wrappers.dfy` holds the `Option` and `Result` types. The source's exceptions become `Err` values.

The first holder runs at depth 0, as in the code (`core/db/session.py:58-59`). `recursion_depth` counts the nested acquisitions beyond the first. An open manager with depth `d` therefore has `d + 1` outstanding acquisitions (`Holders`).

## Model

| member | source | states |
|---|---|---|
| `DbSession.OnConnectCommands` | core/db/session.py:41-50 | at most one command is sent; it is the foreign-key pragma, and it is sent exactly when the URL starts with "sqlite" |
| `DbSession.Start` | core/db/session.py:52-59 | keeps the invariant and leaves the manager open with one more holder; it creates a session only when none was held, closes nothing, and warns only on re-entry |
| `DbSession.Close` | core/db/session.py:61-70 | keeps the invariant and removes one holder (never going below zero); it closes a session exactly when the last holder leaves; with no holder it changes nothing except one warning |
| `DbSession.Run` | core/db/session.py:52-76 | every call sequence keeps the invariant, so a manager without a session has depth 0 and at most one created session is unclosed; the counters never decrease |
| `DbSession.RunHolders` | core/db/session.py:52-70 | after any call sequence the holder count is the saturating balance of starts over closes, and the manager is open exactly when that balance is positive |
| `DbSession.OpenIffUnreleased` | core/db/session.py:52-70 | from a closed manager, for any sequence that never closes more than it started, the manager is open exactly when starts outnumber closes, and the holder count equals their difference |
| `DbSession.StartMany` | core/db/session.py:52-59 | n starts add n holders; they create exactly one session if none was held (and n > 0), otherwise none, and they close nothing |
| `DbSession.CloseMany` | core/db/session.py:61-70 | k closes remove k holders, down to zero; they close the session exactly when they remove the last holder; every close beyond that adds one warning and nothing else |
| `DbSession.NestedStartsThenCloses` | core/db/session.py:52-76 | from closed, n >= 1 starts and then k closes create exactly one session; it stays open for k < n and is closed exactly once once k >= n; each close after the n-th only warns |
| `DbSession.ScopedUseRestores` | core/db/session.py:72-76 | an enter/exit pair leaves the holder count and openness unchanged; on a closed manager the pair creates and closes exactly one session |
| `DbSession.ClosingClosedIsNoOp` | core/db/session.py:61-64 | any number of closes on a closed manager leave it as it was, except for one warning per close |
| `DbSession.Session.constructor` | core/db/session.py:58 | the factory returns a session that has not been closed |
| `DbSession.Session.Close` | core/db/session.py:69 | closing a session records exactly one more close of it |
| `DbSession.SessionManager.Valid` | core/db/session.py:35-37 | object invariant: no session implies depth 0; the held session is the newest one and is unclosed; every other created session was closed exactly once; all created sessions are distinct |
| `DbSession.SessionManager.constructor` | core/db/session.py:24-39 | a new manager is closed (no session, depth 0), has created and closed nothing, and keeps its URL and echo flag |
| `DbSession.SessionManager.AsyncStart` | core/db/session.py:52-59 | performs `Start`; on an open manager it returns the held session (same object), creates none and adds 1 to the depth; on a closed one it returns a fresh, unclosed session, stores it at depth 0 and appends it to the history |
| `DbSession.SessionManager.AsyncClose` | core/db/session.py:61-70 | performs `Close`; with no session nothing changes; at depth > 0 the depth drops by 1 and the session stays held and unclosed; at depth 0 the held session is closed exactly once and cleared |
| `DbSession.SessionManager.AEnter` | core/db/session.py:72-73 | entering the context behaves as `AsyncStart` |
| `DbSession.SessionManager.AExit` | core/db/session.py:75-76 | leaving the context behaves as `AsyncClose` |
| `DbSession.NestedUse` | core/db/session.py:18-22 | two nested `async with` blocks get the same session object, and after both exit, plus one extra exit, it has been closed exactly once |
| `ConfigLoading.InitLlmsConfig` | core/config/config_loader.py:31-39 | fails with EmptyLlms when `llms` is absent or empty and with MissingProvider when an entry has no provider; otherwise the keys are exactly the providers, and each maps to the config of the last entry naming it |
| `ConfigLoading.IndexStep` | core/config/config_loader.py:36-38 | one loop iteration (storing entry n under its provider) turns the index of the first n entries into the index of the first n + 1 |
| `ConfigLoading.LaterDuplicateWins` | core/config/config_loader.py:37-38 | of two entries with the same provider, the later one (when no entry after it repeats that provider) is the one the index keeps |
| `ConfigLoading.InitPromptTemplateConfig` | core/config/config_loader.py:42-48 | fails (EmptyPrompt) exactly when `prompt` is absent or empty; otherwise builds the template config from that section |
| `ConfigLoading.InitRagConfig` | core/config/config_loader.py:51-57 | fails (EmptyRag) exactly when `rag` is absent or empty; otherwise builds the RAG config from that section |
| `ConfigLoading.FirstError` | core/config/config_loader.py:68-70 | a failed load reports the error of the first failing section, in the order llms, prompt, rag; EmptyLlms exactly when `llms` is empty |
| `ConfigLoading.ConfigLoader.constructor` | core/config/config_loader.py:22 | the class-level slot starts empty |
| `ConfigLoading.ConfigLoader.GetConfig` | core/config/config_loader.py:25-28 | fails with NotInitialized exactly when nothing is stored; otherwise returns the stored config unchanged |
| `ConfigLoading.ConfigLoader.FromDocument` | core/config/config_loader.py:68-80 | succeeds exactly when all three sections are usable; it then stores and returns the assembled config (LLM index, prompt section, rag section); on failure it raises the first error and leaves the slot unchanged |
| `ConfigLoading.LoadThenGet` | core/config/config_loader.py:72-80 | after a successful load, `get_config` returns exactly the loaded config; after a failed load, the slot is unchanged |

## Left out

- Engine and session-maker construction are not modelled (`create_async_engine`, `async_sessionmaker`, `event.listen`). The session factory is `new Session()`. The hook's effect is `OnConnectCommands`, a function of the URL.
- `AsyncSession.close()` is a foreign driver call. It is modelled only as a ghost close counter on the session.
- The logger is I/O. Each warning it logs is one increment of the ghost `warnings` counter. The debug message in `_on_connect` and the `stack_info` traces are not modelled.
- asyncio suspension, cancellation and concurrent use of one manager are not modelled. The source adds no locking, and each method is modelled as one atomic sequential step.
- `SessionManager.AExit`: the exception arguments of `__aexit__` are dropped. The source ignores them and returns None, so an exception in the block still propagates.
- The URL-validation and connection errors of the session factory are not modelled. This source does not raise them itself; they come from the driver.
- The YAML file read and `yaml.safe_load` in `from_file` are file I/O and a foreign parser. `FromDocument` takes the parsed document.
- A document whose root or sections have the wrong YAML type (for example a non-mapping root, which fails at `.get`) is not modelled. Sections are modelled as absent or as a list or mapping of string settings.
- The pydantic validation inside `LLMConfig(**...)`, `PromptTemplateConfig(**...)`, `RAGConfig(**...)` and `Config(...)` is foreign code. The constructors are total records of their fields.
- `PromptLoader.from_paths` (`core/config/config_loader.py:78`) is foreign code. It runs after the config has been stored, so its failure would not undo the store; the model stops at the store.
