# NM Firebase loader — a verified model

`nm-fb-loader.js` is a browser bootstrap script with two jobs:

* **Thread identifier.** It publishes `nmComments.getThreadId()`. The result is
  `post:<postId>` when the page's `NM_THREAD.postId` is truthy. Otherwise it is
  `path:` followed by a normalised path. `cleanPath` picks the path source in
  this order: an explicit path, the canonical link's pathname,
  `location.pathname`, then `/`. It replaces a trailing `/index.htm` or
  `/index.html` (any case) with `/`. Last, it prepends `/` if the result lacks one.
* **Readiness gate and script injector.** It creates the `nmFirebaseReady`
  promise and its resolver, unless the promise already exists. If the Firebase SDK is
  already present (`window.firebase`, or a script whose src starts with
  `https://www.gstatic.com/firebasejs/`), it resolves the gate and stops.
  Otherwise, unless the loading flag is already set, it sets the flag and
  appends the three compat bundles one after another. Each bundle is appended
  only after the previous one has loaded. The gate resolves after the third
  bundle loads. The first load error is logged once, and the chain stops there.

The Dafny project has four modules:

* `Decimal` (`decimal.dfy`): how an integral `postId` number prints when it is
  concatenated to `'post:'`.
* `ThreadId` (`thread_id.dfy`): `cleanPath` and the thread-id computation, as
  pure functions. The DOM and URL lookups are inputs.
* `FirebaseLoader` (`loader.dfy`): the gate and the injector as a state
  machine. `State` holds the page globals the script writes. `Step` applies one
  event: `Evaluate` (one run of the script), `Microtasks` (the checkpoint at
  which the chain's first `addScript` runs), `LoadOk` and `LoadErr` (the
  pending script's events). `Run` applies a sequence of events. `Valid` is the
  invariant every reachable state keeps. The lemmas state the source's
  promises over single steps and over whole runs.
* `LoaderGlobals` (`loader_globals.dfy`): class `Loader`. Its fields are the
  globals. Its methods update those fields in place, as the script does. Each
  event method (`Evaluate`, `RunMicrotasks`, `OnLoad`, `OnError`) is proved to move the object from `Snapshot()` to
  `Step(Snapshot(), event)` and to keep `Valid`.

Two behaviours differ from what a first reading of the script's intent suggests. The model
keeps the code's behaviour:

* The presence check on line 6 runs before the loading-flag guard on line 8.
  It also matches the loader's own script tags. A second run of the script,
  after the first bundle has been appended, therefore resolves the gate at
  once, before the SDK has loaded (`ReEvaluationWhileAwaiting`,
  `ReEvaluationResolvesEarly`). The flag guard matters only in the window
  before that first append. A second run does not always leave the gate alone:
  that holds only inside that window.
* The strip runs before the leading `/` is added. So `index.html` becomes
  `/index.html`, and a second pass turns that into `/`. `cleanPath` is
  idempotent exactly when its source is not a bare `index.htm(l)`
  (`CleanPathIdempotent`).

## Model

| member | source | states |
|---|---|---|
| `Decimal.NumberToString` | nm-fb-loader.js:5 | the text of an integral number is non-empty and starts with `-` exactly when the number is negative (exact for safe integers, see below) |
| `Decimal.Digits` | nm-fb-loader.js:5 | the decimal text of a number is non-empty, all digits, and starts with `0` only for zero |
| `Decimal.ValueOfDigits` | nm-fb-loader.js:5 | reading the printed digits back gives the number (round trip) |
| `Decimal.NumberToStringInjective` | nm-fb-loader.js:5 | two numbers that print the same are equal |
| `ThreadId.PostIdText` | nm-fb-loader.js:5 | what `'post:' + m.postId` appends: empty only for the empty string, and a numeric id's text starts with `-` exactly when it is negative |
| `ThreadId.PathSource` | nm-fb-loader.js:4 | the chosen source is non-empty and is one of: the explicit path, the canonical pathname, `location.pathname`, `/` |
| `ThreadId.PathSourcePrecedence` | nm-fb-loader.js:4 | a truthy explicit path wins, and then the link and location are ignored; a non-empty canonical pathname comes next; a lookup that threw acts like no link; otherwise `location.pathname` or `/` |
| `ThreadId.IndexSuffixLastChar` | nm-fb-loader.js:4 | `IsIndexSuffix`, the pattern `\/index\.html?` under the `i` flag, matches only ten or eleven characters that start with `/`, have `.` seventh, and end in `m` or `l` up to case, never in `/` |
| `ThreadId.StripIndex` | nm-fb-loader.js:4 | the `.replace` either returns its input, or drops nine or ten characters at the very end, keeping everything before them and ending in `/` |
| `ThreadId.StripIndexReplacesSuffix` | nm-fb-loader.js:4 | `u` followed by `/index.htm` or `/index.html` in any ASCII case becomes `u/`, with `u` kept verbatim |
| `ThreadId.StripIndexKeepsOthers` | nm-fb-loader.js:4 | a string that ends in no index suffix is returned unchanged |
| `ThreadId.NoIndexLetterAtEnd` | nm-fb-loader.js:4 | a string whose last letter is not `m`/`l` (any case), e.g. one ending in `/`, is unchanged by the strip |
| `ThreadId.StripIndexIdempotent` | nm-fb-loader.js:4 | stripping twice is the same as stripping once |
| `ThreadId.Rooted` | nm-fb-loader.js:4 | the result starts with `/`: a path that already does is returned unchanged, and any other path gets one `/` in front |
| `ThreadId.CleanPath` | nm-fb-loader.js:4 | the cleaned path is non-empty and starts with `/` |
| `ThreadId.CleanPathIdempotent` | nm-fb-loader.js:4 | cleaning the result again returns it unchanged if and only if the source was not a bare `index.htm(l)` |
| `ThreadId.CleanSourceIdempotent` | nm-fb-loader.js:4 | one strip-and-root pass over its own output returns it unchanged if and only if the source is not a bare `index.htm(l)` |
| `ThreadId.CleanPathIdempotentWhenRooted` | nm-fb-loader.js:4 | a source that already starts with `/` gives a fixed point of `cleanPath` |
| `ThreadId.StripOrderExamples` | nm-fb-loader.js:4 | `/index.html/x` is unchanged, `index.html` gives `/index.html`, `/a/INDEX.HTM` gives `/a/` |
| `ThreadId.ComputeThreadId` | nm-fb-loader.js:5 | the id starts with `post:` exactly when the post id is truthy, and with `path:` exactly when it is not |
| `ThreadId.PostIdDecides` | nm-fb-loader.js:5 | with a truthy post id the id is `post:` plus its text, and the canonical path, link and location play no part |
| `ThreadId.PathIdWithoutPostId` | nm-fb-loader.js:4-5 | without a truthy post id the id is `path:` plus `cleanPath(m.canonicalPath)`, so its sixth character is `/` |
| `ThreadId.NumericPostIdsDistinct` | nm-fb-loader.js:5 | distinct non-zero numeric post ids give distinct thread ids |
| `ThreadId.ScenarioNumericPostId` | nm-fb-loader.js:5 | `{postId: 42}` gives `post:42` |
| `ThreadId.ScenarioCanonicalLink` | nm-fb-loader.js:4-5 | `{}` with canonical pathname `/foo/index.html` gives `path:/foo/` |
| `ThreadId.ScenarioLocation` | nm-fb-loader.js:4-5 | no metadata and no link, with location `/blog/post1`, gives `path:/blog/post1` |
| `ThreadId.ScenarioExplicitIndex` | nm-fb-loader.js:4-5 | explicit path `/a/b/index.html` gives `path:/a/b/` |
| `ThreadId.ScenarioEmpty` | nm-fb-loader.js:4-5 | empty explicit path and empty location give `path:/` |
| `FirebaseLoader.Init` | nm-fb-loader.js:3 | a page that has not run the script yet satisfies the invariant, with no flag, no scripts, no log and an unresolved gate |
| `FirebaseLoader.Valid` | nm-fb-loader.js:3-11 | a state that keeps the invariant holds at most the three modules' scripts and at most one log entry |
| `FirebaseLoader.EvaluateStep` | nm-fb-loader.js:3-8 | one run always leaves a gate and a thread id, appends and logs nothing itself, and changes the chain only by queueing it when the flag was clear, setting the flag |
| `FirebaseLoader.Step` | nm-fb-loader.js:3-11 | any one event only adds to the end of the appended scripts and of the log, at most one of each, and never lowers the number of gates created |
| `FirebaseLoader.Run` | nm-fb-loader.js:3-11 | over any sequence of events the appended scripts and the log only grow at the end, by at most one per event |
| `FirebaseLoader.OwnScriptsDetected` | nm-fb-loader.js:6-9 | every appended src starts with the detection prefix, and every appended script is deferred and marked `data-nm-firebase="1"` |
| `FirebaseLoader.StepPreservesValid` | nm-fb-loader.js:3-11 | every event keeps the invariant: the appended scripts are a prefix of the fixed module order; their count is tied to the chain; the only log entry is the failure of an aborted chain; the gate is resolved only when it exists and has a resolver; at most one gate is ever created; and after completion the gate is resolved exactly when a resolver is stored |
| `FirebaseLoader.GateCreatedOnlyWhenAbsent` | nm-fb-loader.js:3 | an existing gate and resolver are reused, and a resolved gate stays resolved; an absent gate is created once, with a resolver |
| `FirebaseLoader.PresenceCheckedBeforeFlag` | nm-fb-loader.js:6-8 | an SDK already present resolves the gate without touching the flag, the chain, the head or the log; otherwise a set flag makes the run append and resolve nothing; otherwise the flag is set and the chain queued |
| `FirebaseLoader.LoadOkAdvances` | nm-fb-loader.js:9-11 | a load event appends exactly the next module; after the last one it resolves the gate if a resolver is stored |
| `FirebaseLoader.LoadErrLogsOnce` | nm-fb-loader.js:9-11 | an error event logs `[NM Firebase Loader]` with `Failed to load <src>` of the failing script, and appends and resolves nothing |
| `FirebaseLoader.ReEvaluationWhileAwaiting` | nm-fb-loader.js:6 | a run while a script is pending detects the loader's own tag: the gate resolves, and nothing else changes |
| `FirebaseLoader.RunPreservesValid` | nm-fb-loader.js:3-11 | the invariant holds after any sequence of events |
| `FirebaseLoader.AppendOnly` | nm-fb-loader.js:9-10 | from a valid state, appended scripts are never removed or reordered, there are never more than three, and the k-th is always `ORIGIN + mods[k]` |
| `FirebaseLoader.AppendsFollowLoads` | nm-fb-loader.js:10 | over any run, the loads completed grow by at most the number of load events, and at most one script more than the loads completed is appended |
| `FirebaseLoader.AbortIsFinal` | nm-fb-loader.js:10-11 | after the first error, whatever events follow, nothing more is appended or logged and the chain stays aborted |
| `FirebaseLoader.ErrorNamesFailingScript` | nm-fb-loader.js:9-11 | at most one error is logged, and it names the src of the last appended script |
| `FirebaseLoader.ResolvedStaysResolved` | nm-fb-loader.js:3 | once resolved, the gate stays resolved over any run |
| `FirebaseLoader.LoadingStaysSet` | nm-fb-loader.js:6-8 | once set, the loading flag is never cleared, whatever events follow |
| `FirebaseLoader.IdleIgnoresEvents` | nm-fb-loader.js:8-10 | before the flag is set, microtasks and load events change nothing |
| `FirebaseLoader.LoadEventsResolveOnlyOnCompletion` | nm-fb-loader.js:10-11 | without re-running the script, only the final load event resolves the gate |
| `FirebaseLoader.SingleEvaluationGate` | nm-fb-loader.js:6-11 | on a page with no SDK, where the script runs once, the gate is resolved only after all three scripts have loaded, and then it is resolved exactly when a resolver is stored |
| `FirebaseLoader.ReEvaluationResolvesEarly` | nm-fb-loader.js:3-10 | running the script twice, with the microtask checkpoint in between, resolves the gate while the first script is still pending |
| `LoaderGlobals.Loader.constructor` | nm-fb-loader.js:3 | the globals before the script runs: no flag, no scripts, no log, an unresolved gate |
| `LoaderGlobals.Loader.ResolveGate` | nm-fb-loader.js:11 | calls the resolver only if one is stored |
| `LoaderGlobals.Loader.AddScript` | nm-fb-loader.js:9 | appends one deferred, marked script with src `ORIGIN + name`, and changes nothing else |
| `LoaderGlobals.Loader.Evaluate` | nm-fb-loader.js:3-8 | updates the globals in place exactly as `Step` does for one run, and keeps the invariant |
| `LoaderGlobals.Loader.RunMicrotasks` | nm-fb-loader.js:10 | the queued chain appends `firebase-app-compat.js`, as `Step` does, and keeps the invariant |
| `LoaderGlobals.Loader.OnLoad` | nm-fb-loader.js:9-11 | advances the chain in place as `Step` does for a load event, and keeps the invariant |
| `LoaderGlobals.Loader.OnError` | nm-fb-loader.js:9-11 | logs the failing src and aborts the chain in place as `Step` does for an error event, and keeps the invariant |

## Left out

- The DOM itself is left out: `document.querySelector`, `createElement`, `head.appendChild` and `Object.freeze`. Presence is modelled as booleans plus the sequence of appended tags. The canonical-link lookup and `new URL(...).pathname` are modelled as one input that is absent, a pathname, or a throw.
- Promise and event-loop mechanics are left out. The microtask hop between a load event and the next `addScript` is folded into the load event, because no script can run in between. Only the hop after a run is kept, as the `Microtasks` event. Resolving an already settled promise is the boolean `gateResolved` staying true.
- The `mods.forEach` loop that builds the promise chain is modelled by its effect: the `Chain` index that each load event advances.
- Whether the stored resolver belongs to the current promise is not modelled. A resolver defined by other code before the script runs is assumed to resolve the gate.
- `postId` values `true`, `NaN`, `Infinity` and non-integral numbers are not modelled. They print differently.
- `Decimal.NumberToString`: exact only for safe integers, at most 2^53 - 1 in magnitude. `NumberId` holds any integer, including ones no Number can hold (2^53 + 1). Above 2^53, JavaScript prints the shortest digits that round-trip to the same double, padded with zeros: `'post:' + 2**64` is `post:18446744073709552000`, where the model gives `post:18446744073709551616`. From 10^21 on it uses exponent notation. Modelling double rounding is out of scope.
- `FirebaseLoader.Init`: the model always starts with the loading flag clear and the gate unresolved. A page where other code already set `__nmFirebaseLoading` is not modelled; there, a run with no SDK present appends nothing (line 8). A page where a pre-existing `nmFirebaseReady` was already resolved is not modelled either. `Valid` ties the flag to the chain this loader built, and the model keeps that tie.
- Non-string values of `canonicalPath` are not modelled. A truthy non-string value makes `.replace` throw and ends the script.
- Strings are sequences of characters, not UTF-16 code units. The regular expression's case folding is modelled for ASCII letters, which is all that the `i` flag without `u` folds onto the pattern's letters.
- Fetching the scripts, running the loaded SDK, and how the console renders an entry are not modelled. Only the tag and the error message are kept.
