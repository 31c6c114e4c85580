/**
 * The readiness gate and the script injector of the NM Firebase loader, as a
 * state machine over the page globals it touches.
 *
 * The Promise chain is recast as explicit events: `Evaluate` is one run of
 * the script, `Microtasks` is the microtask checkpoint after it (where the
 * first `addScript` runs), and `LoadOk` / `LoadErr` are the load and error
 * events of the script element that is pending.
 */
module FirebaseLoader {
  import opened ThreadId

  /** What `script[src^="https://www.gstatic.com/firebasejs/"]` looks for. */
  const SdkPrefix: string := "https://www.gstatic.com/firebasejs/"

  /** `ORIGIN`, the version-pinned base every appended src starts with. */
  const Origin: string := "https://www.gstatic.com/firebasejs/9.22.1/"

  /** `mods`, in the order they are appended. */
  const Modules: seq<string> := ["firebase-app-compat.js", "firebase-auth-compat.js", "firebase-firestore-compat.js"]

  const LogTag: string := "[NM Firebase Loader]"

  /** A `<script>` element the loader appends to `document.head`. */
  datatype ScriptTag = ScriptTag(src: string, deferred: bool, dataNmFirebase: string)

  /** `console.error(LogTag, new Error(message))`. */
  datatype LogEntry = ConsoleError(tag: string, message: string)

  /** Where the sequential chain built by `mods.forEach` stands. */
  datatype Chain =
    | Idle                    // the loading flag has never been set here
    | Queued                  // chain built, first `addScript` not yet run
    | Awaiting(index: nat)    // script `Modules[index]` appended, waiting for its event
    | Completed               // all three loaded; the final `then` ran
    | Aborted(index: nat)     // `Modules[index]` failed; the `catch` ran

  /** What one evaluation of the script reads from the page. */
  datatype Page = Page(
    firebaseGlobal: bool,        // `window.firebase` is truthy
    foreignSdkTag: bool,         // a gstatic script not appended by this loader is present
    meta: Option<ThreadMeta>,    // `window.NM_THREAD`
    canonical: CanonicalLink,    // the canonical link lookup
    location: string)            // `location.pathname`

  datatype Event = Evaluate(page: Page) | Microtasks | LoadOk | LoadErr

  /** The page globals and document state the loader reads and writes. */
  datatype State = State(
    gateExists: bool,            // `window.nmFirebaseReady` is truthy
    resolverPresent: bool,       // `window.__nmResolveFirebaseReady` is truthy
    gateResolved: bool,          // the readiness promise has been resolved
    gatesCreated: nat,           // how many promises line 3 created
    loading: bool,               // `window.__nmFirebaseLoading`
    appended: seq<ScriptTag>,    // scripts this loader appended to `<head>`, in order
    logged: seq<LogEntry>,       // `console.error` calls
    chain: Chain,
    threadId: Option<string>)    // what `nmComments.getThreadId()` returns

  /** The page before any evaluation: whatever other code defined the two
      gate globals, no flag, nothing appended or logged. */
  function Init(gateDefined: bool, resolverDefined: bool): (r: State)
    ensures Valid(r)
    ensures !r.gateResolved && !r.loading && r.appended == [] && r.logged == []
  {
    State(gateDefined, resolverDefined, false, 0, false, [], [], Idle, None)
  }

  predicate StartsWith(s: string, prefix: string) {
    |prefix| <= |s| && s[..|prefix|] == prefix
  }

  /** `addScript(name)`: a deferred script marked `data-nm-firebase="1"`. */
  function ScriptFor(name: string): ScriptTag {
    ScriptTag(Origin + name, true, "1")
  }

  function TagFor(k: nat): ScriptTag
    requires k < |Modules|
  {
    ScriptFor(Modules[k])
  }

  function FailureEntry(src: string): LogEntry {
    ConsoleError(LogTag, "Failed to load " + src)
  }

  /** Some script on the page has a src starting with `SdkPrefix`. */
  predicate SdkTagPresent(s: State, page: Page) {
    page.foreignSdkTag || exists i | 0 <= i < |s.appended| :: StartsWith(s.appended[i].src, SdkPrefix)
  }

  predicate SdkPresent(s: State, page: Page) {
    page.firebaseGlobal || SdkTagPresent(s, page)
  }

  /** `__nmResolveFirebaseReady && __nmResolveFirebaseReady()`. */
  function Resolve(s: State): State {
    s.(gateResolved := s.gateResolved || s.resolverPresent)
  }

  /** One run of the script (lines 3 to 10 of it, up to the chain). A run
      always leaves a gate and a thread id behind, and never appends or logs
      by itself: the chain's first `addScript` waits for `Microtasks`. */
  function EvaluateStep(s: State, page: Page): (r: State)
    ensures r.gateExists && r.threadId.Some?
    ensures r.appended == s.appended && r.logged == s.logged
    ensures r.chain != s.chain ==> !s.loading && r.loading && r.chain == Queued
  {
    // line 3: create the gate only when it is absent
    var s1 := if s.gateExists then s
              else s.(gateExists := true, resolverPresent := true, gateResolved := false,
                      gatesCreated := s.gatesCreated + 1);
    // line 5: publish the thread id
    var s2 := s1.(threadId := Some(ComputeThreadId(page.meta, page.canonical, page.location)));
    // line 6: already present -> resolve and stop
    if SdkPresent(s2, page) then Resolve(s2)
    // line 8: re-entry guard, then set the flag and build the chain
    else if s2.loading then s2
    else s2.(loading := true, chain := Queued)
  }

  /** One event. Scripts and log entries are only ever added at the end, at
      most one per event. */
  function Step(s: State, e: Event): (r: State)
    ensures s.appended <= r.appended && |r.appended| <= |s.appended| + 1
    ensures s.logged <= r.logged && |r.logged| <= |s.logged| + 1
    ensures s.gatesCreated <= r.gatesCreated
  {
    match e
    case Evaluate(page) => EvaluateStep(s, page)
    case Microtasks =>
      if s.chain.Queued? then s.(appended := s.appended + [TagFor(0)], chain := Awaiting(0)) else s
    case LoadOk =>
      if s.chain.Awaiting? && s.chain.index < |Modules| then
        if s.chain.index + 1 < |Modules| then
          s.(appended := s.appended + [TagFor(s.chain.index + 1)], chain := Awaiting(s.chain.index + 1))
        else Resolve(s.(chain := Completed))
      else s
    case LoadErr =>
      if s.chain.Awaiting? && s.chain.index < |Modules| then
        s.(logged := s.logged + [FailureEntry(TagFor(s.chain.index).src)], chain := Aborted(s.chain.index))
      else s
  }

  /** A sequence of events, applied in order. Over any run the appended
      scripts and the log only grow at the end, by at most one per event. */
  function Run(s: State, es: seq<Event>): (r: State)
    ensures s.appended <= r.appended && |r.appended| <= |s.appended| + |es|
    ensures s.logged <= r.logged && |r.logged| <= |s.logged| + |es|
    decreases |es|
  {
    if es == [] then s else Run(Step(s, es[0]), es[1..])
  }

  /** Number of scripts the chain has appended so far. */
  function AppendedCount(c: Chain): nat {
    match c
    case Idle => 0
    case Queued => 0
    case Awaiting(k) => k + 1
    case Completed => |Modules|
    case Aborted(k) => k + 1
  }

  /** Number of scripts that have fired their load event. */
  function Loaded(c: Chain): nat {
    match c
    case Idle => 0
    case Queued => 0
    case Awaiting(k) => k
    case Completed => |Modules|
    case Aborted(k) => k
  }

  /** The invariant every reachable state keeps. */
  predicate Valid(s: State)
    ensures Valid(s) ==> |s.appended| <= |Modules| && |s.logged| <= 1
  {
    && (s.gateResolved ==> s.gateExists && s.resolverPresent)
    && s.gatesCreated <= 1
    && (!s.gateExists ==> s.gatesCreated == 0)
    && (s.loading <==> !s.chain.Idle?)
    && (!s.chain.Idle? ==> s.gateExists)
    && ((s.chain.Awaiting? || s.chain.Aborted?) ==> s.chain.index < |Modules|)
    && |s.appended| == AppendedCount(s.chain)
    && (forall i | 0 <= i < |s.appended| :: s.appended[i] == TagFor(i))
    && s.logged == (if s.chain.Aborted? then [FailureEntry(TagFor(s.chain.index).src)] else [])
    && (s.chain.Completed? ==> s.gateResolved == s.resolverPresent)
  }

  predicate NoEvaluate(es: seq<Event>) {
    forall i | 0 <= i < |es| :: !es[i].Evaluate?
  }

  function CountLoadOk(es: seq<Event>): nat
    decreases |es|
  {
    if es == [] then 0 else (if es[0].LoadOk? then 1 else 0) + CountLoadOk(es[1..])
  }

  // ---------------------------------------------------------------------
  // One step
  // ---------------------------------------------------------------------

  /** Every src the loader appends is matched by its own detection selector. */
  lemma OwnScriptsDetected(k: nat)
    requires k < |Modules|
    ensures StartsWith(TagFor(k).src, SdkPrefix)
    ensures TagFor(k).deferred && TagFor(k).dataNmFirebase == "1"
  {
    assert (Origin + Modules[k])[..|SdkPrefix|] == Origin[..|SdkPrefix|];
  }

  lemma StepPreservesValid(s: State, e: Event)
    requires Valid(s)
    ensures Valid(Step(s, e))
  {
    var t := Step(s, e);
    match e
    case Evaluate(page) =>
    case Microtasks =>
    case LoadOk =>
      if s.chain.Awaiting? && s.chain.index + 1 < |Modules| {
        forall i | 0 <= i < |t.appended| ensures t.appended[i] == TagFor(i) {
          if i < |s.appended| { assert t.appended[i] == s.appended[i]; }
        }
      }
    case LoadErr =>
  }

  /** Line 3: an existing gate is reused, never replaced or un-resolved, and a
      missing one is created once, together with its resolver. */
  lemma GateCreatedOnlyWhenAbsent(s: State, page: Page)
    ensures var t := EvaluateStep(s, page);
            && t.gateExists
            && (s.gateExists ==> t.gatesCreated == s.gatesCreated && t.resolverPresent == s.resolverPresent
                                 && (s.gateResolved ==> t.gateResolved))
            && (!s.gateExists ==> t.gatesCreated == s.gatesCreated + 1 && t.resolverPresent)
  {
  }

  /** Lines 6 and 8: when the SDK is already on the page the gate is resolved
      and nothing else happens, whatever the loading flag says; otherwise a
      set flag makes the run append nothing and resolve nothing. */
  lemma PresenceCheckedBeforeFlag(s: State, page: Page)
    ensures var t := EvaluateStep(s, page);
            SdkPresent(s, page) ==>
              && t.loading == s.loading && t.chain == s.chain && t.appended == s.appended
              && t.logged == s.logged && (t.gateResolved <==> t.resolverPresent || s.gateResolved)
    ensures var t := EvaluateStep(s, page);
            !SdkPresent(s, page) && s.loading ==>
              && t.loading && t.chain == s.chain && t.appended == s.appended
              && t.logged == s.logged && t.gateResolved == (s.gateExists && s.gateResolved)
    ensures var t := EvaluateStep(s, page);
            !SdkPresent(s, page) && !s.loading ==>
              t.loading && t.chain == Queued && t.appended == s.appended
  {
  }

  /** Each load event appends the next module and nothing else; the last one
      resolves the gate instead. */
  lemma LoadOkAdvances(s: State)
    requires Valid(s) && s.chain.Awaiting?
    ensures var t := Step(s, LoadOk);
            if s.chain.index + 1 < |Modules| then
              t.appended == s.appended + [TagFor(s.chain.index + 1)] && t.gateResolved == s.gateResolved
            else
              t.appended == s.appended && t.chain == Completed && (t.gateResolved <==> s.resolverPresent)
  {
  }

  /** An error event logs one entry naming the failing src, appends nothing
      and leaves the gate as it was. */
  lemma LoadErrLogsOnce(s: State)
    requires Valid(s) && s.chain.Awaiting?
    ensures var t := Step(s, LoadErr);
            && t.logged == [ConsoleError("[NM Firebase Loader]", "Failed to load " + s.appended[|s.appended| - 1].src)]
            && t.appended == s.appended && t.gateResolved == s.gateResolved && t.chain.Aborted?
  {
  }

  /** Re-running the script while a script of the chain is pending: the
      loader's own first tag is detected, so the gate is resolved before the
      remaining scripts have loaded. */
  lemma ReEvaluationWhileAwaiting(s: State, page: Page)
    requires Valid(s) && s.chain.Awaiting?
    ensures var t := EvaluateStep(s, page);
            && t.gateResolved == s.resolverPresent
            && t.chain == s.chain && t.appended == s.appended && t.logged == s.logged
  {
    OwnScriptsDetected(0);
    assert StartsWith(s.appended[0].src, SdkPrefix);
  }

  // ---------------------------------------------------------------------
  // Runs
  // ---------------------------------------------------------------------

  lemma {:induction false} RunPreservesValid(s: State, es: seq<Event>)
    requires Valid(s)
    ensures Valid(Run(s, es))
    decreases |es|
  {
    if es != [] {
      StepPreservesValid(s, es[0]);
      RunPreservesValid(Step(s, es[0]), es[1..]);
    }
  }

  lemma {:induction false} RunConcat(s: State, a: seq<Event>, b: seq<Event>)
    ensures Run(s, a + b) == Run(Run(s, a), b)
    decreases |a|
  {
    if a == [] {
      assert a + b == b;
    } else {
      var s1 := Step(s, a[0]);
      assert (a + b)[0] == a[0];
      assert (a + b)[1..] == a[1..] + b;
      assert Run(s, a + b) == Run(s1, a[1..] + b);
      RunConcat(s1, a[1..], b);
      assert Run(s, a) == Run(s1, a[1..]);
    }
  }

  /** Scripts are only ever added at the end of what was appended, and the
      k-th one appended is always `Modules[k]`. */
  lemma AppendOnly(s: State, es: seq<Event>)
    requires Valid(s)
    ensures s.appended <= Run(s, es).appended && |Run(s, es).appended| <= |Modules|
    ensures forall i | 0 <= i < |Run(s, es).appended| :: Run(s, es).appended[i] == TagFor(i)
  {
    RunPreservesValid(s, es);
  }

  /** The script after the k-th is appended only after k load events: a run
      from a state with nothing loaded appends at most one script more than
      it has load events. */
  lemma {:induction false} AppendsFollowLoads(s: State, es: seq<Event>)
    requires Valid(s)
    ensures Loaded(Run(s, es).chain) <= Loaded(s.chain) + CountLoadOk(es)
    ensures |Run(s, es).appended| <= Loaded(s.chain) + CountLoadOk(es) + 1
    decreases |es|
  {
    if es == [] {
    } else {
      StepPreservesValid(s, es[0]);
      AppendsFollowLoads(Step(s, es[0]), es[1..]);
      assert Loaded(Step(s, es[0]).chain) <= Loaded(s.chain) + (if es[0].LoadOk? then 1 else 0);
    }
    RunPreservesValid(s, es);
  }

  /** After the first error nothing more is appended or logged, and the chain
      stays aborted, whatever events follow. */
  lemma {:induction false} AbortIsFinal(s: State, es: seq<Event>)
    requires Valid(s) && s.chain.Aborted?
    ensures var t := Run(s, es);
            t.chain == s.chain && t.appended == s.appended && t.logged == s.logged && t.loading
    decreases |es|
  {
    if es != [] {
      StepPreservesValid(s, es[0]);
      AbortIsFinal(Step(s, es[0]), es[1..]);
    }
  }

  /** At most one error is ever logged, and it names the src of the last
      script appended, the one that failed. */
  lemma ErrorNamesFailingScript(s: State)
    requires Valid(s)
    ensures |s.logged| <= 1
    ensures |s.logged| == 1 ==>
              s.chain.Aborted? && s.logged[0] == ConsoleError(LogTag, "Failed to load " + s.appended[|s.appended| - 1].src)
  {
  }

  /** A resolved gate stays resolved. */
  lemma {:induction false} ResolvedStaysResolved(s: State, es: seq<Event>)
    requires Valid(s) && s.gateResolved
    ensures Run(s, es).gateResolved
    decreases |es|
  {
    if es != [] {
      StepPreservesValid(s, es[0]);
      ResolvedStaysResolved(Step(s, es[0]), es[1..]);
    }
  }

  /** Lines 6 and 8: the loading flag, once set, is never cleared, whatever
      events follow. */
  lemma {:induction false} LoadingStaysSet(s: State, es: seq<Event>)
    requires s.loading
    ensures Run(s, es).loading
    decreases |es|
  {
    if es != [] {
      LoadingStaysSet(Step(s, es[0]), es[1..]);
    }
  }

  /** Before the first evaluation load events and microtasks change nothing. */
  lemma {:induction false} IdleIgnoresEvents(s: State, es: seq<Event>)
    requires s.chain.Idle? && NoEvaluate(es)
    ensures Run(s, es) == s
    decreases |es|
  {
    if es != [] {
      assert !es[0].Evaluate?;
      IdleIgnoresEvents(Step(s, es[0]), es[1..]);
    }
  }

  /** Without further evaluations only the final load event resolves the gate. */
  lemma {:induction false} LoadEventsResolveOnlyOnCompletion(s: State, es: seq<Event>)
    requires Valid(s) && NoEvaluate(es)
    requires s.gateResolved ==> s.chain.Completed?
    ensures Run(s, es).gateResolved ==> Run(s, es).chain.Completed?
    decreases |es|
  {
    if es != [] {
      assert !es[0].Evaluate?;
      StepPreservesValid(s, es[0]);
      LoadEventsResolveOnlyOnCompletion(Step(s, es[0]), es[1..]);
    }
  }

  /** A page the script runs on once, with no SDK present yet: the gate is
      resolved only once all three scripts have loaded, and then it is
      resolved whenever a resolver is stored. */
  lemma SingleEvaluationGate(s: State, pre: seq<Event>, page: Page, post: seq<Event>)
    requires Valid(s) && !s.gateResolved && !s.loading
    requires NoEvaluate(pre) && NoEvaluate(post)
    requires !page.firebaseGlobal && !page.foreignSdkTag
    ensures var t := Run(s, pre + [Evaluate(page)] + post);
            && (t.gateResolved ==> t.chain == Completed && |t.appended| == |Modules|)
            && (t.chain == Completed ==> (t.gateResolved <==> t.resolverPresent))
  {
    IdleIgnoresEvents(s, pre);
    RunConcat(s, pre, [Evaluate(page)]);
    RunConcat(s, pre + [Evaluate(page)], post);
    var u := Run(s, pre + [Evaluate(page)]);
    assert Run(s, pre) == s;
    assert u == Step(s, Evaluate(page));
    assert !u.gateResolved;
    StepPreservesValid(s, Evaluate(page));
    LoadEventsResolveOnlyOnCompletion(u, post);
    RunPreservesValid(u, post);
  }

  /** The same page evaluated twice, the second time after the first script
      was appended: the gate resolves though no script has loaded. */
  lemma ReEvaluationResolvesEarly(page: Page)
    requires !page.firebaseGlobal && !page.foreignSdkTag
    ensures var t := Run(Init(false, false), [Evaluate(page), Microtasks, Evaluate(page)]);
            t.gateResolved && t.chain == Awaiting(0) && |t.appended| == 1
  {
    var s0 := Init(false, false);
    var s1 := Step(s0, Evaluate(page));
    assert s1.gateExists && s1.resolverPresent && s1.chain == Queued && s1.appended == [];
    var s2 := Step(s1, Microtasks);
    assert s2.chain == Awaiting(0) && s2.appended == [TagFor(0)] && s2.resolverPresent;
    StepPreservesValid(s0, Evaluate(page));
    StepPreservesValid(s1, Microtasks);
    ReEvaluationWhileAwaiting(s2, page);
    var es := [Evaluate(page), Microtasks, Evaluate(page)];
    assert es[1..] == [Microtasks, Evaluate(page)];
    assert es[1..][1..] == [Evaluate(page)];
    assert Run(s0, es) == Run(s1, [Microtasks, Evaluate(page)]);
    assert Run(s1, [Microtasks, Evaluate(page)]) == Run(s2, [Evaluate(page)]);
    assert Run(s2, [Evaluate(page)]) == Step(s2, Evaluate(page));
  }
}
