/**
 * The loader's globals as one mutable object: each method updates the
 * fields in place as the script does. Each event method (`Evaluate`,
 * `RunMicrotasks`, `OnLoad`, `OnError`) is proved to take the state from
 * `Snapshot()` to `Step(Snapshot(), event)`, so every property proved of the
 * state machine holds of the object; `ResolveGate` and `AddScript` are the
 * two helpers they share.
 */
module LoaderGlobals {
  import opened ThreadId
  import opened FirebaseLoader

  class Loader {
    var gateExists: bool             // window.nmFirebaseReady
    var resolverPresent: bool        // window.__nmResolveFirebaseReady
    var gateResolved: bool
    ghost var gatesCreated: nat
    var loading: bool                // window.__nmFirebaseLoading
    var appended: seq<ScriptTag>     // this loader's children of document.head
    var logged: seq<LogEntry>        // console.error output
    var chain: Chain
    var threadId: Option<string>     // window.nmComments.getThreadId()

    ghost function Snapshot(): State
      reads this
    {
      State(gateExists, resolverPresent, gateResolved, gatesCreated, loading, appended, logged, chain, threadId)
    }

    constructor (gateDefined: bool, resolverDefined: bool)
      ensures Snapshot() == Init(gateDefined, resolverDefined)
      ensures Valid(Snapshot())
    {
      gateExists, resolverPresent, gateResolved, gatesCreated := gateDefined, resolverDefined, false, 0;
      loading, appended, logged, chain, threadId := false, [], [], Idle, None;
    }

    /** `window.__nmResolveFirebaseReady && window.__nmResolveFirebaseReady()` */
    method ResolveGate()
      modifies this
      ensures Snapshot() == Resolve(old(Snapshot()))
    {
      if resolverPresent {
        gateResolved := true;
      }
    }

    /** `addScript(name)`: append a deferred, marked script for `name`. */
    method AddScript(name: string)
      modifies this
      ensures Snapshot() == old(Snapshot()).(appended := old(appended) + [ScriptFor(name)])
    {
      var s := ScriptTag(Origin + name, true, "1");
      appended := appended + [s];
    }

    /** One run of the script. */
    method Evaluate(page: Page)
      requires Valid(Snapshot())
      modifies this
      ensures Valid(Snapshot())
      ensures Snapshot() == Step(old(Snapshot()), Event.Evaluate(page))
    {
      ghost var before := Snapshot();
      if !gateExists {
        gateExists, resolverPresent, gateResolved := true, true, false;
        gatesCreated := gatesCreated + 1;
      }
      threadId := Some(ComputeThreadId(page.meta, page.canonical, page.location));
      var tagPresent := page.foreignSdkTag
                        || exists j | 0 <= j < |appended| :: StartsWith(appended[j].src, SdkPrefix);
      if page.firebaseGlobal || tagPresent {
        ResolveGate();
        StepPreservesValid(before, Event.Evaluate(page));
        return;
      }
      if loading {
        StepPreservesValid(before, Event.Evaluate(page));
        return;
      }
      loading := true;
      chain := Queued;
      StepPreservesValid(before, Event.Evaluate(page));
    }

    /** The microtask checkpoint after a run: the chain's first link appends
        `Modules[0]`. */
    method RunMicrotasks()
      requires Valid(Snapshot())
      modifies this
      ensures Valid(Snapshot())
      ensures Snapshot() == Step(old(Snapshot()), Microtasks)
    {
      ghost var before := Snapshot();
      if chain.Queued? {
        AddScript(Modules[0]);
        chain := Awaiting(0);
      }
      StepPreservesValid(before, Microtasks);
    }

    /** The pending script's load event: append the next module, or resolve
        the gate after the last one. */
    method OnLoad()
      requires Valid(Snapshot())
      modifies this
      ensures Valid(Snapshot())
      ensures Snapshot() == Step(old(Snapshot()), LoadOk)
    {
      ghost var before := Snapshot();
      if chain.Awaiting? && chain.index < |Modules| {
        var k := chain.index;
        if k + 1 < |Modules| {
          AddScript(Modules[k + 1]);
          chain := Awaiting(k + 1);
        } else {
          chain := Completed;
          ResolveGate();
        }
      }
      StepPreservesValid(before, LoadOk);
    }

    /** The pending script's error event: the chain rejects and the `catch`
        logs the error once. */
    method OnError()
      requires Valid(Snapshot())
      modifies this
      ensures Valid(Snapshot())
      ensures Snapshot() == Step(old(Snapshot()), LoadErr)
    {
      ghost var before := Snapshot();
      if chain.Awaiting? && chain.index < |Modules| {
        var src := appended[|appended| - 1].src;
        logged := logged + [ConsoleError(LogTag, "Failed to load " + src)];
        chain := Aborted(chain.index);
      }
      StepPreservesValid(before, LoadErr);
    }
  }
}
