/**
 * The root value sentinel: a hook that keeps one root of an editor in step with a
 * value the server renders into an attribute, without disturbing a user who is
 * typing. The protocol is first stated as a state machine over `World` values (one
 * function per event), and then carried out by the `Sentinel` class, whose methods
 * are proved to move its abstract state exactly as those functions say.
 */
module RootValueSentinel {
  import opened Wrappers
  import opened Engine
  import Attributes

  /** The part of the engine the sentinel reads and writes. */
  datatype Doc = Doc(roots: map<string, string>, focused: bool, destroyed: bool, calls: seq<Call>)

  /**
   * The sentinel together with its editor.
   * `called`: the registry has run the mount callback, so `editorPromise` has settled;
   * `resolved`: it settled to the editor (rather than to null);
   * `waiting`: the values of `updated` calls suspended on the unsettled promise, in order;
   * `installed`: onDataChange and onFocusChange are subscribed (and their removal is
   * registered to run before destruction); `destroying`: `isBeingDestroyed()`.
   */
  datatype World = World(
    previous: Option<string>,
    pending: Option<string>,
    called: bool,
    resolved: bool,
    waiting: seq<string>,
    installed: bool,
    destroying: bool,
    doc: Doc)

  /** What holds between events: handlers are live exactly while the editor is bound and
      the hook is alive, a pending value waits only on a focused editor, and updates are
      suspended only until the callback has run. */
  predicate Inv(w: World)
  {
    && (w.installed <==> w.resolved && !w.destroying)
    && (w.pending.Some? && w.installed ==> w.doc.focused)
    && (w.pending.Some? ==> w.resolved || w.destroying)
    && (w.resolved ==> w.called)
    && (w.called ==> w.waiting == [])
  }

  function Initial(doc: Doc): (w: World)
    ensures Inv(w) && w.doc == doc
    ensures w.previous == None && w.pending == None && w.waiting == [] && !w.called && !w.installed
  {
    World(None, None, false, false, [], false, false, doc)
  }

  /** `setRootValue` writes only a root that exists and whose data differs from `value`. */
  predicate Writes(d: Doc, root: string, value: string)
  {
    root in d.roots && d.roots[root] != value
  }

  /** The engine after `setRootValue(editor, root, value)`. */
  function WriteRoot(d: Doc, root: string, value: string): (r: Doc)
    ensures r.focused == d.focused && r.destroyed == d.destroyed
    ensures r.roots.Keys == d.roots.Keys
    ensures forall k :: k in d.roots && k != root ==> r.roots[k] == d.roots[k]
    ensures root in d.roots ==> r.roots[root] == value && r.roots == d.roots[root := value]
    ensures r.calls == d.calls + if Writes(d, root, value) then [SetData(map[root := value])] else []
  {
    if Writes(d, root, value) then
      d.(roots := d.roots[root := value], calls := d.calls + [SetData(map[root := value])])
    else
      d
  }

  /** `setRootValue`; a write fires `change:data`, which reaches the sentinel's own onDataChange. */
  function SetRootValueStep(w: World, root: string, value: string): (r: World)
    ensures Inv(w) ==> Inv(r)
    ensures root in w.doc.roots ==> r.doc.roots == w.doc.roots[root := value]
    ensures root !in w.doc.roots ==> r.doc == w.doc
    ensures r.pending == None || r.pending == w.pending
    ensures r.previous == w.previous && r.waiting == w.waiting && r.called == w.called
    ensures r.resolved == w.resolved && r.installed == w.installed && r.destroying == w.destroying
  {
    w.(doc := WriteRoot(w.doc, root, value),
       pending := if Writes(w.doc, root, value) && w.installed then None else w.pending)
  }

  /** `mounted`, up to handing the callback to the registry. */
  function MountStep(w: World, value: string): (r: World)
    ensures r.previous == Some(value)
    ensures r.doc == w.doc && r.pending == w.pending && r.installed == w.installed
  {
    w.(previous := Some(value))
  }

  /** The rest of `updated` once its `await` has given the editor (or null). */
  function ResumeUpdate(w: World, root: string, value: string): (r: World)
    ensures !w.resolved || w.doc.destroyed ==> r == w
    ensures w.resolved && !w.doc.destroyed && w.doc.focused ==> r == w.(pending := Some(value))
    ensures w.resolved && !w.doc.destroyed && !w.doc.focused ==> r.doc == WriteRoot(w.doc, root, value)
    ensures r.previous == w.previous && r.waiting == w.waiting && r.called == w.called
    ensures r.resolved == w.resolved && r.installed == w.installed && r.destroying == w.destroying
  {
    if !w.resolved || w.doc.destroyed then w
    else if w.doc.focused then w.(pending := Some(value))
    else SetRootValueStep(w, root, value)
  }

  /** The suspended updates resume one after the other, in the order they were made. */
  function ResumeAll(w: World, root: string, values: seq<string>): (r: World)
    ensures r.previous == w.previous && r.waiting == w.waiting && r.called == w.called
    ensures r.resolved == w.resolved && r.installed == w.installed && r.destroying == w.destroying
    decreases |values|
  {
    if values == [] then w
    else ResumeUpdate(ResumeAll(w, root, values[..|values| - 1]), root, values[|values| - 1])
  }

  /** Resuming keeps the invariant of a world whose callback has run. */
  lemma {:induction false} ResumeAllKeepsInv(w: World, root: string, values: seq<string>)
    requires Inv(w) && w.called
    ensures Inv(ResumeAll(w, root, values))
    decreases |values|
  {
    if values != [] {
      ResumeAllKeepsInv(w, root, values[..|values| - 1]);
    }
  }

  /** One resumed update on an unfocused live editor writes its value straight through. */
  lemma ResumeWritesThrough(w: World, root: string, value: string)
    requires w.resolved && w.pending == None && !w.doc.focused && !w.doc.destroyed
    requires root in w.doc.roots
    ensures ResumeUpdate(w, root, value).doc.roots == w.doc.roots[root := value]
    ensures ResumeUpdate(w, root, value).pending == None
    ensures !ResumeUpdate(w, root, value).doc.focused && !ResumeUpdate(w, root, value).doc.destroyed
  {
  }

  /** Of several suspended updates to an unfocused live editor, the last one is what the
      root ends up holding, and nothing stays buffered. */
  lemma {:induction false} LastSuspendedUpdateWins(w: World, root: string, values: seq<string>)
    requires w.resolved && w.pending == None && !w.doc.focused && !w.doc.destroyed
    requires root in w.doc.roots && values != []
    ensures ResumeAll(w, root, values).doc.roots == w.doc.roots[root := values[|values| - 1]]
    ensures ResumeAll(w, root, values).pending == None
    ensures !ResumeAll(w, root, values).doc.focused && !ResumeAll(w, root, values).doc.destroyed
    decreases |values|
  {
    var init := values[..|values| - 1];
    var mid := ResumeAll(w, root, init);
    if init != [] {
      LastSuspendedUpdateWins(w, root, init);
    }
    ResumeWritesThrough(mid, root, values[|values| - 1]);
    assert w.doc.roots[root := values[|values| - 1]] == mid.doc.roots[root := values[|values| - 1]];
  }

  /** The registry runs the mount callback against the editor; the updates suspended on the
      promise then resume, against the editor or, if the hook is being destroyed, against null. */
  function CallbackStep(w: World, root: string): (r: World)
    ensures r.called && r.waiting == [] && r.previous == w.previous
    ensures w.destroying ==> !r.resolved && r.installed == w.installed && r.doc == w.doc && r.pending == w.pending
    ensures !w.destroying ==> r.resolved && r.installed
    ensures !w.destroying && w.waiting == [] ==> r.doc == w.doc && r.pending == w.pending
  {
    if w.destroying then w.(called := true, resolved := false, waiting := [])
    else ResumeAll(w.(called := true, resolved := true, installed := true, waiting := []), root, w.waiting)
  }

  /** `updated`, with `value` the attribute's current value. Before the callback has run
      the update is suspended on the promise; afterwards it resumes at once. */
  function UpdateStep(w: World, root: string, value: string): (r: World)
    ensures r.previous == Some(value)
    ensures w.previous == Some(value) ==> r == w
    ensures w.previous != Some(value) && !w.called ==>
              r == w.(previous := Some(value), waiting := w.waiting + [value])
    ensures w.previous != Some(value) && w.called && (!w.resolved || w.doc.destroyed) ==>
              r == w.(previous := Some(value))
    ensures w.previous != Some(value) && w.called && w.resolved && !w.doc.destroyed && w.doc.focused ==>
              r.pending == Some(value) && r.doc == w.doc
    ensures w.previous != Some(value) && w.called && w.resolved && !w.doc.destroyed && !w.doc.focused ==>
              r.doc == WriteRoot(w.doc, root, value)
  {
    if w.previous == Some(value) then w
    else
      var w1 := w.(previous := Some(value));
      if !w1.called then w1.(waiting := w1.waiting + [value])
      else ResumeUpdate(w1, root, value)
  }

  /** onDataChange: the user changed the content, so a buffered value is stale. */
  function DataChangeStep(w: World): (r: World)
    ensures r.pending == None && r.doc == w.doc
  {
    w.(pending := None)
  }

  /** onFocusChange: on blur, a buffered value is applied and then dropped. */
  function FocusChangeStep(w: World, root: string): (r: World)
    ensures !w.doc.focused && w.pending.Some? ==>
              r.pending == None && r.doc == WriteRoot(w.doc, root, w.pending.value)
    ensures !(!w.doc.focused && w.pending.Some?) ==> r == w
  {
    if !w.doc.focused && w.pending.Some? then
      SetRootValueStep(w, root, w.pending.value).(pending := None)
    else
      w
  }

  /** `destroyed`: the hook is marked as being destroyed and the cleanup unsubscribes both handlers. */
  function DestroyStep(w: World): (r: World)
    ensures r.destroying && !r.installed
    ensures r.doc == w.doc && r.pending == w.pending && r.previous == w.previous
  {
    w.(destroying := true, installed := false)
  }

  /** The user edits `root`; `change:data` reaches onDataChange if it is subscribed. */
  function EditData(w: World, root: string, data: string): World
  {
    if root !in w.doc.roots then w
    else
      var w1 := w.(doc := w.doc.(roots := w.doc.roots[root := data]));
      if w.installed then DataChangeStep(w1) else w1
  }

  /** The focus tracker changes; `change:isFocused` fires only on an actual change. */
  function ChangeFocus(w: World, root: string, focused: bool): World
  {
    if focused == w.doc.focused then w
    else
      var w1 := w.(doc := w.doc.(focused := focused));
      if w.installed then FocusChangeStep(w1, root) else w1
  }

  /** Another hook adds a root (`addRoot`); the model change fires `change:data`, which
      reaches onDataChange if it is subscribed. An existing root is left alone. */
  function AddRoot(w: World, added: string, data: string): World
  {
    if added in w.doc.roots then w
    else
      var w1 := w.(doc := w.doc.(roots := w.doc.roots[added := data]));
      if w.installed then DataChangeStep(w1) else w1
  }

  datatype Event =
    | Mount(value: string)
    | CallbackRuns
    | Update(value: string)
    | Edit(root: string, data: string)
    | Focus(focused: bool)
    | Destroy
    | EngineDestroyed
    | RootAdded(added: string, data: string)

  function Step(w: World, root: string, e: Event): World
  {
    match e
    case Mount(value) => MountStep(w, value)
    case CallbackRuns => CallbackStep(w, root)
    case Update(value) => UpdateStep(w, root, value)
    case Edit(edited, data) => EditData(w, edited, data)
    case Focus(focused) => ChangeFocus(w, root, focused)
    case Destroy => DestroyStep(w)
    case EngineDestroyed => w.(doc := w.doc.(destroyed := true))
    case RootAdded(added, data) => AddRoot(w, added, data)
  }

  function Run(w: World, root: string, events: seq<Event>): World
    decreases |events|
  {
    if events == [] then w else Run(Step(w, root, events[0]), root, events[1..])
  }

  lemma StepKeepsInv(w: World, root: string, e: Event)
    requires Inv(w)
    ensures Inv(Step(w, root, e))
  {
    match e
    case CallbackRuns =>
      if !w.destroying {
        ResumeAllKeepsInv(w.(called := true, resolved := true, installed := true, waiting := []), root, w.waiting);
      }
    case _ =>
  }

  /** Every sequence of events keeps the invariant. */
  lemma {:induction false} RunKeepsInv(w: World, root: string, events: seq<Event>)
    requires Inv(w)
    ensures Inv(Run(w, root, events))
    decreases |events|
  {
    if events != [] {
      StepKeepsInv(w, root, events[0]);
      RunKeepsInv(Step(w, root, events[0]), root, events[1..]);
    }
  }

  /** A value that arrives while the editor is focused is buffered, and the blur applies it once. */
  lemma DeferredValueAppliedOnceOnBlur(w: World, root: string, v: string)
    requires Inv(w) && w.installed && w.doc.focused && !w.doc.destroyed
    requires w.previous != Some(v)
    ensures UpdateStep(w, root, v).doc == w.doc
    ensures UpdateStep(w, root, v).pending == Some(v)
    ensures ChangeFocus(UpdateStep(w, root, v), root, false).doc ==
              WriteRoot(w.doc, root, v).(focused := false)
    ensures ChangeFocus(UpdateStep(w, root, v), root, false).pending == None
    ensures var blurred := ChangeFocus(UpdateStep(w, root, v), root, false);
            ChangeFocus(ChangeFocus(blurred, root, true), root, false).doc == blurred.doc
  {
  }

  /** An edit made while a value is buffered wins: the blur that follows writes nothing. */
  lemma EditDiscardsDeferredValue(w: World, root: string, v: string, edited: string, data: string)
    requires Inv(w) && w.installed && w.doc.focused && !w.doc.destroyed
    requires w.previous != Some(v) && edited in w.doc.roots
    ensures var after := ChangeFocus(EditData(UpdateStep(w, root, v), edited, data), root, false);
            after.doc == w.doc.(roots := w.doc.roots[edited := data], focused := false)
            && after.pending == None
  {
  }

  /** A root added while a value is buffered discards it as well: the blur that follows
      writes nothing. */
  lemma AddedRootDiscardsDeferredValue(w: World, root: string, v: string, added: string, data: string)
    requires Inv(w) && w.installed && w.doc.focused && !w.doc.destroyed
    requires w.previous != Some(v) && added !in w.doc.roots
    ensures var after := ChangeFocus(Step(UpdateStep(w, root, v), root, RootAdded(added, data)), root, false);
            after.doc == w.doc.(roots := w.doc.roots[added := data], focused := false)
            && after.pending == None
  {
  }

  /** With nothing buffered, a blur changes only the focus flag. */
  lemma BlurWithoutPendingOnlyUnfocuses(w: World, root: string)
    requires w.pending == None
    ensures ChangeFocus(w, root, false) == w.(doc := w.doc.(focused := false))
  {
  }

  /** An update that reaches an editor destroyed in the meantime changes neither its
      content nor the buffer. */
  lemma UpdateAfterEngineDestroyedIsIgnored(w: World, root: string, v: string)
    requires Inv(w) && w.called
    ensures var after := Step(Step(w, root, EngineDestroyed), root, Update(v));
            after.doc == w.doc.(destroyed := true) && after.pending == w.pending && after.previous == Some(v)
  {
  }

  /** Before its root exists an update writes nothing; once the root is added, the next
      update writes it. */
  lemma UpdateWritesRootAddedLater(w: World, root: string, data: string, v: string, u: string)
    requires Inv(w) && w.resolved && !w.doc.focused && !w.doc.destroyed
    requires root !in w.doc.roots && w.previous != Some(v) && v != u
    ensures Step(w, root, Update(v)).doc == w.doc
    ensures var added := Step(Step(w, root, Update(v)), root, RootAdded(root, data));
            Step(added, root, Update(u)).doc.roots == w.doc.roots[root := u]
  {
  }

  /** Mounting and running the callback never touch the root's content. */
  lemma MountLeavesContent(w: World, root: string, v: string)
    requires w.waiting == []
    ensures Run(w, root, [Mount(v), CallbackRuns]).doc == w.doc
    ensures Run(w, root, [Mount(v), CallbackRuns]).previous == Some(v)
  {
    var w1 := Step(w, root, Mount(v));
    var w2 := Step(w1, root, CallbackRuns);
    assert [Mount(v), CallbackRuns][1..] == [CallbackRuns];
    assert [CallbackRuns][1..] == [];
    assert Run(w, root, [Mount(v), CallbackRuns]) == Run(w1, root, [CallbackRuns]);
    assert Run(w1, root, [CallbackRuns]) == Run(w2, root, []) == w2;
  }

  class Sentinel {
    const hook: nat
    const rootName: string
    /** The editor the registry eventually runs the mount callback against. */
    const editor: Editor
    var previousValue: Option<string>
    var pendingValue: Option<string>
    /** The registry has run the mount callback, so `editorPromise` has settled. */
    var called: bool
    /** `editorPromise` settled to the editor rather than to null. */
    var resolved: bool
    /** Values of `updated` calls still awaiting the unsettled promise, in order. */
    var waiting: seq<string>
    /** `onBeforeDestroy` holds the cleanup that unsubscribes both handlers. */
    var cleanupRegistered: bool
    var beingDestroyed: bool

    function DataSub(): Subscription
    {
      Subscription(DataChanged, SentinelDataChange(hook))
    }

    function FocusSub(): Subscription
    {
      Subscription(FocusChanged, SentinelFocusChange(hook))
    }

    ghost predicate Valid()
      reads this, editor
    {
      && (DataSub() in editor.subscriptions <==> cleanupRegistered)
      && (FocusSub() in editor.subscriptions <==> cleanupRegistered)
    }

    ghost function Abs(): World
      reads this, editor
    {
      World(previousValue, pendingValue, called, resolved, waiting, cleanupRegistered, beingDestroyed,
            Doc(editor.roots, editor.focused, editor.state.Destroyed?, editor.calls))
    }

    constructor (hook: nat, rootName: string, editor: Editor)
      requires Subscription(DataChanged, SentinelDataChange(hook)) !in editor.subscriptions
      requires Subscription(FocusChanged, SentinelFocusChange(hook)) !in editor.subscriptions
      ensures this.hook == hook && this.rootName == rootName && this.editor == editor
      ensures Valid()
      ensures Abs() == Initial(Doc(editor.roots, editor.focused, editor.state.Destroyed?, editor.calls))
    {
      this.hook := hook;
      this.rootName := rootName;
      this.editor := editor;
      previousValue := None;
      pendingValue := None;
      called := false;
      resolved := false;
      waiting := [];
      cleanupRegistered := false;
      beingDestroyed := false;
    }

    /** `mounted`: records the attribute's value; the callback runs later. */
    method Mounted(valueAttr: Option<string>)
      modifies this`previousValue
      ensures Abs() == MountStep(old(Abs()), Attributes.OrDefault(valueAttr, ""))
    {
      previousValue := Some(Attributes.OrDefault(valueAttr, ""));
    }

    /** The mount callback, run by the registry once the editor is available; the updates
        suspended on `editorPromise` then resume in order. */
    method RunMountCallback()
      requires Valid()
      modifies this`called, this`resolved, this`waiting, this`cleanupRegistered, this`pendingValue
      modifies editor`subscriptions, editor`roots, editor`calls
      ensures Valid()
      ensures Abs() == CallbackStep(old(Abs()), rootName)
      ensures beingDestroyed ==> editor.subscriptions == old(editor.subscriptions)
      ensures !beingDestroyed ==> editor.subscriptions == old(editor.subscriptions) + {DataSub(), FocusSub()}
    {
      var suspended := waiting;
      called := true;
      waiting := [];
      if beingDestroyed {
        resolved := false;
        return;
      }
      SetupSyncHandlers();
      resolved := true;
      ghost var start := Abs();
      var i := 0;
      while i < |suspended|
        invariant 0 <= i <= |suspended|
        invariant Valid() && called && resolved && waiting == [] && cleanupRegistered
        invariant Abs() == ResumeAll(start, rootName, suspended[..i])
        invariant editor.subscriptions == old(editor.subscriptions) + {DataSub(), FocusSub()}
      {
        assert suspended[..i + 1][..i] == suspended[..i];
        ResumeUpdated(suspended[i]);
        i := i + 1;
      }
      assert suspended[..i] == suspended;
    }

    method SetupSyncHandlers()
      modifies this`cleanupRegistered, editor`subscriptions
      ensures cleanupRegistered
      ensures editor.subscriptions == old(editor.subscriptions) + {DataSub(), FocusSub()}
    {
      editor.On(DataSub());
      editor.On(FocusSub());
      cleanupRegistered := true;
    }

    /** `updated`, with the value attribute as it now reads. */
    method Updated(valueAttr: Option<string>)
      requires Valid()
      modifies this`previousValue, this`pendingValue, this`waiting, editor`roots, editor`calls
      ensures Valid()
      ensures Abs() == UpdateStep(old(Abs()), rootName, Attributes.OrDefault(valueAttr, ""))
    {
      var value := Attributes.OrDefault(valueAttr, "");
      if previousValue == Some(value) {
        return;
      }
      previousValue := Some(value);
      if !called {
        // `await this.editorPromise` suspends until the callback has run.
        waiting := waiting + [value];
        return;
      }
      ResumeUpdated(value);
    }

    /** What `updated` does once `await this.editorPromise` has given the editor or null. */
    method ResumeUpdated(value: string)
      requires Valid()
      modifies this`pendingValue, editor`roots, editor`calls
      ensures Valid()
      ensures Abs() == ResumeUpdate(old(Abs()), rootName, value)
    {
      if !resolved || editor.state.Destroyed? {
        return;
      }
      if editor.focused {
        pendingValue := Some(value);
      } else {
        SetRootValue(value);
      }
    }

    /** `setRootValue`. */
    method SetRootValue(value: string)
      requires Valid()
      modifies this`pendingValue, editor`roots, editor`calls
      ensures Valid()
      ensures Abs() == SetRootValueStep(old(Abs()), rootName, value)
    {
      if rootName !in editor.roots {
        return;
      }
      var current := editor.GetData(rootName);
      if current != value {
        editor.SetData(map[rootName := value]);
        assert editor.roots == old(editor.roots)[rootName := value];
        // The write fires `change:data`, which reaches this sentinel's onDataChange.
        if cleanupRegistered {
          pendingValue := None;
        }
      }
    }

    /** onDataChange; the engine calls only subscribed listeners. */
    method OnDataChange()
      requires Valid() && cleanupRegistered
      modifies this`pendingValue
      ensures Abs() == DataChangeStep(old(Abs()))
    {
      pendingValue := None;
    }

    /** onFocusChange; the engine calls only subscribed listeners. */
    method OnFocusChange()
      requires Valid() && cleanupRegistered
      modifies this`pendingValue, editor`roots, editor`calls
      ensures Valid()
      ensures Abs() == FocusChangeStep(old(Abs()), rootName)
    {
      if !editor.focused && pendingValue.Some? {
        SetRootValue(pendingValue.value);
        pendingValue := None;
      }
    }

    /** `destroyed`: marks the hook and runs the registered cleanup. */
    method Destroyed()
      requires Valid()
      modifies this`beingDestroyed, this`cleanupRegistered, editor`subscriptions
      ensures Valid()
      ensures Abs() == DestroyStep(old(Abs()))
      ensures editor.subscriptions == old(editor.subscriptions) - {DataSub(), FocusSub()}
    {
      beingDestroyed := true;
      if cleanupRegistered {
        editor.Off(DataSub());
        editor.Off(FocusSub());
        cleanupRegistered := false;
      }
    }
  }

  /** The focused-editor scenario: the update waits for the blur, then lands once. */
  method DeferredUpdateScenario()
  {
    var editor := new Editor(map["main" := "<p>Initial</p>"], true, false, None, map[]);
    var sentinel := new Sentinel(0, "main", editor);
    sentinel.Mounted(Some("<p>Initial</p>"));
    sentinel.RunMountCallback();
    editor.SetFocused(true);
    sentinel.Updated(Some("<p>Pending update</p>"));
    assert editor.roots["main"] == "<p>Initial</p>";
    editor.SetFocused(false);
    sentinel.OnFocusChange();
    assert editor.roots["main"] == "<p>Pending update</p>";
    assert sentinel.pendingValue == None;
  }

  /** The user types while a value waits: the blur keeps the user's content. */
  method DiscardOnTypingScenario()
  {
    var editor := new Editor(map["main" := "<p>Initial</p>"], true, false, None, map[]);
    var sentinel := new Sentinel(0, "main", editor);
    sentinel.Mounted(Some("<p>Initial</p>"));
    sentinel.RunMountCallback();
    editor.SetFocused(true);
    sentinel.Updated(Some("<p>Pending value</p>"));
    editor.UserEdit("main", "<p>Initial</p><p>user typed</p>");
    sentinel.OnDataChange();
    editor.SetFocused(false);
    sentinel.OnFocusChange();
    assert editor.roots["main"] == "<p>Initial</p><p>user typed</p>";
  }

  /** Two updates arrive before the editor is ready: both wait, and the later one lands. */
  method SuspendedUpdatesScenario()
  {
    var editor := new Editor(map["main" := "<p>Initial</p>"], true, false, None, map[]);
    var sentinel := new Sentinel(0, "main", editor);
    sentinel.Mounted(Some("<p>Initial</p>"));
    sentinel.Updated(Some("<p>First</p>"));
    sentinel.Updated(Some("<p>Second</p>"));
    assert editor.roots["main"] == "<p>Initial</p>";
    ghost var before := sentinel.Abs();
    assert before.waiting == ["<p>First</p>", "<p>Second</p>"];
    LastSuspendedUpdateWins(before.(called := true, resolved := true, installed := true, waiting := []),
                            "main", before.waiting);
    sentinel.RunMountCallback();
    assert editor.roots["main"] == "<p>Second</p>";
  }
}
