/**
 * The rich-text engine the hooks drive, seen only through the surface they use:
 * the data of each root (`getData`/`setData`), the focus tracker, the lifecycle
 * state, the editable views attached to roots, the listeners subscribed to the
 * engine's events, and a log of the engine API calls the hooks make (the calls the
 * tests observe with spies). The document model, rendering, context and watchdog
 * internals are not part of this model.
 */
module Engine {
  import opened Wrappers

  /** Identity of a DOM element. */
  type ElementId = nat

  /** Engine events a hook can subscribe to. */
  datatype EngineEvent = DataChanged | FocusChanged | EditorReady | EditorDestroyed

  datatype FocusKind = Focus | Blur

  /** Every listener the modelled hooks subscribe to engine events. */
  datatype Listener =
    | SentinelDataChange(hook: nat)     // root value sentinel: onDataChange
    | SentinelFocusChange(hook: nat)    // root value sentinel: onFocusChange
    | EditableInputSync(hook: nat)      // editable hook: debounced copy of a root into its input
    | PhoenixContentPush                // debounced `ckeditor5:change` push
    | PhoenixReadyPush                  // one-shot `ckeditor5:change` push on ready
    | PhoenixFocusPush(kind: FocusKind) // `ckeditor5:focus` / `ckeditor5:blur` push
    | RegistryUnregister(editorId: string) // editor hook: unregister on self-destruction

  datatype Subscription = Subscription(event: EngineEvent, listener: Listener)

  /** Engine API calls made by the hooks, in the order they are made. */
  datatype Call =
    | SetData(data: map<string, string>)
    | AddRoot(rootName: string, initialData: string, isUndoable: bool)
    | AddEditable(rootName: string, content: Option<ElementId>)
    | DetachEditable(rootName: string)
    | DetachRoot(rootName: string, isUndoable: bool)
    | ContextRemove(editorContextId: string)
    | WatchdogDestroy
    | EditorDestroy

  /** `editor.state`. */
  datatype LifecycleState = Initializing | Ready | Destroyed

  /** What `unwrapEditorContext` yields for an editor created inside a context. */
  datatype ContextLink = ContextLink(unavailable: bool, editorContextId: string)

  /** `setData(data)`: the named roots that exist take the given data; the rest keep theirs. */
  function Overwrite(roots: map<string, string>, data: map<string, string>): map<string, string>
  {
    map k | k in roots :: if k in data then data[k] else roots[k]
  }

  class Editor {
    var roots: map<string, string>
    var focused: bool
    var state: LifecycleState
    var editables: set<string>
    var subscriptions: set<Subscription>
    var calls: seq<Call>
    var context: Option<ContextLink>
    /** `'detachEditable' in editor`: only multi-root editors can detach roots. */
    const canDetach: bool
    /** The editor was created through its own watchdog. */
    const hasWatchdog: bool
    /** The UI view's parts by accessor name (`toolbar`, `menuBarView`) and their elements. */
    const viewParts: map<string, ElementId>

    constructor (roots: map<string, string>, canDetach: bool, hasWatchdog: bool,
                 context: Option<ContextLink>, viewParts: map<string, ElementId>)
      ensures this.roots == roots && this.canDetach == canDetach && this.hasWatchdog == hasWatchdog
      ensures this.context == context && this.viewParts == viewParts
      ensures !focused && state == Ready && editables == roots.Keys
      ensures subscriptions == {} && calls == []
    {
      this.roots := roots;
      this.canDetach := canDetach;
      this.hasWatchdog := hasWatchdog;
      this.context := context;
      this.viewParts := viewParts;
      focused := false;
      state := Ready;
      editables := roots.Keys;
      subscriptions := {};
      calls := [];
    }

    /** `getData({ rootName })`. */
    function GetData(rootName: string): string
      reads this
      requires rootName in roots
    {
      roots[rootName]
    }

    method SetData(data: map<string, string>)
      modifies this`roots, this`calls
      ensures roots == Overwrite(old(roots), data)
      ensures calls == old(calls) + [Call.SetData(data)]
    {
      roots := Overwrite(roots, data);
      calls := calls + [Call.SetData(data)];
    }

    method AddRoot(rootName: string, data: string, isUndoable: bool)
      modifies this`roots, this`calls
      ensures roots == old(roots)[rootName := data]
      ensures calls == old(calls) + [Call.AddRoot(rootName, data, isUndoable)]
    {
      roots := roots[rootName := data];
      calls := calls + [Call.AddRoot(rootName, data, isUndoable)];
    }

    /** `ui.view.createEditable` followed by `ui.addEditable`. */
    method AddEditable(rootName: string, content: Option<ElementId>)
      modifies this`editables, this`calls
      ensures editables == old(editables) + {rootName}
      ensures calls == old(calls) + [Call.AddEditable(rootName, content)]
    {
      editables := editables + {rootName};
      calls := calls + [Call.AddEditable(rootName, content)];
    }

    method DetachEditable(rootName: string)
      modifies this`editables, this`calls
      ensures editables == old(editables) - {rootName}
      ensures calls == old(calls) + [Call.DetachEditable(rootName)]
    {
      editables := editables - {rootName};
      calls := calls + [Call.DetachEditable(rootName)];
    }

    method DetachRoot(rootName: string, isUndoable: bool)
      modifies this`roots, this`calls
      ensures roots == old(roots) - {rootName}
      ensures calls == old(calls) + [Call.DetachRoot(rootName, isUndoable)]
    {
      roots := roots - {rootName};
      calls := calls + [Call.DetachRoot(rootName, isUndoable)];
    }

    /** `on(event, listener)`. */
    method On(s: Subscription)
      modifies this`subscriptions
      ensures subscriptions == old(subscriptions) + {s}
    {
      subscriptions := subscriptions + {s};
    }

    /** `off(event, listener)`. */
    method Off(s: Subscription)
      modifies this`subscriptions
      ensures subscriptions == old(subscriptions) - {s}
    {
      subscriptions := subscriptions - {s};
    }

    /** The user edits a root (the engine then fires `change:data`). */
    method UserEdit(rootName: string, data: string)
      requires rootName in roots
      modifies this`roots
      ensures roots == old(roots)[rootName := data]
    {
      roots := roots[rootName := data];
    }

    /** The focus tracker's `isFocused` changes. */
    method SetFocused(f: bool)
      modifies this`focused
      ensures focused == f
    {
      focused := f;
    }

    /** The editor is torn down, through `how` (its context, its watchdog or itself). */
    method Destroy(how: Call)
      requires how.ContextRemove? || how.WatchdogDestroy? || how.EditorDestroy?
      modifies this`state, this`calls
      ensures state == Destroyed
      ensures calls == old(calls) + [how]
    {
      state := Destroyed;
      calls := calls + [how];
    }
  }
}
