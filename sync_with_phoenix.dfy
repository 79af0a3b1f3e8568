/**
 * The plugin that connects an editor to the LiveView channel: it pushes the content of
 * every root on changes (debounced) and once when the editor is ready, pushes focus and
 * blur notifications, and applies `ckeditor5:set-data` commands addressed to this editor
 * or to no editor in particular.
 */
module PhoenixSync {
  import opened Wrappers
  import opened Engine
  import Attributes

  /** Which notifications the editor element asked for (`cke-change-event` and so on). */
  datatype EventFlags = EventFlags(change: bool, blur: bool, focus: bool)

  /** One `pushEvent(event, { editorId, data })` call. */
  datatype Push = Push(event: string, editorId: string, data: map<string, string>)

  const SetDataEvent: string := "ckeditor5:set-data"
  const ChangeEvent: string := "ckeditor5:change"

  /** The `ckeditor5:set-data` filter: a command without a target is a broadcast. */
  function AppliesSetData(targetId: Attributes.Nilable<string>, editorId: string): (r: bool)
    ensures r <==> targetId == Attributes.Null || targetId == Attributes.Undefined || targetId == Attributes.Value(editorId)
  {
    Attributes.IsNil(targetId) || targetId.value == editorId
  }

  function KindName(kind: FocusKind): string
  {
    match kind
    case Focus => "focus"
    case Blur => "blur"
  }

  /** `ckeditor5:<type>`. */
  function FocusEventName(kind: FocusKind): (name: string)
    ensures kind == Focus ==> name == "ckeditor5:focus"
    ensures kind == Blur ==> name == "ckeditor5:blur"
  {
    "ckeditor5:" + KindName(kind)
  }

  /** A focus or blur listener pushes only when the tracker's state matches its own kind. */
  function ShouldPushFocusEvent(isFocused: bool, kind: FocusKind): (r: bool)
    ensures r <==> (isFocused && kind == Focus) || (!isFocused && kind == Blur)
  {
    (if isFocused then Focus else Blur) == kind
  }

  /** The listeners `init` subscribes for the given flags. */
  function Wiring(flags: EventFlags): (s: set<Subscription>)
    ensures Subscription(DataChanged, PhoenixContentPush) in s <==> flags.change
    ensures Subscription(EditorReady, PhoenixReadyPush) in s <==> flags.change
    ensures Subscription(FocusChanged, PhoenixFocusPush(Blur)) in s <==> flags.blur
    ensures Subscription(FocusChanged, PhoenixFocusPush(Focus)) in s <==> flags.focus
    ensures s <= {Subscription(DataChanged, PhoenixContentPush), Subscription(EditorReady, PhoenixReadyPush),
                  Subscription(FocusChanged, PhoenixFocusPush(Blur)), Subscription(FocusChanged, PhoenixFocusPush(Focus))}
  {
    (if flags.change then {Subscription(DataChanged, PhoenixContentPush), Subscription(EditorReady, PhoenixReadyPush)} else {})
    + (if flags.blur then {Subscription(FocusChanged, PhoenixFocusPush(Blur))} else {})
    + (if flags.focus then {Subscription(FocusChanged, PhoenixFocusPush(Focus))} else {})
  }

  /** `getEditorRootsValues`: fills a record with every root's data, one root at a time. */
  method GetEditorRootsValues(editor: Editor) returns (acc: map<string, string>)
    ensures acc == editor.roots
  {
    acc := map[];
    var rest := editor.roots.Keys;
    while rest != {}
      invariant rest <= editor.roots.Keys
      invariant acc.Keys == editor.roots.Keys - rest
      invariant forall k :: k in acc ==> acc[k] == editor.roots[k]
      decreases |rest|
    {
      var rootName :| rootName in rest;
      acc := acc[rootName := editor.GetData(rootName)];
      rest := rest - {rootName};
    }
  }

  class SyncEditorWithPhoenix {
    const editorId: string
    const events: EventFlags
    const editor: Editor
    /** The `pushEvent` calls made so far. */
    var pushed: seq<Push>
    /** The channel events registered with `handleEvent`. */
    var handled: set<string>

    constructor (editorId: string, events: EventFlags, editor: Editor)
      ensures this.editorId == editorId && this.events == events && this.editor == editor
      ensures pushed == [] && handled == {}
    {
      this.editorId := editorId;
      this.events := events;
      this.editor := editor;
      pushed := [];
      handled := {};
    }

    /** `init`: subscribes the pushes the flags ask for and handles `ckeditor5:set-data`. */
    method Init()
      modifies editor`subscriptions, this`handled
      ensures editor.subscriptions == old(editor.subscriptions) + Wiring(events)
      ensures handled == old(handled) + {SetDataEvent}
    {
      if events.change {
        editor.On(Subscription(DataChanged, PhoenixContentPush));
        editor.On(Subscription(EditorReady, PhoenixReadyPush));
      }
      if events.blur {
        editor.On(Subscription(FocusChanged, PhoenixFocusPush(Blur)));
      }
      if events.focus {
        editor.On(Subscription(FocusChanged, PhoenixFocusPush(Focus)));
      }
      handled := handled + {SetDataEvent};
    }

    /** The `ckeditor5:set-data` handler. */
    method OnSetData(targetId: Attributes.Nilable<string>, data: map<string, string>)
      requires SetDataEvent in handled
      modifies editor`roots, editor`calls
      ensures AppliesSetData(targetId, editorId) ==>
                editor.roots == Overwrite(old(editor.roots), data) && editor.calls == old(editor.calls) + [SetData(data)]
      ensures !AppliesSetData(targetId, editorId) ==>
                editor.roots == old(editor.roots) && editor.calls == old(editor.calls)
    {
      if Attributes.IsNil(targetId) || targetId.value == editorId {
        editor.SetData(data);
      }
    }

    /** `pushContentChange`: pushes every root's current data. */
    method PushContentChange()
      modifies this`pushed
      ensures pushed == old(pushed) + [Push(ChangeEvent, editorId, editor.roots)]
    {
      var data := GetEditorRootsValues(editor);
      pushed := pushed + [Push(ChangeEvent, editorId, data)];
    }

    /** The trailing call of a debounced burst of `change:data` events. */
    method OnDebouncedDataChange()
      requires Subscription(DataChanged, PhoenixContentPush) in editor.subscriptions
      modifies this`pushed
      ensures pushed == old(pushed) + [Push(ChangeEvent, editorId, editor.roots)]
    {
      PushContentChange();
    }

    /** The one-shot `ready` listener: pushes once and unsubscribes itself. */
    method OnReady()
      requires Subscription(EditorReady, PhoenixReadyPush) in editor.subscriptions
      modifies this`pushed, editor`subscriptions
      ensures pushed == old(pushed) + [Push(ChangeEvent, editorId, editor.roots)]
      ensures editor.subscriptions == old(editor.subscriptions) - {Subscription(EditorReady, PhoenixReadyPush)}
    {
      PushContentChange();
      editor.Off(Subscription(EditorReady, PhoenixReadyPush));
    }

    /** The focus or blur listener, run on `change:isFocused`. */
    method OnFocusChange(kind: FocusKind)
      requires Subscription(FocusChanged, PhoenixFocusPush(kind)) in editor.subscriptions
      modifies this`pushed
      ensures pushed == old(pushed) +
                if ShouldPushFocusEvent(editor.focused, kind)
                then [Push(FocusEventName(kind), editorId, editor.roots)] else []
    {
      var currentType := if editor.focused then Focus else Blur;
      if currentType != kind {
        return;
      }
      var data := GetEditorRootsValues(editor);
      pushed := pushed + [Push("ckeditor5:" + KindName(kind), editorId, data)];
    }
  }
}
