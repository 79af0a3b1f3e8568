/**
 * The editable hook: an element that contributes one root to a multi-root editor. On
 * mount it asks the registry for the editor and, unless the root already exists, adds the
 * root with its initial value, attaches an editable view over its content element and,
 * when it has a hidden input, keeps that input equal to the root's data. On destruction
 * it detaches the editable and the root again, if the editor is still alive.
 */
module EditableHook {
  import opened Wrappers
  import opened Engine
  import Attributes

  /** The hidden `<input>` that mirrors the root's data in a form. */
  class InputElement {
    var value: string

    constructor (value: string)
      ensures this.value == value
    {
      this.value := value;
    }
  }

  datatype EditableAttrs = EditableAttrs(
    editableId: string,
    editorId: Option<string>,   // absent: the registry's default editor
    rootName: string,
    initialValue: string)

  /** The `attrs` getter: an empty editor id counts as absent, an absent initial value is empty. */
  function ReadEditableAttrs(id: string, editorIdAttr: Option<string>, rootName: string,
                             initialValueAttr: Option<string>): (a: EditableAttrs)
    ensures a.editableId == id && a.rootName == rootName
    ensures a.editorId.Some? <==> editorIdAttr.Some? && editorIdAttr.value != ""
    ensures a.editorId.Some? ==> a.editorId == editorIdAttr
    ensures initialValueAttr.Some? ==> a.initialValue == initialValueAttr.value
    ensures initialValueAttr.None? ==> a.initialValue == ""
  {
    EditableAttrs(id, Attributes.OrNull(editorIdAttr), rootName, Attributes.OrDefault(initialValueAttr, ""))
  }

  /** The promise `execute` returned: not asked yet, waiting for the editor, or resolved. */
  datatype Execution = NotStarted | Waiting | Ran(editor: Editor)

  class EditableHookImpl {
    /** Identifies this hook's listeners. */
    const hook: nat
    const attrs: EditableAttrs
    /** The element marked `data-cke-editable-content`, if any. */
    const content: Option<ElementId>
    /** The element `#<editableId>_input`, if any. */
    const input: InputElement?
    var execution: Execution
    /** `editorPromise` holds the execution's promise (rather than null). */
    var editorPromise: bool
    /** `destroyed` is awaiting the execution's promise (rather than null). */
    var awaitingExecution: bool
    var beingDestroyed: bool
    var hidden: bool

    constructor (hook: nat, attrs: EditableAttrs, content: Option<ElementId>, input: InputElement?)
      ensures this.hook == hook && this.attrs == attrs && this.content == content && this.input == input
      ensures execution == NotStarted && !editorPromise && !awaitingExecution && !beingDestroyed && !hidden
    {
      this.hook := hook;
      this.attrs := attrs;
      this.content := content;
      this.input := input;
      execution := NotStarted;
      editorPromise := false;
      awaitingExecution := false;
      beingDestroyed := false;
      hidden := false;
    }

    function InputSync(): Subscription
    {
      Subscription(DataChanged, EditableInputSync(hook))
    }

    /** `mounted`: hands the callback to the registry, which runs it once the editor exists. */
    method Mounted()
      requires execution == NotStarted
      modifies this`execution, this`editorPromise
      ensures execution == Waiting && editorPromise
    {
      execution := Waiting;
      editorPromise := true;
    }

    /** The registry runs the callback against the editor. A root that already exists is
        left alone; otherwise it is added (not undoable) with the initial value, given an
        editable view over the content element, and mirrored into the input. */
    method RunMountCallback(editor: Editor)
      requires execution == Waiting
      modifies this`execution, editor`roots, editor`calls, editor`editables, editor`subscriptions, input
      ensures execution == Ran(editor)
      ensures attrs.rootName in old(editor.roots) ==>
                && editor.roots == old(editor.roots) && editor.calls == old(editor.calls)
                && editor.editables == old(editor.editables) && editor.subscriptions == old(editor.subscriptions)
                && (input != null ==> input.value == old(input.value))
      ensures attrs.rootName !in old(editor.roots) ==>
                && editor.roots == old(editor.roots)[attrs.rootName := attrs.initialValue]
                && editor.calls == old(editor.calls) + [AddRoot(attrs.rootName, attrs.initialValue, false),
                                                        AddEditable(attrs.rootName, content)]
                && editor.editables == old(editor.editables) + {attrs.rootName}
                && (input != null ==> editor.subscriptions == old(editor.subscriptions) + {InputSync()}
                                      && input.value == attrs.initialValue)
                && (input == null ==> editor.subscriptions == old(editor.subscriptions))
    {
      execution := Ran(editor);
      if attrs.rootName in editor.roots {
        return;
      }
      editor.AddRoot(attrs.rootName, attrs.initialValue, false);
      editor.AddEditable(attrs.rootName, content);
      if input != null {
        editor.On(InputSync());
        input.value := editor.GetData(attrs.rootName);
      }
    }

    /** The debounced `change:data` listener: copies the root's data into the input. The
        engine only serves data of a root it has. */
    method OnInputSync(editor: Editor)
      requires input != null && InputSync() in editor.subscriptions && attrs.rootName in editor.roots
      modifies input
      ensures input.value == editor.roots[attrs.rootName]
    {
      input.value := editor.GetData(attrs.rootName);
    }

    /** `destroyed`, up to its `await`. */
    method Destroyed()
      requires !beingDestroyed
      modifies this`beingDestroyed, this`hidden, this`awaitingExecution
      ensures beingDestroyed && hidden && awaitingExecution == editorPromise
    {
      beingDestroyed := true;
      hidden := true;
      awaitingExecution := editorPromise;
    }

    /** The editor `destroyed` gets from its `await`, once that has settled. */
    function AwaitedEditor(): Option<Editor>
      reads this
    {
      if awaitingExecution && execution.Ran? then Some(execution.editor) else None
    }

    function AwaitedEditors(): set<Editor>
      reads this
    {
      if AwaitedEditor().Some? then {AwaitedEditor().value} else {}
    }

    /** The root is taken out only from a live multi-root editor that still has it. */
    predicate Detaches(editor: Editor)
      reads editor
    {
      !editor.state.Destroyed? && attrs.rootName in editor.roots && editor.canDetach
    }

    /** `destroyed` resumes: drops the promise and detaches the editable and then the root
        (not undoably) when `Detaches` holds, leaving the editor alone otherwise. */
    method ResumeDestroyed()
      requires beingDestroyed && !(awaitingExecution && execution.Waiting?)
      modifies this`editorPromise, AwaitedEditors()
      ensures !editorPromise
      ensures old(AwaitedEditor()).Some? && old(Detaches(AwaitedEditor().value)) ==>
                var e := old(AwaitedEditor()).value;
                && e.roots == old(e.roots) - {attrs.rootName}
                && e.editables == old(e.editables) - {attrs.rootName}
                && e.calls == old(e.calls) + [DetachEditable(attrs.rootName), DetachRoot(attrs.rootName, false)]
                && e.subscriptions == old(e.subscriptions) && e.state == old(e.state)
                && e.focused == old(e.focused) && e.context == old(e.context)
      ensures old(AwaitedEditor()).Some? && !old(Detaches(AwaitedEditor().value)) ==>
                var e := old(AwaitedEditor()).value;
                && e.roots == old(e.roots) && e.editables == old(e.editables) && e.calls == old(e.calls)
                && e.subscriptions == old(e.subscriptions) && e.state == old(e.state)
                && e.focused == old(e.focused) && e.context == old(e.context)
    {
      var editor := AwaitedEditor();
      editorPromise := false;
      if editor.Some? {
        var e := editor.value;
        if !e.state.Destroyed? && attrs.rootName in e.roots && e.canDetach {
          e.DetachEditable(attrs.rootName);
          e.DetachRoot(attrs.rootName, false);
        }
      }
    }
  }

  /** Two editables naming the same root add it once: the second mount finds it and
      changes nothing. */
  method SameRootTwiceScenario()
  {
    var editor := new Editor(map[], true, false, None, map[]);
    var attrs := EditableAttrs("first", Some("ed"), "intro", "<p>Hi</p>");
    var first := new EditableHookImpl(1, attrs, Some(10), null);
    var second := new EditableHookImpl(2, attrs.(editableId := "second"), Some(11), null);
    first.Mounted();
    first.RunMountCallback(editor);
    assert editor.roots == map["intro" := "<p>Hi</p>"];
    second.Mounted();
    second.RunMountCallback(editor);
    assert |editor.calls| == 2;
  }

  /** Mounting mirrors the root into the input; destruction takes the root away again. */
  method MountThenDestroyScenario()
  {
    var editor := new Editor(map[], true, false, None, map[]);
    var input := new InputElement("");
    var hook := new EditableHookImpl(1, EditableAttrs("first", None, "intro", "<p>Hi</p>"), Some(10), input);
    hook.Mounted();
    hook.RunMountCallback(editor);
    assert input.value == "<p>Hi</p>";
    hook.Destroyed();
    hook.ResumeDestroyed();
    assert "intro" !in editor.roots && "intro" !in editor.editables;
  }
}
