/**
 * The UI part hook: an element that receives one part of an editor's user interface (its
 * toolbar or its menu bar), typically of a multi-root editor whose UI has no fixed place.
 */
module UIPartHook {
  import opened Wrappers
  import opened Engine

  /** `mapUIPartView`: the accessor of the editor view holding the named part. */
  function MapUIPartView(name: string): (r: Option<string>)
    ensures r == Some("toolbar") <==> name == "toolbar"
    ensures r == Some("menuBarView") <==> name == "menubar"
    ensures r.None? <==> name != "toolbar" && name != "menubar"
  {
    match name
    case "toolbar" => Some("toolbar")
    case "menubar" => Some("menuBarView")
    case _ => None
  }

  const UnknownPartPrefix: string := "Unknown UI part name: \""
  const UnknownPartSuffix: string := "\". Supported names are \"toolbar\" and \"menubar\"."

  /** The console error for a part the editor view does not have: it quotes the name. */
  function UnknownPartMessage(name: string): (msg: string)
    ensures |msg| == |UnknownPartPrefix| + |name| + |UnknownPartSuffix|
    ensures msg[..|UnknownPartPrefix|] == UnknownPartPrefix
    ensures msg[|UnknownPartPrefix|..|UnknownPartPrefix| + |name|] == name
    ensures msg[|UnknownPartPrefix| + |name|..] == UnknownPartSuffix
  {
    UnknownPartPrefix + name + UnknownPartSuffix
  }

  /** The part of `ui.view` the name selects, if the view has it. */
  function PartElement(viewParts: map<string, ElementId>, name: string): (r: Option<ElementId>)
    ensures r.Some? <==> MapUIPartView(name).Some? && MapUIPartView(name).value in viewParts
    ensures r.Some? ==> r.value == viewParts[MapUIPartView(name).value]
  {
    var view := MapUIPartView(name);
    if view.Some? && view.value in viewParts then Some(viewParts[view.value]) else None
  }

  /** The promise `execute` returned: not asked yet, waiting for the editor, or done. */
  datatype Execution = NotStarted | Waiting | Done

  class UIPartHookImpl {
    /** `data-cke-ui-part-name`. */
    const name: string
    /** The element's children. */
    var children: seq<ElementId>
    /** Messages written to the console. */
    var consoleErrors: seq<string>
    var execution: Execution
    /** `mountedPromise` holds the execution's promise (rather than null). */
    var mountedPromise: bool
    var awaitingExecution: bool
    var beingDestroyed: bool
    var hidden: bool

    constructor (name: string)
      ensures this.name == name && children == [] && consoleErrors == []
      ensures execution == NotStarted && !mountedPromise && !awaitingExecution && !beingDestroyed && !hidden
    {
      this.name := name;
      children := [];
      consoleErrors := [];
      execution := NotStarted;
      mountedPromise := false;
      awaitingExecution := false;
      beingDestroyed := false;
      hidden := false;
    }

    /** `mounted`: hands the callback to the registry, which runs it once the editor exists. */
    method Mounted()
      requires execution == NotStarted
      modifies this`execution, this`mountedPromise
      ensures execution == Waiting && mountedPromise
    {
      execution := Waiting;
      mountedPromise := true;
    }

    /** The registry runs the callback: the part's element is moved into this element, or,
        for a name that is not mapped or a part the view lacks, an error is logged. */
    method RunMountCallback(editor: Editor)
      requires execution == Waiting
      modifies this`execution, this`children, this`consoleErrors
      ensures execution == Done
      ensures PartElement(editor.viewParts, name).Some? ==>
                children == old(children) + [PartElement(editor.viewParts, name).value]
                && consoleErrors == old(consoleErrors)
      ensures PartElement(editor.viewParts, name).None? ==>
                children == old(children) && consoleErrors == old(consoleErrors) + [UnknownPartMessage(name)]
    {
      execution := Done;
      var uiViewName := MapUIPartView(name);
      if uiViewName.None? || uiViewName.value !in editor.viewParts {
        consoleErrors := consoleErrors + [UnknownPartMessage(name)];
        return;
      }
      children := children + [editor.viewParts[uiViewName.value]];
    }

    /** `destroyed`, up to its `await`. */
    method Destroyed()
      requires !beingDestroyed
      modifies this`beingDestroyed, this`hidden, this`awaitingExecution
      ensures beingDestroyed && hidden && awaitingExecution == mountedPromise
    {
      beingDestroyed := true;
      hidden := true;
      awaitingExecution := mountedPromise;
    }

    /** `destroyed` resumes: drops the promise and empties the element. */
    method ResumeDestroyed()
      requires beingDestroyed && !(awaitingExecution && execution == Waiting)
      modifies this`mountedPromise, this`children
      ensures !mountedPromise && children == []
    {
      mountedPromise := false;
      children := [];
    }
  }

  /** A menu bar lands in its element; an unsupported name only logs; destruction empties. */
  method MenuBarScenario()
  {
    var editor := new Editor(map["main" := ""], true, false, None, map["toolbar" := 7, "menuBarView" := 8]);
    var menubar := new UIPartHookImpl("menubar");
    menubar.Mounted();
    menubar.RunMountCallback(editor);
    assert menubar.children == [8];
    var sidebar := new UIPartHookImpl("sidebar");
    sidebar.Mounted();
    sidebar.RunMountCallback(editor);
    assert sidebar.children == [] && |sidebar.consoleErrors| == 1;
    menubar.Destroyed();
    menubar.ResumeDestroyed();
    assert menubar.children == [];
  }
}
