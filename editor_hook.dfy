/**
 * The editor hook: reads its element's attributes, decides how to build the editor
 * (which elements become its roots, what initial data it gets, whether it must first
 * wait for roots that are not in the page yet, whether it runs in a context or under
 * its own watchdog), publishes the built editor in the registry, and tears it down the
 * way it was created.
 */
module EditorHook {
  import opened Wrappers
  import opened Engine
  import Attributes
  import opened EditablesQuery
  import opened EditorsRegistry
  import PhoenixSync

  // ---------------------------------------------------------------- attributes

  /** The element's attributes, with the integer ones already parsed. */
  datatype RawAttributes = RawAttributes(
    id: string,
    contextId: Option<string>,       // cke-context-id
    editableHeight: Option<int>,     // cke-editable-height
    watchdog: bool,                  // has cke-watchdog
    changeEvent: bool,               // has cke-change-event
    blurEvent: bool,                 // has cke-blur-event
    focusEvent: bool,                // has cke-focus-event
    saveDebounceMs: Option<int>,     // cke-save-debounce-ms
    language: Option<string>,        // cke-language
    contentLanguage: Option<string>) // cke-content-language

  datatype Language = Language(ui: string, content: string)

  datatype EditorAttrs = EditorAttrs(
    editorId: string,
    contextId: Option<string>,
    editableHeight: Option<int>,
    watchdog: bool,
    events: PhoenixSync.EventFlags,
    saveDebounceMs: int,
    language: Language)

  const DefaultSaveDebounceMs: int := 400
  const DefaultLanguage: string := "en"

  /** The `attrs` getter: an absent debounce falls back to 400 ms (a zero stays zero), while
      an absent or empty language falls back to English. */
  function ReadAttrs(raw: RawAttributes): (a: EditorAttrs)
    ensures a.editorId == raw.id && a.contextId == raw.contextId && a.editableHeight == raw.editableHeight
    ensures a.watchdog == raw.watchdog
    ensures a.events == PhoenixSync.EventFlags(raw.changeEvent, raw.blurEvent, raw.focusEvent)
    ensures raw.saveDebounceMs.Some? ==> a.saveDebounceMs == raw.saveDebounceMs.value
    ensures raw.saveDebounceMs.None? ==> a.saveDebounceMs == DefaultSaveDebounceMs
    ensures raw.language.Some? && raw.language.value != "" ==> a.language.ui == raw.language.value
    ensures raw.language.None? || raw.language == Some("") ==> a.language.ui == DefaultLanguage
    ensures raw.contentLanguage.Some? && raw.contentLanguage.value != "" ==> a.language.content == raw.contentLanguage.value
    ensures raw.contentLanguage.None? || raw.contentLanguage == Some("") ==> a.language.content == DefaultLanguage
    ensures a.language.ui != "" && a.language.content != ""
  {
    EditorAttrs(
      raw.id, raw.contextId, raw.editableHeight, raw.watchdog,
      PhoenixSync.EventFlags(raw.changeEvent, raw.blurEvent, raw.focusEvent),
      match raw.saveDebounceMs case Some(ms) => ms case None => DefaultSaveDebounceMs,
      Language(Attributes.OrDefault(raw.language, DefaultLanguage),
               Attributes.OrDefault(raw.contentLanguage, DefaultLanguage)))
  }

  // ---------------------------------------------------------------- editor types

  datatype EditorType = Classic | Inline | Balloon | Decoupled | Multiroot

  /** `isSingleRootEditor(type)`: every type but the multi-root one edits a single root. */
  predicate IsSingleRoot(t: EditorType)
  {
    t != Multiroot
  }

  // ---------------------------------------------------------------- missing roots

  /** `checkIfAllRootsArePresent`: `every` over the required roots. */
  function CheckIfAllRootsArePresent(elements: map<string, ElementId>, required: seq<string>): (r: bool)
    ensures r <==> forall i :: 0 <= i < |required| ==> required[i] in elements
    decreases |required|
  {
    required == [] || (required[0] in elements && CheckIfAllRootsArePresent(elements, required[1..]))
  }

  /** The check passes exactly when every required root has an element. */
  lemma {:induction false} CheckMeansAllPresent(elements: map<string, ElementId>, required: seq<string>)
    ensures CheckIfAllRootsArePresent(elements, required) <==> forall k :: k in required ==> k in elements
    decreases |required|
  {
    if required != [] {
      CheckMeansAllPresent(elements, required[1..]);
      assert forall k :: k in required <==> k == required[0] || k in required[1..];
    }
  }

  /** The required roots without an element, in the order they are required. */
  function MissingRoots(elements: map<string, ElementId>, required: seq<string>): (r: seq<string>)
    ensures |r| <= |required|
    decreases |required|
  {
    if required == [] then []
    else (if required[0] in elements then [] else [required[0]]) + MissingRoots(elements, required[1..])
  }

  /** The missing roots are exactly the required roots without an element, so there are
      none exactly when the check passes. */
  lemma {:induction false} MissingRootsAreAbsentRequired(elements: map<string, ElementId>, required: seq<string>)
    ensures forall k :: k in MissingRoots(elements, required) <==> k in required && k !in elements
    ensures MissingRoots(elements, required) == [] <==> CheckIfAllRootsArePresent(elements, required)
    decreases |required|
  {
    if required != [] {
      MissingRootsAreAbsentRequired(elements, required[1..]);
      assert forall k :: k in required <==> k == required[0] || k in required[1..];
    }
  }

  /** Missing roots of a concatenation are the missing roots of each part, in order. */
  lemma {:induction false} MissingRootsDistributes(elements: map<string, ElementId>, a: seq<string>, b: seq<string>)
    ensures MissingRoots(elements, a + b) == MissingRoots(elements, a) + MissingRoots(elements, b)
    decreases |a|
  {
    if a != [] {
      var head := if a[0] in elements then [] else [a[0]];
      assert (a + b)[0] == a[0];
      assert (a + b)[1..] == a[1..] + b;
      assert MissingRoots(elements, a + b) == head + MissingRoots(elements, a[1..] + b);
      MissingRootsDistributes(elements, a[1..], b);
      assert MissingRoots(elements, a) == head + MissingRoots(elements, a[1..]);
    } else {
      assert a + b == b;
    }
  }

  /** `Array.prototype.join`. */
  function Join(parts: seq<string>, sep: string): (r: string)
    ensures parts == [] ==> r == ""
    ensures |parts| == 1 ==> r == parts[0]
    decreases |parts|
  {
    if parts == [] then ""
    else if |parts| == 1 then parts[0]
    else parts[0] + sep + Join(parts[1..], sep)
  }

  const MissingRootsIntro: string :=
    "It looks like not all required root elements are present yet.\n"
    + "* If you want to wait for them, ensure they are registered before editor initialization.\n"
    + "* If you want lazy initialize roots, consider removing root values from the `initialData` config "
    + "and assign initial data in editable components.\n"
    + "Missing roots: "

  /** The error `waitForAllRootsToBePresent` throws on a failed attempt: a fixed explanation,
      then the missing roots in required order separated by ", ", then a full stop. */
  function MissingRootsMessage(elements: map<string, ElementId>, required: seq<string>): (msg: string)
    ensures |msg| > |MissingRootsIntro| && msg[..|MissingRootsIntro|] == MissingRootsIntro
    ensures msg[|MissingRootsIntro|..|msg| - 1] == Join(MissingRoots(elements, required), ", ")
    ensures msg[|msg| - 1] == '.'
  {
    MissingRootsIntro + Join(MissingRoots(elements, required), ", ") + "."
  }

  /** With only `main` present, the message names the other two required roots. */
  lemma MissingRootsMessageNamesAbsentRoots()
    ensures MissingRootsMessage(map["main" := 1], ["main", "header", "footer"])
            == MissingRootsIntro + "header, footer."
  {
  }

  // ---------------------------------------------------------------- initial data and required roots

  /** `initialData`: one string for a single-root editor, one string per root otherwise. */
  datatype InitialData = Text(text: string) | PerRoot(data: map<string, string>)

  /** The initial data given to the constructor before any wait: a single-root editor takes
      the `main` snapshot, or the empty string when there is none (an empty value too). */
  function InitialDataOf(t: EditorType, snapshot: map<string, string>): (r: InitialData)
    ensures IsSingleRoot(t) <==> r.Text?
    ensures IsSingleRoot(t) && "main" in snapshot ==> r.text == snapshot["main"]
    ensures IsSingleRoot(t) && "main" !in snapshot ==> r.text == ""
    ensures !IsSingleRoot(t) ==> r.data == snapshot
  {
    if IsSingleRoot(t) then
      Text(if "main" in snapshot && snapshot["main"] != "" then snapshot["main"] else "")
    else PerRoot(snapshot)
  }

  /** `order` enumerates the keys of `m`, each once (the record's insertion order). */
  ghost predicate ListsKeys(order: seq<string>, m: map<string, string>)
  {
    && (forall k :: k in m <==> k in order)
    && (forall i, j :: 0 <= i < j < |order| ==> order[i] != order[j])
  }

  function DigitChar(d: nat): (c: char)
    requires d < 10
    ensures '0' <= c <= '9' && c as int - '0' as int == d
  {
    ('0' as int + d) as char
  }

  /** The decimal spelling of `n` (`String(n)`), written most significant digit first. */
  function DecimalString(n: nat): (r: string)
    ensures |r| > 0
    ensures n < 10 ==> r == [DigitChar(n)]
    ensures n >= 10 ==> r[|r| - 1] == DigitChar(n % 10)
    ensures forall i :: 0 <= i < |r| ==> '0' <= r[i] <= '9'
    ensures n > 0 ==> r[0] != '0'
    ensures n < 10 <==> |r| == 1
    decreases n
  {
    if n < 10 then [DigitChar(n)] else DecimalString(n / 10) + [DigitChar(n % 10)]
  }

  /** `Object.keys(initialData)`: the record's keys in `order`, or a string's indices. */
  function ObjectKeys(d: InitialData, order: seq<string>): (r: seq<string>)
    ensures d.PerRoot? ==> r == order
    ensures d.Text? ==> |r| == |d.text|
    ensures d.Text? ==> forall i :: 0 <= i < |r| ==> r[i] == DecimalString(i)
  {
    match d
    case Text(s) => seq(|s|, i requires 0 <= i => DecimalString(i))
    case PerRoot(_) => order
  }

  /** The roots whose elements must exist before the editor is created. */
  function RequiredRoots(t: EditorType, d: InitialData, order: seq<string>): (r: seq<string>)
    ensures t == Decoupled ==> r == ["main"]
    ensures t != Decoupled ==> r == ObjectKeys(d, order)
  {
    if t == Decoupled then ["main"] else ObjectKeys(d, order)
  }

  /** The editor is created only after waiting: `main` has no element and some required root is missing. */
  predicate MustWaitForRoots(t: EditorType, elements: map<string, ElementId>, d: InitialData, order: seq<string>): (r: bool)
    ensures r <==> "main" !in elements && exists k :: k in RequiredRoots(t, d, order) && k !in elements
  {
    CheckMeansAllPresent(elements, RequiredRoots(t, d, order));
    "main" !in elements && !CheckIfAllRootsArePresent(elements, RequiredRoots(t, d, order))
  }

  /** What the editor hook finds in the page: the candidate editables and its own element. */
  datatype Page = Page(candidates: seq<Candidate>, root: Option<EditorRootElement>)

  /** One reading of the page: its root elements and its initial values. */
  datatype Poll = Poll(elements: map<string, ElementId>, snapshot: map<string, string>)

  /** `queryEditablesElements` and `queryEditablesSnapshotContent` read together: both come
      from the same query, so they name the same roots. */
  function QueryPage(page: Page, editorId: string): (p: Poll)
    ensures p.elements == QueryEditablesElements(page.candidates, editorId, page.root)
    ensures p.snapshot == QueryEditablesSnapshotContent(page.candidates, editorId, page.root)
    ensures p.elements.Keys == p.snapshot.Keys
  {
    Poll(QueryEditablesElements(page.candidates, editorId, page.root),
         QueryEditablesSnapshotContent(page.candidates, editorId, page.root))
  }

  /** Only a decoupled editor ever waits, and it waits exactly when `main` has no element:
      the elements and the snapshot name the same roots, so the roots a multi-root editor
      requires are present, and a single-root editor without `main` has empty initial data
      and so requires nothing. */
  lemma WaitsOnlyForDecoupledMain(t: EditorType, page: Page, editorId: string, order: seq<string>)
    requires ListsKeys(order, QueryPage(page, editorId).snapshot)
    ensures var p := QueryPage(page, editorId);
            MustWaitForRoots(t, p.elements, InitialDataOf(t, p.snapshot), order)
            <==> t == Decoupled && "main" !in p.elements
  {
    var p := QueryPage(page, editorId);
    var d := InitialDataOf(t, p.snapshot);
    if t != Decoupled && "main" !in p.elements {
      if IsSingleRoot(t) {
        assert "main" !in p.snapshot;
        assert RequiredRoots(t, d, order) == [];
      } else {
        assert RequiredRoots(t, d, order) == order;
        CheckMeansAllPresent(p.elements, order);
      }
    }
  }

  // ---------------------------------------------------------------- creation plan

  /** The first argument of the constructor: one element, or a record of root elements. */
  datatype Sources = SingleElement(element: ElementId) | ElementsByRoot(elements: map<string, ElementId>)

  /** What `createEditor` hands to the constructor, and whether through the context. */
  datatype Plan = Plan(sources: Sources, initialData: InitialData, inContext: bool)

  /** `waitFor`: the check runs on successive attempts until one passes, and yields the
      index of the first passing attempt; when none passes before the time-out the error of
      the last attempt is the rejection. Each attempt is given by the reading it took; how
      many attempts fit in the 2 s time-out (one every 100 ms) is timing. */
  function WaitForAllRootsToBePresent(required: seq<string>, attempts: seq<Poll>): (r: Result<nat, string>)
    requires attempts != []
    ensures r.Success? ==> r.value < |attempts| && CheckIfAllRootsArePresent(attempts[r.value].elements, required)
    ensures r.Success? ==> forall i :: 0 <= i < r.value ==> !CheckIfAllRootsArePresent(attempts[i].elements, required)
    ensures r.Failure? <==> forall i :: 0 <= i < |attempts| ==> !CheckIfAllRootsArePresent(attempts[i].elements, required)
    ensures r.Failure? ==> r.error == MissingRootsMessage(attempts[|attempts| - 1].elements, required)
  {
    RetryFrom(required, attempts, 0)
  }

  /** The attempts from `from` on. */
  function RetryFrom(required: seq<string>, attempts: seq<Poll>, from: nat): (r: Result<nat, string>)
    requires from < |attempts|
    ensures r.Success? ==> from <= r.value < |attempts| && CheckIfAllRootsArePresent(attempts[r.value].elements, required)
    ensures r.Success? ==> forall i :: from <= i < r.value ==> !CheckIfAllRootsArePresent(attempts[i].elements, required)
    ensures r.Failure? <==> forall i :: from <= i < |attempts| ==> !CheckIfAllRootsArePresent(attempts[i].elements, required)
    ensures r.Failure? ==> r.error == MissingRootsMessage(attempts[|attempts| - 1].elements, required)
    decreases |attempts| - from
  {
    if CheckIfAllRootsArePresent(attempts[from].elements, required) then Success(from)
    else if from == |attempts| - 1 then Failure(MissingRootsMessage(attempts[from].elements, required))
    else RetryFrom(required, attempts, from + 1)
  }

  /** The unwrapping of the single root and the choice between the context and the constructor. */
  function Finish(t: EditorType, hasContext: bool, elements: map<string, ElementId>, d: InitialData): (r: Plan)
    ensures r.sources.SingleElement? <==> IsSingleRoot(t) && "main" in elements
    ensures r.sources.SingleElement? ==> r.sources.element == elements["main"]
    ensures r.sources.ElementsByRoot? ==> r.sources.elements == elements
    ensures r.initialData == d
    ensures r.inContext <==> hasContext && IsSingleRoot(t) && "main" in elements
  {
    var sources := if IsSingleRoot(t) && "main" in elements then SingleElement(elements["main"]) else ElementsByRoot(elements);
    Plan(sources, d, hasContext && sources.SingleElement?)
  }

  /** The part of `createEditor` that decides what the editor is created from, given the
      first reading of the page and the readings taken while waiting. After a wait, the
      snapshot of the passing reading is used as a record, for any editor type. */
  function PlanEditor(t: EditorType, hasContext: bool, first: Poll, order: seq<string>, polls: seq<Poll>): (r: Result<Plan, string>)
    requires polls != []
    ensures !MustWaitForRoots(t, first.elements, InitialDataOf(t, first.snapshot), order) ==>
              r == Success(Finish(t, hasContext, first.elements, InitialDataOf(t, first.snapshot)))
    ensures r.Failure? ==>
              && MustWaitForRoots(t, first.elements, InitialDataOf(t, first.snapshot), order)
              && r.error == MissingRootsMessage(polls[|polls| - 1].elements, RequiredRoots(t, InitialDataOf(t, first.snapshot), order))
    ensures r.Success? && r.value.sources.SingleElement? ==> IsSingleRoot(t)
    ensures r.Success? && r.value.sources.ElementsByRoot? ==> !IsSingleRoot(t) || "main" !in r.value.sources.elements
    ensures r.Success? ==> (r.value.inContext <==> hasContext && r.value.sources.SingleElement?)
    ensures MustWaitForRoots(t, first.elements, InitialDataOf(t, first.snapshot), order) ==>
              var w := WaitForAllRootsToBePresent(RequiredRoots(t, InitialDataOf(t, first.snapshot), order), polls);
              && (r.Failure? <==> w.Failure?)
              && (w.Success? ==> r == Success(Finish(t, hasContext, polls[w.value].elements, PerRoot(polls[w.value].snapshot))))
  {
    var initialData := InitialDataOf(t, first.snapshot);
    var required := RequiredRoots(t, initialData, order);
    if "main" !in first.elements && !CheckIfAllRootsArePresent(first.elements, required) then
      match WaitForAllRootsToBePresent(required, polls)
      case Failure(error) => Failure(error)
      case Success(i) => Success(Finish(t, hasContext, polls[i].elements, PerRoot(polls[i].snapshot)))
    else
      Success(Finish(t, hasContext, first.elements, initialData))
  }

  /** On a reading of the page, creation fails only for a decoupled editor whose `main`
      element never appears, and a multi-root editor is always created from every root
      found, with every root's initial value. */
  lemma PlanFailsOnlyForMissingDecoupledMain(t: EditorType, hasContext: bool, page: Page, editorId: string,
                                             order: seq<string>, polls: seq<Poll>)
    requires ListsKeys(order, QueryPage(page, editorId).snapshot)
    requires polls != []
    ensures var p := QueryPage(page, editorId);
            var r := PlanEditor(t, hasContext, p, order, polls);
            && (r.Failure? ==> t == Decoupled && "main" !in p.elements
                               && r.error == MissingRootsMessage(polls[|polls| - 1].elements, ["main"]))
            && (t == Multiroot ==> r == Success(Plan(ElementsByRoot(p.elements), PerRoot(p.snapshot), false)))
  {
    WaitsOnlyForDecoupledMain(t, page, editorId, order);
  }

  /** The rest of `createEditor`'s decisions. */
  datatype Extras = Extras(ownWatchdog: bool, inputSync: bool, editableHeight: Option<int>)

  function ExtrasOf(t: EditorType, attrs: EditorAttrs, hasContext: bool): (r: Extras)
    ensures r.ownWatchdog <==> attrs.watchdog && !hasContext
    ensures r.inputSync <==> IsSingleRoot(t)
    ensures r.editableHeight.Some? <==> IsSingleRoot(t) && attrs.editableHeight.Some? && attrs.editableHeight.value != 0
    ensures r.editableHeight.Some? ==> r.editableHeight == attrs.editableHeight
  {
    Extras(attrs.watchdog && !hasContext, IsSingleRoot(t),
           if IsSingleRoot(t) && attrs.editableHeight.Some? && attrs.editableHeight.value != 0
           then attrs.editableHeight else None)
  }

  // ---------------------------------------------------------------- teardown

  datatype Teardown = LeaveToContext | RemoveFromContext(editorContextId: string) | DestroyWatchdog | DestroyEditor

  /** How `destroyed` tears the editor down, from what the editor was created through. */
  function TeardownStrategy(context: Option<ContextLink>, hasWatchdog: bool): (t: Teardown)
    ensures t == LeaveToContext <==> context.Some? && context.value.unavailable
    ensures t.RemoveFromContext? <==> context.Some? && !context.value.unavailable
    ensures t.RemoveFromContext? ==> t.editorContextId == context.value.editorContextId
    ensures t == DestroyWatchdog <==> context.None? && hasWatchdog
    ensures t == DestroyEditor <==> context.None? && !hasWatchdog
  {
    match context
    case Some(link) => if link.unavailable then LeaveToContext else RemoveFromContext(link.editorContextId)
    case None => if hasWatchdog then DestroyWatchdog else DestroyEditor
  }

  /** The engine call a teardown makes, if any. */
  function TeardownCall(t: Teardown): (c: Option<Call>)
    ensures c.None? <==> t == LeaveToContext
    ensures c.Some? ==> c.value.ContextRemove? || c.value.WatchdogDestroy? || c.value.EditorDestroy?
  {
    match t
    case LeaveToContext => None
    case RemoveFromContext(id) => Some(ContextRemove(id))
    case DestroyWatchdog => Some(WatchdogDestroy)
    case DestroyEditor => Some(EditorDestroy)
  }

  // ---------------------------------------------------------------- the hook

  /** The `createEditor()` promise. */
  datatype Settlement = NotStarted | Pending | Built(editor: Editor) | Failed(error: string)

  /** The value of the `editorPromise` field. */
  datatype PromiseRef = NoPromise | Construction | Resolved(editor: Editor)

  /** What the promise awaited by `destroyed` holds. */
  datatype Awaited = NoEditor | EditorValue(editor: Editor) | Rejection(error: string) | Unsettled

  datatype DestroyOutcome = NothingToDestroy | TornDown(teardown: Teardown) | Rethrown(error: string)

  class EditorHookImpl {
    const editorId: string
    const registry: Registry
    var editorPromise: PromiseRef
    var construction: Settlement
    var beingDestroyed: bool
    /** `editorPromise` as it was when `destroyed` started awaiting it. */
    var awaitedByDestroy: PromiseRef
    /** `el.style.display = 'none'`. */
    var hidden: bool

    constructor (editorId: string, registry: Registry)
      ensures this.editorId == editorId && this.registry == registry
      ensures editorPromise == NoPromise && construction == NotStarted
      ensures !beingDestroyed && awaitedByDestroy == NoPromise && !hidden
    {
      this.editorId := editorId;
      this.registry := registry;
      editorPromise := NoPromise;
      construction := NotStarted;
      beingDestroyed := false;
      awaitedByDestroy := NoPromise;
      hidden := false;
    }

    /** `mounted`, up to its `await`: clears the id's error and starts the construction. */
    method Mounted()
      requires construction == NotStarted
      modifies registry`errors, this`editorPromise, this`construction
      ensures registry.errors == old(registry.errors) - {editorId}
      ensures editorPromise == Construction && construction == Pending
    {
      registry.ResetErrors(editorId);
      construction := Pending;
      editorPromise := Construction;
    }

    /** `mounted` resumes with the built editor: it is published and unpublished on its own
        destruction, unless the hook is already being destroyed. */
    method ConstructionSucceeded(editor: Editor)
      requires construction == Pending
      modifies this`construction, registry`items, editor`subscriptions
      ensures construction == Built(editor) && editorPromise == old(editorPromise)
      ensures !beingDestroyed ==>
                && registry.items == old(registry.items)[editorId := editor]
                && editor.subscriptions == old(editor.subscriptions) + {Subscription(EditorDestroyed, RegistryUnregister(editorId))}
      ensures beingDestroyed ==>
                registry.items == old(registry.items) && editor.subscriptions == old(editor.subscriptions)
    {
      construction := Built(editor);
      if !beingDestroyed {
        registry.Register(editorId, editor);
        editor.On(Subscription(EditorDestroyed, RegistryUnregister(editorId)));
      }
    }

    /** `mounted` resumes with a rejection: the promise is dropped and the error recorded. */
    method ConstructionFailed(error: string)
      requires construction == Pending
      modifies this`construction, this`editorPromise, registry`errors
      ensures construction == Failed(error) && editorPromise == NoPromise
      ensures registry.errors == old(registry.errors)[editorId := error]
    {
      construction := Failed(error);
      editorPromise := NoPromise;
      registry.Error(editorId, error);
    }

    /** The one-shot `destroy` listener: unpublishes the id if it is still published. */
    method OnEditorDestroy(editor: Editor)
      requires Subscription(EditorDestroyed, RegistryUnregister(editorId)) in editor.subscriptions
      modifies registry`items, editor`subscriptions
      ensures registry.items == old(registry.items) - {editorId}
      ensures editor.subscriptions == old(editor.subscriptions) - {Subscription(EditorDestroyed, RegistryUnregister(editorId))}
    {
      editor.Off(Subscription(EditorDestroyed, RegistryUnregister(editorId)));
      if registry.HasItem(editorId) {
        registry.Unregister(editorId);
      }
    }

    /** The watchdog's `restart` listener: the new instance replaces the old everywhere. */
    method OnWatchdogRestart(newInstance: Editor)
      requires construction.Built? && construction.editor.hasWatchdog
      modifies this`editorPromise, registry`items
      ensures editorPromise == Resolved(newInstance)
      ensures registry.items == old(registry.items)[editorId := newInstance]
    {
      editorPromise := Resolved(newInstance);
      registry.Register(editorId, newInstance);
    }

    /** `destroyed`, up to its `await`. */
    method Destroyed()
      requires !beingDestroyed
      modifies this`beingDestroyed, this`hidden, this`awaitedByDestroy
      ensures beingDestroyed && hidden && awaitedByDestroy == editorPromise
    {
      beingDestroyed := true;
      hidden := true;
      awaitedByDestroy := editorPromise;
    }

    function AwaitedValue(): Awaited
      reads this
    {
      match awaitedByDestroy
      case NoPromise => NoEditor
      case Resolved(e) => EditorValue(e)
      case Construction =>
        match construction
        case Built(e) => EditorValue(e)
        case Failed(error) => Rejection(error)
        case _ => Unsettled
    }

    function AwaitedEditors(): set<Editor>
      reads this
    {
      if AwaitedValue().EditorValue? then {AwaitedValue().editor} else {}
    }

    /** `destroyed` resumes once the awaited promise settles: the editor is torn down the way
        it was created, the promise is dropped on every path, and a rejection propagates. */
    method ResumeDestroyed() returns (outcome: DestroyOutcome)
      requires beingDestroyed && !AwaitedValue().Unsettled?
      modifies this`editorPromise, registry`items, AwaitedEditors()
      ensures editorPromise == NoPromise
      ensures old(AwaitedValue()) == NoEditor ==> outcome == NothingToDestroy && registry.items == old(registry.items)
      ensures old(AwaitedValue()).Rejection? ==>
                outcome == Rethrown(old(AwaitedValue()).error) && registry.items == old(registry.items)
      ensures old(AwaitedValue()).EditorValue? ==>
                var e := old(AwaitedValue()).editor;
                var teardown := TeardownStrategy(old(e.context), e.hasWatchdog);
                var listener := Subscription(EditorDestroyed, RegistryUnregister(editorId));
                && outcome == TornDown(teardown)
                && e.roots == old(e.roots) && e.editables == old(e.editables)
                && e.focused == old(e.focused) && e.context == old(e.context)
                && (teardown == LeaveToContext ==>
                      && e.state == old(e.state) && e.calls == old(e.calls)
                      && e.subscriptions == old(e.subscriptions) && registry.items == old(registry.items))
                && (teardown != LeaveToContext ==>
                      && e.state.Destroyed?
                      && e.calls == old(e.calls) + [TeardownCall(teardown).value]
                      && e.subscriptions == old(e.subscriptions) - {listener}
                      && (listener in old(e.subscriptions) ==> registry.items == old(registry.items) - {editorId})
                      && (listener !in old(e.subscriptions) ==> registry.items == old(registry.items)))
    {
      var value := AwaitedValue();
      match value {
        case NoEditor =>
          outcome := NothingToDestroy;
        case Rejection(error) =>
          outcome := Rethrown(error);
        case EditorValue(e) =>
          var teardown := TeardownStrategy(e.context, e.hasWatchdog);
          var call := TeardownCall(teardown);
          if call.Some? {
            e.Destroy(call.value);
            if Subscription(EditorDestroyed, RegistryUnregister(editorId)) in e.subscriptions {
              OnEditorDestroy(e);
            }
          }
          outcome := TornDown(teardown);
        case Unsettled =>
          assert false;
      }
      editorPromise := NoPromise;
    }
  }
}
