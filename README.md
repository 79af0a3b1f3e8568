# ckeditor5-phoenix hooks, modelled in Dafny

This project models the client side of ckeditor5-phoenix. That side is a set of Phoenix
LiveView hooks that mount CKEditor 5 instances into server-rendered pages and keep them in
step with the server. The model covers:

- **The editor hook** (`EditorHook`). It reads the element's attributes and decides what the
  editor is created from: which elements become its roots, what initial data they get,
  whether it must first wait for roots that are not yet in the page, and whether it runs
  inside a context or under its own watchdog. It publishes the editor in the registry and,
  on destruction, tears it down the way it was created.
- **Editable discovery** (`EditablesQuery`). A fold over the candidate elements of the page
  maps each root name to its content element and initial value. The editor's own element
  then fills in or patches `main`.
- **The editable hook** (`EditableHook`). It adds a root to a running multi-root editor,
  mirrors that root's data into an optional input, and detaches the root again.
- **The root value sentinel** (`RootValueSentinel`). It copies a server-rendered value into
  one root without disturbing a user who is typing. While the editor is focused the value
  waits, and the blur applies it; a user edit discards it. The protocol is stated once as a
  state machine over `World` values, and the `Sentinel` class is proved to move its
  abstract state exactly as that machine says.
- **The LiveView channel plugin** (`PhoenixSync`). It pushes root contents on changes, on
  readiness and on focus or blur, and applies `ckeditor5:set-data` commands that are
  broadcast or addressed to this editor.
- **The UI part hook** (`UIPartHook`). It moves an editor's toolbar or menu bar into a
  separate element.
- **The CSRF token lookup** (`CsrfToken`). A meta tag wins over the cookie. The cookie is
  searched for the `_csrf_token` pair with the cookie-pair separator of section 4.2.1 of
  RFC 6265, and the value is percent-decoded as section 2.1 of RFC 3986 describes.

Supporting modules:

- `Wrappers`: `Option` and `Result`.
- `Attributes`: the `x || null`, `x || ''` and `isNil` idioms.
- `Engine`: CKEditor 5 as a class with a root map, a focus flag, a lifecycle state,
  attached editables, a set of listener subscriptions and a log of the calls made on it.
- `EditorsRegistry`: the editor registry, reduced to its published items and recorded errors.

Each asynchronous hook method becomes two methods: one runs up to its `await` and the other
resumes after it (for example `Destroyed` and `ResumeDestroyed`). A promise is a settlement
value, plus a flag or reference saying whether the hook's field still holds that promise.
`EditorsRegistry.the.execute` is a method (`RunMountCallback`) that the environment calls
once the editor exists.

The code and the written design disagree in a few places. The model follows the code:

- The outbound push does not compare a snapshot with the previously pushed one. Every
  debounced change, the `ready` event and every matching focus change push.
- The sentinel compares an update with the last value of the attribute it has seen, not
  with the last value it applied. `previousValue` is set before the `await`, so an update
  to a destroyed editor still counts as seen.
- The sentinel discards a buffered value on any `change:data`, including the one its own
  `setData` fires, not only on user edits.
- After waiting for roots, `initialData` is the per-root record from the new query, even
  for a single-root (decoupled) editor.
- The snapshot filter keeps every root, because every initial value is a string.

## Model

| member | source | states |
|---|---|---|
| Attributes.OrNull | npm_package/src/hooks/editable.ts:21 | an absent or empty attribute reads as null; any other value is kept |
| Attributes.OrDefault | npm_package/src/hooks/editable.ts:23 | an absent or empty attribute reads as the fallback; any other value is kept |
| Attributes.IsNil | npm_package/src/shared/is-nil.test.ts:5-21 | `isNil` holds exactly for null and undefined |
| Attributes.IsNilExactlyNullAndUndefined | npm_package/src/shared/is-nil.test.ts:5-21 | null and undefined are nil; the falsy values `''`, `0` and `false` are not |
| RootValueSentinel.Initial | npm_package/src/hooks/root-value-sentinel.ts:40-57 | before mounting, nothing is seen, buffered, suspended or subscribed, and the invariant holds |
| RootValueSentinel.WriteRoot | npm_package/src/hooks/root-value-sentinel.ts:123-140 | `setRootValue` writes only an existing root whose data differs; only that root changes; exactly one `setData` call is logged when it writes; focus and lifecycle are untouched |
| RootValueSentinel.SetRootValueStep | npm_package/src/hooks/root-value-sentinel.ts:123-140 | a write keeps the protocol invariant; the root takes the value when it exists and nothing changes otherwise; a pending value can only be cleared; the sentinel's other state is untouched |
| RootValueSentinel.MountStep | npm_package/src/hooks/root-value-sentinel.ts:40-57 | mounting records the attribute value as seen and changes neither content nor buffer nor subscriptions |
| RootValueSentinel.ResumeUpdate | npm_package/src/hooks/root-value-sentinel.ts:73-86 | after its `await`, an update does nothing on a null or destroyed editor, buffers on a focused one, and writes through `setRootValue` otherwise |
| RootValueSentinel.ResumeAll | npm_package/src/hooks/root-value-sentinel.ts:73-86 | replaying suspended updates never changes what was seen, the settlement or the subscriptions |
| RootValueSentinel.ResumeAllKeepsInv | npm_package/src/hooks/root-value-sentinel.ts:73-86 | replaying suspended updates after the callback keeps the invariant |
| RootValueSentinel.ResumeWritesThrough | npm_package/src/hooks/root-value-sentinel.ts:81-86 | on an unfocused live editor, a resumed update sets the root to its value and leaves nothing buffered |
| RootValueSentinel.LastSuspendedUpdateWins | npm_package/src/hooks/root-value-sentinel.ts:71-86 | of several updates that waited for the editor, the root ends up with the last value and nothing stays buffered |
| RootValueSentinel.CallbackStep | npm_package/src/hooks/root-value-sentinel.ts:44-56 | the callback subscribes both handlers unless the hook is being destroyed, in which case it yields null and leaves content and buffer alone; the suspended updates are consumed, and with none the content is untouched |
| RootValueSentinel.UpdateStep | npm_package/src/hooks/root-value-sentinel.ts:63-87 | an unchanged value is ignored; a changed one is recorded, then waits for the callback, is dropped (null or destroyed editor), is buffered (focused) or is written (unfocused) |
| RootValueSentinel.DataChangeStep | npm_package/src/hooks/root-value-sentinel.ts:99-101 | a data change drops the buffered value and touches no content |
| RootValueSentinel.FocusChangeStep | npm_package/src/hooks/root-value-sentinel.ts:104-109 | a blur with a buffered value writes it once and empties the buffer; any other focus change changes nothing |
| RootValueSentinel.DestroyStep | npm_package/src/hooks/root-value-sentinel.ts:114-117 | destruction marks the hook and unsubscribes both handlers, leaving content and buffer alone |
| RootValueSentinel.StepKeepsInv | npm_package/src/hooks/root-value-sentinel.ts:40-140 | every event keeps the invariant: handlers are subscribed exactly while the editor is bound and the hook alive, a buffered value waits only on a focused editor, and updates are suspended only before the callback |
| RootValueSentinel.RunKeepsInv | npm_package/src/hooks/root-value-sentinel.ts:40-140 | every sequence of events keeps the invariant, including the engine being destroyed and roots being added under the hook |
| RootValueSentinel.DeferredValueAppliedOnceOnBlur | npm_package/src/hooks/root-value-sentinel.test.ts:144-160 | an update to a focused editor leaves the content; the blur writes it and empties the buffer; a further focus and blur write nothing |
| RootValueSentinel.EditDiscardsDeferredValue | npm_package/src/hooks/root-value-sentinel.test.ts:162-186 | an edit made while a value is buffered wins, and the following blur keeps the edited content |
| RootValueSentinel.AddedRootDiscardsDeferredValue | npm_package/src/hooks/root-value-sentinel.ts:99-111 | a root added while a value is buffered fires `change:data`, which drops the buffered value, so the blur that follows writes nothing |
| RootValueSentinel.BlurWithoutPendingOnlyUnfocuses | npm_package/src/hooks/root-value-sentinel.ts:104-109 | with nothing buffered, a blur changes only the focus flag |
| RootValueSentinel.MountLeavesContent | npm_package/src/hooks/root-value-sentinel.test.ts:66-73 | mounting and running the callback leave the root's content as it was and record the value as seen |
| RootValueSentinel.UpdateAfterEngineDestroyedIsIgnored | npm_package/src/hooks/root-value-sentinel.test.ts:188-196 | an update that arrives after the editor was destroyed changes neither the content nor the buffer, and only records the value as seen |
| RootValueSentinel.UpdateWritesRootAddedLater | npm_package/src/hooks/root-value-sentinel.ts:123-133 | an update for a root the editor does not have yet writes nothing; once the root is added, the next update writes it |
| RootValueSentinel.Sentinel.Mounted | npm_package/src/hooks/root-value-sentinel.ts:40-43 | the abstract state moves as `MountStep` says, with the absent attribute read as `''` |
| RootValueSentinel.Sentinel.RunMountCallback | npm_package/src/hooks/root-value-sentinel.ts:44-56 | the abstract state moves as `CallbackStep` says, replaying the suspended updates in a loop; the editor gains exactly the two subscriptions, or none while destroying |
| RootValueSentinel.Sentinel.SetupSyncHandlers | npm_package/src/hooks/root-value-sentinel.ts:93-118 | exactly the data and focus handlers are added to the editor, and their cleanup is registered |
| RootValueSentinel.Sentinel.Updated | npm_package/src/hooks/root-value-sentinel.ts:63-87 | the abstract state moves as `UpdateStep` says |
| RootValueSentinel.Sentinel.ResumeUpdated | npm_package/src/hooks/root-value-sentinel.ts:73-86 | the abstract state moves as `ResumeUpdate` says |
| RootValueSentinel.Sentinel.SetRootValue | npm_package/src/hooks/root-value-sentinel.ts:123-140 | the abstract state moves as `SetRootValueStep` says, including the handler the write fires |
| RootValueSentinel.Sentinel.OnDataChange | npm_package/src/hooks/root-value-sentinel.ts:99-101 | the abstract state moves as `DataChangeStep` says |
| RootValueSentinel.Sentinel.OnFocusChange | npm_package/src/hooks/root-value-sentinel.ts:104-109 | the abstract state moves as `FocusChangeStep` says |
| RootValueSentinel.Sentinel.Destroyed | npm_package/src/hooks/root-value-sentinel.ts:114-117 | the abstract state moves as `DestroyStep` says, and exactly the two subscriptions leave the editor |
| EditablesQuery.Select | npm_package/src/hooks/editor/utils/query-all-editor-editables.ts:39-45 | the candidates are exactly the page's elements with a root name whose editor id is this editor's or absent |
| EditablesQuery.SelectAppend | npm_package/src/hooks/editor/utils/query-all-editor-editables.ts:39-50 | selection keeps document order: selecting from two consecutive runs of the page concatenates their selections |
| EditablesQuery.SelectAround | npm_package/src/hooks/editor/utils/query-all-editor-editables.ts:39-50 | a selected element sits in the selection after everything selected before it and before everything selected after it |
| EditablesQuery.EntryOf | npm_package/src/hooks/editor/utils/query-all-editor-editables.ts:51-57 | an element contributes exactly when it has a non-empty root name and a content element; a missing initial value becomes `''` |
| EditablesQuery.Collect | npm_package/src/hooks/editor/utils/query-all-editor-editables.ts:47-67 | every folded entry is exactly the entry some element of the input contributes |
| EditablesQuery.CollectKeys | npm_package/src/hooks/editor/utils/query-all-editor-editables.ts:47-67 | a root name is in the folded map exactly when some usable element carries it |
| EditablesQuery.CollectLastWins | npm_package/src/hooks/editor/utils/query-all-editor-editables.ts:59-65 | for a duplicated root name, the last usable element in document order gives the entry |
| EditablesQuery.MergeMain | npm_package/src/hooks/editor/utils/query-all-editor-editables.ts:69-99 | without the editor's element the map is returned as folded; an existing `main` keeps its content and takes the element's value only when its own is empty; otherwise `main` is added only when the content element exists; other roots never change |
| EditablesQuery.QueryAllEditorEditables | npm_package/src/hooks/editor/utils/query-all-editor-editables.ts:38-100 | every root other than `main` is the entry of a selected element of the page; `main` is present only when a selected element names it or the editor's own element has a content element |
| EditablesQuery.QueryAllLastWins | npm_package/src/hooks/editor/utils/query-all-editor-editables.ts:47-67 | for a root other than `main` named by several selected elements of the page, the query holds the entry of the last one in document order |
| EditablesQuery.QueryAllHasEverySelectedRoot | npm_package/src/hooks/editor/utils/query-all-editor-editables.ts:38-100 | every usable selected element's root name is in the query |
| EditablesQuery.QueryEditablesElements | npm_package/src/hooks/editor/utils/query-all-editor-editables.ts:11-15 | the same roots as the full query, each mapped to its content element |
| EditablesQuery.QueryEditablesSnapshotContent | npm_package/src/hooks/editor/utils/query-all-editor-editables.ts:25-30 | the same roots as the full query and as the element query, each mapped to its initial value |
| PhoenixSync.AppliesSetData | npm_package/src/hooks/editor/plugins/sync-editor-with-phoenix.ts:40-44 | a `set-data` command applies exactly when its target is null, undefined or this editor's id |
| PhoenixSync.FocusEventName | npm_package/src/hooks/editor/plugins/sync-editor-with-phoenix.ts:81-82 | the pushed events are named `ckeditor5:focus` and `ckeditor5:blur` |
| PhoenixSync.ShouldPushFocusEvent | npm_package/src/hooks/editor/plugins/sync-editor-with-phoenix.ts:73-79 | a focus listener pushes exactly when the editor is focused, a blur listener exactly when it is not |
| PhoenixSync.Wiring | npm_package/src/hooks/editor/plugins/sync-editor-with-phoenix.ts:28-38 | the change listeners (debounced data and one-shot ready) exist exactly when `change` is asked for, the blur and focus listeners exactly when their flags are, and nothing else is subscribed |
| PhoenixSync.GetEditorRootsValues | npm_package/src/hooks/editor/plugins/sync-editor-with-phoenix.ts:113-120 | the record built one root at a time holds exactly the editor's root names, each with its data |
| PhoenixSync.SyncEditorWithPhoenix.Init | npm_package/src/hooks/editor/plugins/sync-editor-with-phoenix.ts:25-45 | the editor gains exactly the `Wiring` of the flags, and `ckeditor5:set-data` is handled |
| PhoenixSync.SyncEditorWithPhoenix.OnSetData | npm_package/src/hooks/editor/plugins/sync-editor-with-phoenix.ts:40-44 | an applicable command overwrites the named roots through one `setData` call; any other command changes nothing |
| PhoenixSync.SyncEditorWithPhoenix.PushContentChange | npm_package/src/hooks/editor/plugins/sync-editor-with-phoenix.ts:53-61 | exactly one `ckeditor5:change` push with this editor's id and every root's data is made |
| PhoenixSync.SyncEditorWithPhoenix.OnDebouncedDataChange | npm_package/src/hooks/editor/plugins/sync-editor-with-phoenix.ts:63 | the end of a burst of changes pushes every root's data once |
| PhoenixSync.SyncEditorWithPhoenix.OnReady | npm_package/src/hooks/editor/plugins/sync-editor-with-phoenix.ts:64 | readiness pushes every root's data once and the listener removes itself |
| PhoenixSync.SyncEditorWithPhoenix.OnFocusChange | npm_package/src/hooks/editor/plugins/sync-editor-with-phoenix.ts:73-87 | a push named after the listener's kind, carrying every root's data, is made exactly when the focus state matches that kind |
| EditorHook.ReadAttrs | npm_package/src/hooks/editor/editor.ts:47-78 | the save debounce defaults to 400 only when absent (0 stays 0); the UI and content languages default to `en` when absent or empty; the event flags and other attributes are carried over |
| EditorHook.CheckMeansAllPresent | npm_package/src/hooks/editor/editor.ts:283-285 | the check passes exactly when every required root has an element |
| EditorHook.MissingRoots | npm_package/src/hooks/editor/editor.ts:308 | no more roots are missing than are required |
| EditorHook.CheckIfAllRootsArePresent | npm_package/src/hooks/editor/editor.ts:283-285 | true exactly when every required root has an element |
| EditorHook.MissingRootsAreAbsentRequired | npm_package/src/hooks/editor/editor.ts:308 | the missing roots are exactly the required roots without an element, and there are none exactly when the check passes |
| EditorHook.MissingRootsDistributes | npm_package/src/hooks/editor/editor.ts:308 | the filter keeps the required order: the missing roots of a concatenation are those of each part, in turn |
| EditorHook.Join | npm_package/src/hooks/editor/editor.ts:308 | joining nothing gives `''` and joining one part gives that part |
| EditorHook.MissingRootsMessage | npm_package/src/hooks/editor/editor.ts:302-309 | the error is the fixed explanation, then the missing roots joined by `, `, then a full stop |
| EditorHook.MissingRootsMessageNamesAbsentRoots | npm_package/src/hooks/editor/editor.ts:302-309 | with only `main` present of `main`, `header` and `footer`, the message names `header, footer` |
| EditorHook.InitialDataOf | npm_package/src/hooks/editor/editor.ts:213-217 | a single-root editor gets the `main` value, or `''` without one; a multi-root editor gets the whole snapshot |
| EditorHook.DecimalString | npm_package/src/hooks/editor/editor.ts:229 | an index is spelled with decimal digits only, with no leading zero; below ten it is that one digit, and otherwise it ends in the last digit of the index |
| EditorHook.ObjectKeys | npm_package/src/hooks/editor/editor.ts:229 | the keys of a record are its key order; the keys of a string are its indices |
| EditorHook.RequiredRoots | npm_package/src/hooks/editor/editor.ts:226-230 | a decoupled editor requires `main`; any other requires the keys of its initial data |
| EditorHook.MustWaitForRoots | npm_package/src/hooks/editor/editor.ts:225-232 | the editor waits exactly when there is no `main` element and some required root has none |
| EditorHook.Finish | npm_package/src/hooks/editor/editor.ts:238-256 | a single element is passed exactly for a single-root editor with a `main` element, and then it is that element; otherwise the whole element map; the initial data is passed on; the context is used exactly for a single element |
| EditorHook.QueryPage | npm_package/src/hooks/editor/editor.ts:213-221 | the elements and the snapshot come from the same query and name the same roots |
| EditorHook.WaitsOnlyForDecoupledMain | npm_package/src/hooks/editor/editor.ts:213-236 | on a reading of the page, the editor waits exactly when it is decoupled and `main` has no element |
| EditorHook.WaitForAllRootsToBePresent | npm_package/src/hooks/editor/editor.ts:294-316 | the first attempt that finds every required root is the result; the wait fails exactly when no attempt does, and then with the last attempt's message |
| EditorHook.RetryFrom | npm_package/src/hooks/editor/editor.ts:298-315 | from a given attempt on, the first passing attempt is the result, and failure means none passed and carries the last attempt's message |
| EditorHook.PlanEditor | npm_package/src/hooks/editor/editor.ts:212-266 | without a wait, the editor is built from the first reading; after a wait, creation fails exactly when the wait fails, with its message, and otherwise uses the passing reading's elements and its snapshot as a record; a single element is passed only to a single-root editor, and the context is used exactly for a single element |
| EditorHook.PlanFailsOnlyForMissingDecoupledMain | npm_package/src/hooks/editor/editor.ts:225-241 | creation fails only for a decoupled editor without `main`, with a message naming `main`; a multi-root editor is always built outside a context from every root found, with every root's value |
| EditorHook.ExtrasOf | npm_package/src/hooks/editor/editor.ts:166-270 | the editor gets its own watchdog exactly when asked for and not in a context; the input sync exactly for a single root; the height only for a single root with a non-zero height |
| EditorHook.TeardownStrategy | npm_package/src/hooks/editor/editor.ts:129-144 | an unavailable context leaves the editor alone, an available one removes it, otherwise the watchdog or else the editor is destroyed; the four cases are exclusive |
| EditorHook.TeardownCall | npm_package/src/hooks/editor/editor.ts:132-144 | only leaving the editor to its context makes no call; every other teardown makes one removal or destroy call |
| EditorHook.EditorHookImpl.Mounted | npm_package/src/hooks/editor/editor.ts:84-89 | the id's error is cleared first, and the construction starts and is referenced |
| EditorHook.EditorHookImpl.ConstructionSucceeded | npm_package/src/hooks/editor/editor.ts:91-103 | unless the hook is being destroyed, the editor is published under its id and gets exactly the one-shot destroy listener; otherwise the registry and the editor are untouched |
| EditorHook.EditorHookImpl.ConstructionFailed | npm_package/src/hooks/editor/editor.ts:105-108 | a failed construction drops the promise and records the error for the id |
| EditorHook.EditorHookImpl.OnEditorDestroy | npm_package/src/hooks/editor/editor.ts:98-102 | the editor's destruction unpublishes the id if it is published, and the one-shot listener goes away |
| EditorHook.EditorHookImpl.OnWatchdogRestart | npm_package/src/hooks/editor/editor.ts:171-177 | after a restart the new instance is both the promised editor and the published one |
| EditorHook.EditorHookImpl.Destroyed | npm_package/src/hooks/editor/editor.ts:117-123 | the hook is marked, hidden, and awaits the promise its field holds at that moment |
| EditorHook.EditorHookImpl.ResumeDestroyed | npm_package/src/hooks/editor/editor.ts:123-148 | the promise is dropped on every path; no editor means nothing happens; a rejection propagates; an editor is torn down by `TeardownStrategy` and, unless left to its context, is destroyed with exactly that call, loses the one-shot `destroy` listener and is unpublished exactly when that listener was subscribed; its roots, editables, focus and context never change, and an editor left to its context is untouched |
| EditableHook.ReadEditableAttrs | npm_package/src/hooks/editable.ts:18-34 | an absent or empty editor id is null; an absent initial value is `''` |
| EditableHook.EditableHookImpl.Mounted | npm_package/src/hooks/editable.ts:39-44 | the callback is handed to the registry and its promise is referenced |
| EditableHook.EditableHookImpl.RunMountCallback | npm_package/src/hooks/editable.ts:44-67 | an existing root leaves the editor and the input alone; otherwise exactly this root is added with the initial value, not undoably, gets an editable, and the input (if any) is subscribed and holds the root's data |
| EditableHook.EditableHookImpl.OnInputSync | npm_package/src/hooks/editable.ts:108-113 | the input holds the root's current data |
| EditableHook.EditableHookImpl.Destroyed | npm_package/src/hooks/editable.ts:73-80 | the hook is marked, hidden, and awaits the promise its field holds |
| EditableHook.EditableHookImpl.ResumeDestroyed | npm_package/src/hooks/editable.ts:80-91 | the promise is dropped; exactly this root is detached, editable first and not undoably, when the editor is live, has the root and can detach; otherwise the editor is untouched; focus, context, subscriptions and lifecycle never change |
| UIPartHook.MapUIPartView | npm_package/src/hooks/ui-part.ts:73-84 | `toolbar` maps to `toolbar`, `menubar` to `menuBarView`, and every other name to nothing |
| UIPartHook.UnknownPartMessage | npm_package/src/hooks/ui-part.ts:46 | the error quotes the name between the fixed prefix and the list of supported names |
| UIPartHook.PartElement | npm_package/src/hooks/ui-part.ts:42-45 | a part is found exactly when the name is mapped and the view has that part |
| UIPartHook.UIPartHookImpl.Mounted | npm_package/src/hooks/ui-part.ts:35-39 | the callback is handed to the registry and its promise is referenced |
| UIPartHook.UIPartHookImpl.RunMountCallback | npm_package/src/hooks/ui-part.ts:39-51 | a found part's element is appended and nothing is logged; otherwise nothing is appended and exactly the error is logged |
| UIPartHook.UIPartHookImpl.Destroyed | npm_package/src/hooks/ui-part.ts:57-62 | the hook is marked, hidden, and awaits its promise |
| UIPartHook.UIPartHookImpl.ResumeDestroyed | npm_package/src/hooks/ui-part.ts:62-66 | the promise is dropped and the element has no children |
| CsrfToken.ValueStart | npm_package/src/shared/get-csrf-token.ts:15 | the captured value starts inside the cookie string |
| CsrfToken.FirstMatchFrom | npm_package/src/shared/get-csrf-token.ts:15 | the result is a match, and no position before it (from the start point) matches |
| CsrfToken.TakeUntilSemicolon | npm_package/src/shared/get-csrf-token.ts:15 | `[^;]*` takes the longest prefix without a semicolon |
| CsrfToken.CookieValue | npm_package/src/shared/get-csrf-token.ts:15 | there is no value exactly when the pattern matches nowhere, and a value never holds a semicolon |
| CsrfToken.EscapedByte | npm_package/src/shared/get-csrf-token.ts:17 | `%XY` stands for a byte exactly when X and Y are hex digits, and that byte is 16·X+Y |
| CsrfToken.PercentDecode | npm_package/src/shared/get-csrf-token.ts:17 | decoding never lengthens the text |
| CsrfToken.GetCsrfToken | npm_package/src/shared/get-csrf-token.ts:6-18 | a meta tag decides alone (its content, or null without one); without one, null exactly when no cookie pair matches, and otherwise exactly the decoding of the captured value: its text when it decodes, a throw on a malformed escape, and the multi-byte case only from a multi-byte escape |
| CsrfToken.PercentEncode | npm_package/src/shared/get-csrf-token.test.ts:50-53 | the encoding of ASCII text never holds a semicolon, so it fits in a cookie value |
| CsrfToken.HexDigitValue | npm_package/src/shared/get-csrf-token.ts:17 | an upper-case hex digit reads back as its value |
| CsrfToken.DecodePlain | npm_package/src/shared/get-csrf-token.ts:17 | a character other than `%` decodes to itself |
| CsrfToken.DecodeEscape | npm_package/src/shared/get-csrf-token.ts:17 | the escape of an ASCII byte decodes to that character |
| CsrfToken.DecodeEncode | npm_package/src/shared/get-csrf-token.ts:17 | decoding undoes encoding on ASCII text |
| CsrfToken.TakeUntilPrefix | npm_package/src/shared/get-csrf-token.ts:15 | the value ends exactly where the next pair begins |
| CsrfToken.CookieAtStart | npm_package/src/shared/get-csrf-token.ts:15 | a pair at the start of the string gives its raw value, up to the next semicolon |
| CsrfToken.NoMatchInside | npm_package/src/shared/get-csrf-token.ts:15 | nothing inside a first pair that is not the token matches |
| CsrfToken.FirstMatchIs | npm_package/src/shared/get-csrf-token.ts:15 | the leftmost match is taken |
| CsrfToken.SeparatorMatch | npm_package/src/shared/get-csrf-token.ts:15 | after another pair, the pattern matches at the `; ` separator and captures what follows the name |
| CsrfToken.CookieAfterAnother | npm_package/src/shared/get-csrf-token.ts:15 | a pair after another pair is found after the separator |
| CsrfToken.CookieTokenRoundTrip | npm_package/src/shared/get-csrf-token.test.ts:34-37 | a token written encoded as the first pair, followed by nothing or by other pairs, is read back unchanged |
| CsrfToken.MetaTagWins | npm_package/src/shared/get-csrf-token.test.ts:39-48 | a meta tag's content is returned whatever the cookie says |
| CsrfToken.LongerNameIsNotTheToken | npm_package/src/shared/get-csrf-token.ts:15 | `x_csrf_token=abc` gives null |
| CsrfToken.DecodeLiteralPrefix | npm_package/src/shared/get-csrf-token.ts:17 | text without `%` decodes to itself in front of whatever follows |
| CsrfToken.DecodeSpaceAfter | npm_package/src/shared/get-csrf-token.ts:17 | `%20` after such text decodes to a space |
| CsrfToken.DecodesEscapedSpaces | npm_package/src/shared/get-csrf-token.test.ts:50-53 | words separated by `%20` decode to the words separated by spaces |
| CsrfToken.EncodedSpacesAreDecoded | npm_package/src/shared/get-csrf-token.test.ts:50-53 | a cookie value with `%20` escapes gives the token with spaces |
| CsrfToken.DecodeWithoutEscapes | npm_package/src/shared/get-csrf-token.ts:17 | text without `%` decodes to itself |
| CsrfToken.DecodeSlashAfter | npm_package/src/shared/get-csrf-token.ts:17 | a lower-case `%2f` after such text decodes to a slash |
| CsrfToken.EscapedSlashIsDecoded | npm_package/src/shared/get-csrf-token.ts:6-18 | a cookie value `a%2fb` gives the token `a/b` |

## Left out

- The registry's own code is not part of this model. `Registry` keeps only published items
  and recorded errors. `execute`'s queue of waiting callbacks, their order and their
  rejection are left out: the environment calls `RunMountCallback` once the editor exists.
- The CKEditor 5 engine is a stand-in (`Engine.Editor`): a root map, a focus flag, a
  lifecycle state, editables, subscriptions and a call log. Data normalisation, rendering,
  `createEditable`, `forceRender` and the internals of the context and watchdog are left out.
- A detached root is modelled as removed from the root map. The engine may still list it
  through `getRoot`; the model does not capture that.
- An entry of `setData` that names a root the editor does not have is ignored in the model.
  The engine's own handling of such an entry is left out.
- Timing is left out. The debounces (100 ms for the input, `saveDebounceMs` for pushes) are
  reduced to "the last change of a burst is delivered". The 2 s / 100 ms polling of
  `waitFor` is a given sequence of readings.
- EditorHook.WaitForAllRootsToBePresent: the readings it polls are given as a sequence,
  so how many attempts fit in the time-out is not modelled.
- EditorHook.PlanEditor: after a successful wait, the snapshot is taken from the reading
  that passed. The source queries the page once more, which is not modelled.
- EditorHook.PlanEditor: a JavaScript record's key order is a parameter `order`. `PlanEditor`
  accepts any `order`; only `WaitsOnlyForDecoupledMain` and
  `PlanFailsOnlyForMissingDecoupledMain` require it to list the snapshot's keys once each
  (`ListsKeys`). A string's keys are its indices.
- Context lookup and creation (`ContextsRegistry`, `getNearestContextParentPromise`,
  `createEditorInContext`) are left out. A created editor records whether it belongs to a
  context and whether that context is unavailable.
- Loading the editor constructor, plugins, translations and the preset, the licence key,
  the upload adapter (network I/O) and the input-sync plugin for single-root editors are
  left out. `ExtrasOf` records only the decision to add the input sync.
- `el.style.display = 'none'` is modelled as a `hidden` flag.
- `console.error` is modelled as a log of messages.
- `appendChild` moves the part's element out of its previous parent. The model only
  appends it to this element's children.
- The editable hook's debounced input-sync listener is never removed in the source; the
  model keeps it subscribed too. Its debounce is left out.
- A `ckeditor5:set-data` payload whose `data` is a single string rather than a per-root
  record is not modelled.
- CsrfToken.GetCsrfToken: a `%XY` escape of a byte from 0x80 up starts a UTF-8 sequence.
  Its decoding is not modelled, and it yields the distinct outcome `MultiByteToken`.
- CsrfToken.PercentEncode: the encoding side covers ASCII text only.
- RootValueSentinel.Sentinel.Updated: the root name is fixed when the hook is created. The source
  re-reads the root-name attribute on every `updated`, while its data and focus handlers keep
  the name read at mount; a root-name attribute that changes after mounting is not modelled.
- Promises and their interleavings are reduced to the hooks' own flags. A step that
  resumes after an `await` is a separate method, and the environment calls the steps in
  an order LiveView allows. Microtask ordering between different hooks is left out.
