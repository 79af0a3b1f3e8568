/**
 * Discovery of an editor's editables in the page: a fold over the candidate elements
 * in document order that builds a map from root name to {content element, initial
 * value}, followed by a merge of the editor's own element as the `main` root.
 */
module EditablesQuery {
  import opened Wrappers
  import opened Engine
  import Attributes

  /** An element of the page, with the attributes and the descendant the query looks at. */
  datatype Candidate = Candidate(
    editorIdAttr: Option<string>,      // data-cke-editor-id
    rootNameAttr: Option<string>,      // data-cke-editable-root-name
    initialValueAttr: Option<string>,  // data-cke-editable-initial-value
    content: Option<ElementId>)        // first descendant with data-cke-editable-content

  /** The editor hook's own element (`[phx-hook="CKEditor5"][id=<editorId>]`). */
  datatype EditorRootElement = EditorRootElement(
    initialValueAttr: Option<string>,  // cke-initial-value
    content: Option<ElementId>)        // descendant `#<editorId>_editor`

  datatype EditableItem = EditableItem(content: ElementId, initialValue: string)

  /** The selector: the element has a root-name attribute, and its editor id is `editorId` or absent. */
  predicate Selected(c: Candidate, editorId: string)
  {
    c.rootNameAttr.Some? && (c.editorIdAttr == Some(editorId) || c.editorIdAttr.None?)
  }

  /** `querySelectorAll`: the selected elements, in document order. */
  function Select(page: seq<Candidate>, editorId: string): (r: seq<Candidate>)
    ensures forall c :: c in r <==> c in page && Selected(c, editorId)
    ensures |r| <= |page|
    decreases |page|
  {
    if page == [] then []
    else
      var rest := Select(page[1..], editorId);
      assert forall c :: c in page <==> c == page[0] || c in page[1..];
      if Selected(page[0], editorId) then [page[0]] + rest else rest
  }

  /** The entry one element contributes: none without a (non-empty) root name or a content element. */
  function EntryOf(c: Candidate): (r: Option<(string, EditableItem)>)
    ensures r.Some? <==> c.rootNameAttr.Some? && c.rootNameAttr.value != "" && c.content.Some?
    ensures r.Some? ==> r.value.0 == c.rootNameAttr.value && r.value.1.content == c.content.value
    ensures r.Some? ==> r.value.1.initialValue == Attributes.OrDefault(c.initialValueAttr, "")
  {
    var name := Attributes.OrNull(c.rootNameAttr);
    if name.None? || c.content.None? then None
    else Some((name.value, EditableItem(c.content.value, Attributes.OrDefault(c.initialValueAttr, ""))))
  }

  /** The `reduce`: each usable element sets its root name's entry, so later elements override. */
  function Collect(elements: seq<Candidate>): (r: map<string, EditableItem>)
    ensures forall k :: k in r ==> exists c :: c in elements && EntryOf(c) == Some((k, r[k]))
    decreases |elements|
  {
    if elements == [] then map[]
    else
      var acc := Collect(elements[..|elements| - 1]);
      assert forall c :: c in elements[..|elements| - 1] ==> c in elements;
      match EntryOf(elements[|elements| - 1])
      case None => acc
      case Some(entry) => acc[entry.0 := entry.1]
  }

  /** Element `i` contributes an entry for root `k`. */
  ghost predicate EntryAt(elements: seq<Candidate>, i: int, k: string)
  {
    0 <= i < |elements| && EntryOf(elements[i]).Some? && EntryOf(elements[i]).value.0 == k
  }

  /** A root name is collected exactly when some usable element carries it. */
  lemma {:induction false} CollectKeys(elements: seq<Candidate>, k: string)
    ensures k in Collect(elements) <==> exists i :: EntryAt(elements, i, k)
    decreases |elements|
  {
    if elements != [] {
      var n := |elements| - 1;
      var init := elements[..n];
      CollectKeys(init, k);
      forall i | EntryAt(init, i, k) ensures EntryAt(elements, i, k) {
        assert elements[i] == init[i];
      }
      forall i | EntryAt(elements, i, k) && i < n ensures EntryAt(init, i, k) {
        assert elements[i] == init[i];
      }
      if EntryAt(elements, n, k) {
        assert k in Collect(elements);
      } else {
        assert Collect(elements).Keys == Collect(init).Keys + if EntryOf(elements[n]).Some? then {EntryOf(elements[n]).value.0} else {};
      }
    }
  }

  /** For a duplicated root name, the last usable element in document order wins. */
  lemma {:induction false} CollectLastWins(elements: seq<Candidate>, k: string, i: int)
    requires EntryAt(elements, i, k)
    requires forall j :: i < j < |elements| ==> !EntryAt(elements, j, k)
    ensures k in Collect(elements) && Collect(elements)[k] == EntryOf(elements[i]).value.1
    decreases |elements|
  {
    var n := |elements| - 1;
    var init := elements[..n];
    if i < n {
      assert !EntryAt(elements, n, k);
      assert EntryAt(init, i, k) by { assert elements[i] == init[i]; }
      forall j | i < j < |init| ensures !EntryAt(init, j, k) {
        assert elements[j] == init[j];
        assert !EntryAt(elements, j, k);
      }
      CollectLastWins(init, k, i);
    }
  }

  /** Fills in or patches `main` from the editor's own element. */
  function MergeMain(acc: map<string, EditableItem>, root: Option<EditorRootElement>): (r: map<string, EditableItem>)
    ensures root.None? ==> r == acc
    ensures forall k :: k in acc && k != "main" ==> k in r && r[k] == acc[k]
    ensures r.Keys == acc.Keys + if root.Some? && root.value.content.Some? then {"main"} else {}
    ensures root.Some? && "main" in acc ==>
              && r["main"].content == acc["main"].content
              && (acc["main"].initialValue != "" ==> r["main"].initialValue == acc["main"].initialValue)
              && (acc["main"].initialValue == "" ==>
                    r["main"].initialValue == Attributes.OrDefault(root.value.initialValueAttr, ""))
    ensures root.Some? && "main" !in acc && root.value.content.Some? ==>
              r["main"] == EditableItem(root.value.content.value, Attributes.OrDefault(root.value.initialValueAttr, ""))
    ensures root.Some? && "main" !in acc && root.value.content.None? ==> r == acc
  {
    match root
    case None => acc
    case Some(element) =>
      var rootInitialValue := Attributes.OrDefault(element.initialValueAttr, "");
      if "main" in acc then
        var current := acc["main"];
        acc["main" := current.(initialValue := if current.initialValue == "" then rootInitialValue else current.initialValue)]
      else if element.content.Some? then
        acc["main" := EditableItem(element.content.value, rootInitialValue)]
      else
        acc
  }

  /** `queryAllEditorEditables(editorId)` over a page and the editor's own element, if any. */
  function QueryAllEditorEditables(page: seq<Candidate>, editorId: string, root: Option<EditorRootElement>): (r: map<string, EditableItem>)
    ensures forall k :: k in r && k != "main" ==>
              exists c :: c in page && Selected(c, editorId) && EntryOf(c) == Some((k, r[k]))
    ensures "main" in r ==>
              || (exists c :: c in page && Selected(c, editorId) && EntryOf(c).Some? && EntryOf(c).value.0 == "main")
              || (root.Some? && root.value.content.Some?)
  {
    MergeMain(Collect(Select(page, editorId)), root)
  }

  /** Selection keeps document order: selecting from two runs of the page is selecting
      from each and concatenating the results. */
  lemma {:induction false} SelectAppend(a: seq<Candidate>, b: seq<Candidate>, editorId: string)
    ensures Select(a + b, editorId) == Select(a, editorId) + Select(b, editorId)
    decreases |a|
  {
    if a == [] {
      assert a + b == b;
    } else {
      assert (a + b)[0] == a[0];
      assert (a + b)[1..] == a[1..] + b;
      SelectAppend(a[1..], b, editorId);
    }
  }

  /** A selected element splits the selection into what comes before it and after it. */
  lemma SelectAround(page: seq<Candidate>, editorId: string, i: int)
    requires 0 <= i < |page| && Selected(page[i], editorId)
    ensures Select(page, editorId) == Select(page[..i], editorId) + ([page[i]] + Select(page[i + 1..], editorId))
  {
    assert page == page[..i] + ([page[i]] + page[i + 1..]);
    SelectAppend(page[..i], [page[i]] + page[i + 1..], editorId);
    SelectAppend([page[i]], page[i + 1..], editorId);
    assert [page[i]][1..] == [];
  }

  /** For a root other than `main` named by several selected elements, the query holds the
      entry of the last one in document order. */
  lemma QueryAllLastWins(page: seq<Candidate>, editorId: string, root: Option<EditorRootElement>, i: int, k: string)
    requires 0 <= i < |page| && Selected(page[i], editorId)
    requires EntryOf(page[i]).Some? && EntryOf(page[i]).value.0 == k && k != "main"
    requires forall j :: i < j < |page| && Selected(page[j], editorId) ==>
               EntryOf(page[j]).None? || EntryOf(page[j]).value.0 != k
    ensures k in QueryAllEditorEditables(page, editorId, root)
    ensures QueryAllEditorEditables(page, editorId, root)[k] == EntryOf(page[i]).value.1
  {
    var after := page[i + 1..];
    var tail := Select(after, editorId);
    var sel := Select(page, editorId);
    var m := |Select(page[..i], editorId)|;
    SelectAround(page, editorId, i);
    forall j | m < j < |sel| ensures !EntryAt(sel, j, k) {
      var c := tail[j - m - 1];
      assert sel[j] == c;
      assert c in after && Selected(c, editorId);
      var jj :| 0 <= jj < |after| && after[jj] == c;
      assert page[i + 1 + jj] == c;
    }
    CollectLastWins(sel, k, m);
  }

  /** Every usable selected element's root name is in the query. */
  lemma QueryAllHasEverySelectedRoot(page: seq<Candidate>, editorId: string, root: Option<EditorRootElement>, c: Candidate)
    requires c in page && Selected(c, editorId) && EntryOf(c).Some?
    ensures EntryOf(c).value.0 in QueryAllEditorEditables(page, editorId, root)
  {
    var sel := Select(page, editorId);
    assert c in sel;
    var m :| 0 <= m < |sel| && sel[m] == c;
    assert EntryAt(sel, m, EntryOf(c).value.0);
    CollectKeys(sel, EntryOf(c).value.0);
  }

  /** `queryEditablesElements`: root name to content element. */
  function QueryEditablesElements(page: seq<Candidate>, editorId: string, root: Option<EditorRootElement>): (r: map<string, ElementId>)
    ensures r.Keys == QueryAllEditorEditables(page, editorId, root).Keys
    ensures forall k :: k in r ==> r[k] == QueryAllEditorEditables(page, editorId, root)[k].content
  {
    var editables := QueryAllEditorEditables(page, editorId, root);
    map k | k in editables :: editables[k].content
  }

  /** `queryEditablesSnapshotContent`: root name to initial value; every initial value is a
      string, so the string filter keeps every root. */
  function QueryEditablesSnapshotContent(page: seq<Candidate>, editorId: string, root: Option<EditorRootElement>): (r: map<string, string>)
    ensures r.Keys == QueryAllEditorEditables(page, editorId, root).Keys
    ensures r.Keys == QueryEditablesElements(page, editorId, root).Keys
    ensures forall k :: k in r ==> r[k] == QueryAllEditorEditables(page, editorId, root)[k].initialValue
  {
    var editables := QueryAllEditorEditables(page, editorId, root);
    map k | k in editables :: editables[k].initialValue
  }
}
