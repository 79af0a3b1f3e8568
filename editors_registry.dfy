/**
 * The process-wide editors registry, reduced to the operations the editor hook calls.
 * Its waiter queues, their FIFO delivery and the rejection of waiters on error are
 * outside this model; the other hooks' `execute` calls appear only as "the callback
 * eventually runs against the editor".
 */
module EditorsRegistry {
  import opened Engine

  class Registry {
    var items: map<string, Editor>
    var errors: map<string, string>

    constructor ()
      ensures items == map[] && errors == map[]
    {
      items := map[];
      errors := map[];
    }

    predicate HasItem(editorId: string)
      reads this
    {
      editorId in items
    }

    method Register(editorId: string, editor: Editor)
      modifies this`items
      ensures items == old(items)[editorId := editor]
    {
      items := items[editorId := editor];
    }

    method Unregister(editorId: string)
      modifies this`items
      ensures items == old(items) - {editorId}
    {
      items := items - {editorId};
    }

    method Error(editorId: string, error: string)
      modifies this`errors
      ensures errors == old(errors)[editorId := error]
    {
      errors := errors[editorId := error];
    }

    method ResetErrors(editorId: string)
      modifies this`errors
      ensures errors == old(errors) - {editorId}
    {
      errors := errors - {editorId};
    }
  }
}
