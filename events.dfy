/** What the import core emits: events on the event bus and info lines in the log. */
module Events {
  import opened Directory
  import opened Eloquent

  /**
   * An event raised during an import. Each record event carries the
   * directory object, the model instance it is about, and the state that
   * instance had when the event was dispatched.
   */
  datatype Event =
    | Importing(ldap: DirectoryObject, model: Model, state: Snapshot)
    | Synchronizing(ldap: DirectoryObject, model: Model, state: Snapshot)
    | Synchronized(ldap: DirectoryObject, model: Model, state: Snapshot)
    | Imported(ldap: DirectoryObject, model: Model, state: Snapshot)
    | DeletedMissing(ids: seq<int>)

  /** The event bus, as the trace of the events dispatched on it. */
  class Dispatcher {
    var fired: seq<Event>

    constructor ()
      ensures fired == []
    {
      fired := [];
    }

    method Dispatch(e: Event)
      modifies this
      ensures fired == old(fired) + [e]
    {
      fired := fired + [e];
    }
  }

  /** The application log, as the trace of its info lines. */
  class Log {
    var lines: seq<string>

    constructor ()
      ensures lines == []
    {
      lines := [];
    }

    method Info(message: string)
      modifies this
      ensures lines == old(lines) + [message]
    {
      lines := lines + [message];
    }
  }
}
