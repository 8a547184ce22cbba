/**
 * The user import command: the lifecycle policy for disabled and re-enabled
 * Active Directory accounts, the event callbacks it registers, its two
 * opt-in toggles and the loading of the objects to import.
 */
module Commands {
  import opened Wrappers
  import opened Directory
  import opened Eloquent
  import opened Events
  import AccountControl

  /** The first value of the object's `userAccountControl` attribute, or null. */
  function GetUserAccountControl(ldap: DirectoryObject): (r: Option<int>)
    ensures r.None? <==> |ldap.userAccountControl| == 0
    ensures r.Some? ==> r.value == ldap.userAccountControl[0]
  {
    if ldap.userAccountControl == [] then None else Some(ldap.userAccountControl[0])
  }

  /**
   * `(uac & ACCOUNTDISABLE) === ACCOUNTDISABLE`, where PHP reads a null
   * `uac` as 0: the account is disabled exactly when the attribute is
   * present and its bit 1 is set.
   */
  predicate UserIsDisabled(ldap: DirectoryObject): (r: bool)
    ensures r <==> GetUserAccountControl(ldap).Some?
                   && AccountControl.Bit(GetUserAccountControl(ldap).value, 1)
  {
    var uac := GetUserAccountControl(ldap).GetOr(0);
    AccountControl.DisabledFlagIsBitOne(uac);
    AccountControl.HasFlag(uac, AccountControl.ACCOUNTDISABLE)
  }

  /**
   * Fail-safe: an absent attribute is not enabled; otherwise enabled is
   * not disabled. So enabled and disabled never hold together.
   */
  predicate UserIsEnabled(ldap: DirectoryObject): (r: bool)
    ensures r <==> GetUserAccountControl(ldap).Some? && !UserIsDisabled(ldap)
    ensures r ==> !UserIsDisabled(ldap)
    ensures GetUserAccountControl(ldap).None? ==> !r && !UserIsDisabled(ldap)
  {
    if GetUserAccountControl(ldap).None? then false else !UserIsDisabled(ldap)
  }

  /** The guard of `delete`: soft deletes are used, not yet trashed, and disabled. */
  predicate TrashGuard(usesSoftDeletes: bool, trashed: bool, ldap: DirectoryObject)
  {
    usesSoftDeletes && !trashed && UserIsDisabled(ldap)
  }

  /** The guard of `restore`: soft deletes are used, trashed, and enabled. */
  predicate RestoreGuard(usesSoftDeletes: bool, trashed: bool, ldap: DirectoryObject)
  {
    usesSoftDeletes && trashed && UserIsEnabled(ldap)
  }

  /** A lifecycle transition applied to a local record. */
  datatype Transition = SoftDeleted | Restored

  /**
   * The transitions the `imported` callback applies to a record: none for a
   * non-Active-Directory object; otherwise `delete` (if trashing is on) and
   * then `restore` (if restoring is on), each under its own guard, the
   * second one seeing the effect of the first.
   */
  function Lifecycle(trashDisabledUsers: bool, restoreEnabledUsers: bool, usesSoftDeletes: bool,
                     trashed: bool, ldap: DirectoryObject): seq<Transition>
  {
    if !ldap.isActiveDirectory then []
    else
      var deleted := trashDisabledUsers && TrashGuard(usesSoftDeletes, trashed, ldap);
      var restored := restoreEnabledUsers && RestoreGuard(usesSoftDeletes, trashed || deleted, ldap);
      (if deleted then [SoftDeleted] else []) + (if restored then [Restored] else [])
  }

  /** The trashed marker after applying `ts` in order. */
  function TrashedAfter(trashed: bool, ts: seq<Transition>): bool
    decreases |ts|
  {
    if ts == [] then trashed else TrashedAfter(ts[0] == SoftDeleted, ts[1..])
  }

  function SoftDeletedMessage(rdn: string): string
  {
    "Soft-deleted user [" + rdn + "]. Their user account is disabled."
  }

  function RestoredMessage(rdn: string): string
  {
    "Restored user [" + rdn + "]. Their user account has been re-enabled."
  }

  /** The info lines logged for the transitions `ts`: one per transition, and only when logging. */
  function LogLines(ts: seq<Transition>, rdn: string, logging: bool): (lines: seq<string>)
    ensures |lines| == if logging then |ts| else 0
    ensures logging ==> forall k | 0 <= k < |ts| ::
              lines[k] == if ts[k] == SoftDeleted then SoftDeletedMessage(rdn) else RestoredMessage(rdn)
    decreases |ts|
  {
    if !logging || ts == [] then []
    else [if ts[0] == SoftDeleted then SoftDeletedMessage(rdn) else RestoredMessage(rdn)]
         + LogLines(ts[1..], rdn, logging)
  }

  /** PHP truthiness of the optional username: null, "" and "0" are false. */
  predicate IsTruthy(username: Option<string>)
  {
    username.Some? && username.value != "" && username.value != "0"
  }

  class LdapUserImport {
    /** Whether to restore soft-deleted records whose account is enabled. */
    var restoreEnabledUsers: bool
    /** Whether to soft-delete records whose account is disabled. */
    var trashDisabledUsers: bool
    /** Whether lifecycle transitions are logged. */
    var logging: bool
    /** The objects loaded for this import. */
    var objects: seq<DirectoryObject>

    /** Both toggles start off. */
    constructor (logging: bool)
      ensures !restoreEnabledUsers && !trashDisabledUsers
      ensures this.logging == logging && objects == []
    {
      restoreEnabledUsers := false;
      trashDisabledUsers := false;
      this.logging := logging;
      objects := [];
    }

    /** Turns restoring on and nothing else; returns the command for chaining. */
    method RestoreEnabledUsers() returns (self: LdapUserImport)
      modifies this`restoreEnabledUsers
      ensures restoreEnabledUsers && self == this
    {
      restoreEnabledUsers := true;
      self := this;
    }

    /** Turns trashing on and nothing else; returns the command for chaining. */
    method TrashDisabledUsers() returns (self: LdapUserImport)
      modifies this`trashDisabledUsers
      ensures trashDisabledUsers && self == this
    {
      trashDisabledUsers := true;
      self := this;
    }

    /**
     * Loads the objects to import. `found` is what the ambiguous name
     * resolution lookup gives for the username and `page` what the
     * paginated search gives; only the one the branch asks for is used.
     */
    method LoadObjectsFromRepository(username: Option<string>, found: Option<DirectoryObject>,
                                     page: seq<DirectoryObject>) returns (users: seq<DirectoryObject>)
      modifies this`objects
      ensures objects == users
      ensures IsTruthy(username) ==> |users| <= 1
      ensures IsTruthy(username) ==> (users == [] <==> found.None?)
      ensures IsTruthy(username) && found.Some? ==> users == [found.value]
      ensures !IsTruthy(username) ==> users == page
    {
      if IsTruthy(username) {
        users := [];
        if found.Some? {
          users := users + [found.value];
        }
      } else {
        users := page;
      }
      objects := users;
    }

    /** Soft-deletes the record when its guard holds; otherwise changes nothing. */
    method Delete(database: Model, ldap: DirectoryObject, log: Log)
      requires database.Valid()
      modifies database`trashed, log
      ensures database.Valid()
      ensures database.trashed != old(database.trashed)
              <==> TrashGuard(database.usesSoftDeletes, old(database.trashed), ldap)
      ensures database.trashed == (old(database.trashed) || TrashGuard(database.usesSoftDeletes, old(database.trashed), ldap))
      ensures log.lines == old(log.lines)
              + if logging && TrashGuard(database.usesSoftDeletes, old(database.trashed), ldap)
                then [SoftDeletedMessage(ldap.rdn)] else []
    {
      if database.usesSoftDeletes && !database.trashed && UserIsDisabled(ldap) {
        database.SoftDelete();
        if logging {
          log.Info(SoftDeletedMessage(ldap.rdn));
        }
      }
    }

    /** Restores the record when its guard holds; otherwise changes nothing. */
    method Restore(database: Model, ldap: DirectoryObject, log: Log)
      requires database.Valid()
      modifies database`trashed, log
      ensures database.Valid()
      ensures database.trashed != old(database.trashed)
              <==> RestoreGuard(database.usesSoftDeletes, old(database.trashed), ldap)
      ensures database.trashed == (old(database.trashed) && !RestoreGuard(database.usesSoftDeletes, old(database.trashed), ldap))
      ensures log.lines == old(log.lines)
              + if logging && RestoreGuard(database.usesSoftDeletes, old(database.trashed), ldap)
                then [RestoredMessage(ldap.rdn)] else []
    {
      if database.usesSoftDeletes && database.trashed && UserIsEnabled(ldap) {
        database.Restore();
        if logging {
          log.Info(RestoredMessage(ldap.rdn));
        }
      }
    }

    /** The `importing` callback: announces a record that is not in the store yet. */
    method OnImporting(database: Model, ldap: DirectoryObject, events: Dispatcher)
      modifies events
      ensures events.fired == old(events.fired)
              + if !database.stored then [Importing(ldap, database, database.State())] else []
    {
      if !database.stored {
        events.Dispatch(Importing(ldap, database, database.State()));
      }
    }

    /**
     * The `imported` callback: announces a record the store has just
     * created, then applies the lifecycle policy to Active Directory objects.
     */
    method OnImported(database: Model, ldap: DirectoryObject, events: Dispatcher, log: Log)
      requires database.Valid()
      modifies database`trashed, events, log
      ensures database.Valid()
      ensures events.fired == old(events.fired)
              + if old(database.wasRecentlyCreated) then [Imported(ldap, database, old(database.State()))] else []
      ensures var ts := Lifecycle(trashDisabledUsers, restoreEnabledUsers, database.usesSoftDeletes,
                                  old(database.trashed), ldap);
              database.trashed == TrashedAfter(old(database.trashed), ts)
              && log.lines == old(log.lines) + LogLines(ts, ldap.rdn, logging)
    {
      if database.wasRecentlyCreated {
        events.Dispatch(Imported(ldap, database, database.State()));
      }
      if !ldap.isActiveDirectory {
        return;
      }
      if trashDisabledUsers {
        Delete(database, ldap, log);
      }
      if restoreEnabledUsers {
        Restore(database, ldap, log);
      }
    }

    /** The `deleted.missing` callback: forwards the missing record ids as an event. */
    method OnDeletedMissing(ids: seq<int>, events: Dispatcher)
      modifies events
      ensures events.fired == old(events.fired) + [DeletedMissing(ids)]
    {
      events.Dispatch(DeletedMissing(ids));
    }
  }

  /**
   * `delete` and then `restore` run for one object, yet at most one of them
   * changes the record: a record `delete` trashed belongs to a disabled
   * user, and a disabled user is not enabled.
   */
  lemma AtMostOneTransition(trashDisabledUsers: bool, restoreEnabledUsers: bool, usesSoftDeletes: bool,
                            trashed: bool, ldap: DirectoryObject)
    ensures |Lifecycle(trashDisabledUsers, restoreEnabledUsers, usesSoftDeletes, trashed, ldap)| <= 1
  {
  }

  /**
   * The policy as two independent rules: a disabled record the trash guard
   * admits ends trashed, an enabled record the restore guard admits ends
   * restored, and every other record keeps its marker.
   */
  lemma LifecycleOutcome(trashDisabledUsers: bool, restoreEnabledUsers: bool, usesSoftDeletes: bool,
                         trashed: bool, ldap: DirectoryObject)
    ensures TrashedAfter(trashed, Lifecycle(trashDisabledUsers, restoreEnabledUsers, usesSoftDeletes, trashed, ldap))
            == if ldap.isActiveDirectory && trashDisabledUsers && TrashGuard(usesSoftDeletes, trashed, ldap) then true
               else if ldap.isActiveDirectory && restoreEnabledUsers && RestoreGuard(usesSoftDeletes, trashed, ldap) then false
               else trashed
  {
    var ts := Lifecycle(trashDisabledUsers, restoreEnabledUsers, usesSoftDeletes, trashed, ldap);
    AtMostOneTransition(trashDisabledUsers, restoreEnabledUsers, usesSoftDeletes, trashed, ldap);
    if |ts| == 1 {
      assert TrashedAfter(trashed, ts) == (ts[0] == SoftDeleted);
    }
  }

  /** Objects that are not Active Directory objects are never trashed or restored. */
  lemma NonActiveDirectoryIsSkipped(trashDisabledUsers: bool, restoreEnabledUsers: bool, usesSoftDeletes: bool,
                                    trashed: bool, ldap: DirectoryObject)
    requires !ldap.isActiveDirectory
    ensures Lifecycle(trashDisabledUsers, restoreEnabledUsers, usesSoftDeletes, trashed, ldap) == []
  {
  }

  /** An absent `userAccountControl` is inert: neither toggle changes the record. */
  lemma AbsentAccountControlIsInert(trashDisabledUsers: bool, restoreEnabledUsers: bool, usesSoftDeletes: bool,
                                    trashed: bool, ldap: DirectoryObject)
    requires ldap.userAccountControl == []
    ensures Lifecycle(trashDisabledUsers, restoreEnabledUsers, usesSoftDeletes, trashed, ldap) == []
    ensures TrashedAfter(trashed, Lifecycle(trashDisabledUsers, restoreEnabledUsers, usesSoftDeletes, trashed, ldap)) == trashed
  {
  }

  /** 514 (0x202) carries ACCOUNTDISABLE; 512 (0x200, a normal account) does not. */
  lemma AccountControlExamples(rdn: string, guid: Option<string>)
    ensures UserIsDisabled(DirectoryObject(rdn, guid, true, [514]))
    ensures !UserIsDisabled(DirectoryObject(rdn, guid, true, [512]))
    ensures UserIsEnabled(DirectoryObject(rdn, guid, true, [512]))
    ensures !UserIsEnabled(DirectoryObject(rdn, guid, true, []))
  {
  }

  /**
   * A record seen first with 514 and later with 512, both toggles on and
   * soft deletes used, is trashed and then restored, with one log line
   * each when logging.
   */
  lemma DisableThenReenable(rdn: string, guid: Option<string>, logging: bool)
    ensures var disabled := DirectoryObject(rdn, guid, true, [514]);
            var ts := Lifecycle(true, true, true, false, disabled);
            ts == [SoftDeleted] && TrashedAfter(false, ts)
            && LogLines(ts, rdn, logging) == if logging then [SoftDeletedMessage(rdn)] else []
    ensures var enabled := DirectoryObject(rdn, guid, true, [512]);
            var ts := Lifecycle(true, true, true, true, enabled);
            ts == [Restored] && !TrashedAfter(true, ts)
            && LogLines(ts, rdn, logging) == if logging then [RestoredMessage(rdn)] else []
  {
    AccountControlExamples(rdn, guid);
  }
}
