/**
 * The importer: resolves the local record of a directory object by its
 * converted GUID, announces and hydrates it, and normalises the configured
 * model class name.
 */
module Laravel {
  import opened Wrappers
  import opened Directory
  import opened Eloquent
  import opened Events

  /** The importer configuration, a string-keyed array. */
  type Config = map<string, string>

  /**
   * The hydrator built from the configuration: given the directory object,
   * the caller's override data and the record's current non-GUID columns,
   * the columns it leaves on the record.
   */
  type Hydrator = (Config, DirectoryObject, map<string, string>, map<string, string>) -> map<string, string>

  /**
   * Whether the query `where(guidColumn, '=', guid)` selects `row` within a
   * scope that does or does not include trashed rows. Comparing with a null
   * GUID selects rows whose GUID column is null.
   */
  predicate Selects(row: Row, guid: Option<string>, includeTrashed: bool)
  {
    row.guid == guid && (includeTrashed || !row.trashed)
  }

  /** The index of the first row the query selects, as `first()` returns it. */
  function FindFirst(rows: seq<Row>, guid: Option<string>, includeTrashed: bool): (r: Option<nat>)
    ensures r.Some? ==> r.value < |rows| && Selects(rows[r.value], guid, includeTrashed)
    ensures r.Some? ==> forall j | 0 <= j < r.value :: !Selects(rows[j], guid, includeTrashed)
    ensures r.None? ==> forall j | 0 <= j < |rows| :: !Selects(rows[j], guid, includeTrashed)
    decreases |rows|
  {
    if rows == [] then None
    else if Selects(rows[0], guid, includeTrashed) then Some(0)
    else match FindFirst(rows[1..], guid, includeTrashed)
      case None => None
      case Some(i) => Some(i + 1)
  }

  /**
   * The state of the instance the lookup hands back: the first selected
   * row, retrieved, or else a fresh unsaved instance.
   */
  function Resolved(rows: seq<Row>, guid: Option<string>, includeTrashed: bool, usesSoftDeletes: bool): Snapshot
  {
    match FindFirst(rows, guid, includeTrashed)
    case Some(i) => Retrieved(rows[i], usesSoftDeletes)
    case None => Unsaved
  }

  /** PHP's `ltrim(s, c)`: `s` without its leading run of `c`. */
  function LTrim(s: string, c: char): (r: string)
    ensures |r| <= |s| && r == s[|s| - |r|..]
    ensures forall i | 0 <= i < |s| - |r| :: s[i] == c
    ensures r == [] || r[0] != c
    decreases |s|
  {
    if s != [] && s[0] == c then LTrim(s[1..], c) else s
  }

  /**
   * `'\\' . ltrim(name, '\\')`: exactly one leading backslash, then `name`
   * without its leading backslashes.
   */
  function QualifiedClassName(name: string): (r: string)
    ensures |r| >= 1 && r[0] == '\\'
    ensures |r| == 1 || r[1] != '\\'
    ensures r[1..] == LTrim(name, '\\')
  {
    "\\" + LTrim(name, '\\')
  }

  /** The state `before` takes once `hydrator` has filled in its columns; the GUID is kept. */
  function Hydrated(hydrator: Hydrator, config: Config, before: Snapshot, user: DirectoryObject,
                    data: map<string, string>): Snapshot
  {
    before.(columns := hydrator(config, user, data, before.columns))
  }

  /**
   * The events `run` raises for a record resolved in state `before`:
   * Importing only for a record not in the store, then Synchronizing with
   * the state before hydration and Synchronized with the state after it.
   */
  function RunEvents(hydrator: Hydrator, config: Config, user: DirectoryObject, model: Model,
                     before: Snapshot, data: map<string, string>): seq<Event>
  {
    (if before.stored then [] else [Importing(user, model, before)])
    + [Synchronizing(user, model, before), Synchronized(user, model, Hydrated(hydrator, config, before, user, data))]
  }

  class LdapImporter {
    /** The name of the Eloquent model class to import into. */
    var eloquentModel: string
    var config: Config
    /** Whether that model class uses soft deletes (has the `withTrashed` macro). */
    const usesSoftDeletes: bool
    const hydrator: Hydrator

    constructor (eloquentModel: string, config: Config, usesSoftDeletes: bool, hydrator: Hydrator)
      ensures this.eloquentModel == eloquentModel && this.config == config
      ensures this.usesSoftDeletes == usesSoftDeletes && this.hydrator == hydrator
    {
      this.eloquentModel := eloquentModel;
      this.config := config;
      this.usesSoftDeletes := usesSoftDeletes;
      this.hydrator := hydrator;
    }

    /**
     * Imports one directory object: resolves its record, announces it as
     * importing when it is not in the store yet, then synchronizing, then
     * hydrates it, then announces it synchronized, and returns that same
     * instance. The table is only read.
     */
    method Run(user: DirectoryObject, data: map<string, string>, table: Table, events: Dispatcher)
      returns (eloquent: Model)
      modifies events
      ensures fresh(eloquent) && eloquent.Valid() && unchanged(table)
      ensures eloquent.className == QualifiedClassName(eloquentModel)
      ensures eloquent.usesSoftDeletes == usesSoftDeletes
      ensures eloquent.State() == Hydrated(hydrator, config, Resolved(table.rows, user.convertedGuid, true, usesSoftDeletes), user, data)
      ensures events.fired == old(events.fired) + RunEvents(hydrator, config, user, eloquent, Resolved(table.rows, user.convertedGuid, true, usesSoftDeletes), data)
    {
      eloquent := CreateOrFindEloquentModel(user, table);
      Synchronize(user, eloquent, data, events);
    }

    /** The steps of `run` after the lookup: the announcements around hydration. */
    method Synchronize(user: DirectoryObject, eloquent: Model, data: map<string, string>, events: Dispatcher)
      modifies eloquent`columns, events
      ensures eloquent.State() == Hydrated(hydrator, config, old(eloquent.State()), user, data)
      ensures events.fired == old(events.fired) + RunEvents(hydrator, config, user, eloquent, old(eloquent.State()), data)
    {
      var before := eloquent.State();
      ghost var importing: seq<Event> := if before.stored then [] else [Importing(user, eloquent, before)];
      if !eloquent.stored {
        events.Dispatch(Importing(user, eloquent, before));
      }
      assert events.fired == old(events.fired) + importing;
      events.Dispatch(Synchronizing(user, eloquent, before));
      Hydrate(user, eloquent, data);
      var after := eloquent.State();
      assert after == Hydrated(hydrator, config, before, user, data);
      events.Dispatch(Synchronized(user, eloquent, after));
      ghost var synced: seq<Event> := [Synchronizing(user, eloquent, before), Synchronized(user, eloquent, after)];
      assert events.fired == old(events.fired) + importing + synced;
      assert RunEvents(hydrator, config, user, eloquent, before, data) == importing + synced;
    }

    /** Hands the record to the hydrator; only its non-GUID columns change. */
    method Hydrate(ldap: DirectoryObject, model: Model, data: map<string, string>)
      modifies model`columns
      ensures model.columns == hydrator(config, ldap, data, old(model.columns))
    {
      model.columns := hydrator(config, ldap, data, model.columns);
    }

    /**
     * Looks the record up by the object's converted GUID, including trashed
     * rows when the model uses soft deletes, and returns the first match or
     * a new unsaved instance.
     */
    method CreateOrFindEloquentModel(ldap: DirectoryObject, table: Table) returns (model: Model)
      ensures fresh(model) && model.Valid() && unchanged(table)
      ensures model.className == QualifiedClassName(eloquentModel)
      ensures model.usesSoftDeletes == usesSoftDeletes
      ensures model.State() == Resolved(table.rows, ldap.convertedGuid, true, usesSoftDeletes)
    {
      var template := CreateEloquentModel();
      // Without soft deletes no scope hides trashed rows; with them, withTrashed() lifts the scope.
      var includeTrashed := true;
      var found := FindFirst(table.rows, ldap.convertedGuid, includeTrashed);
      if found.Some? {
        model := new Model(template.className, usesSoftDeletes, Retrieved(table.rows[found.value], usesSoftDeletes));
      } else {
        model := new Model(template.className, usesSoftDeletes, Unsaved);
      }
    }

    method SetConfig(config: Config)
      modifies this`config
      ensures GetConfig() == config
    {
      this.config := config;
    }

    function GetConfig(): Config
      reads this
    {
      config
    }

    function GetEloquentModel(): string
      reads this
    {
      eloquentModel
    }

    /** A new, unsaved instance of the model class named with one leading backslash. */
    method CreateEloquentModel() returns (model: Model)
      ensures fresh(model) && model.Valid()
      ensures model.className == QualifiedClassName(eloquentModel)
      ensures model.usesSoftDeletes == usesSoftDeletes
      ensures model.State() == Unsaved
    {
      var name := QualifiedClassName(eloquentModel);
      model := new Model(name, usesSoftDeletes, Unsaved);
    }
  }

  /** Normalising a normalised name changes nothing. */
  lemma QualifiedClassNameIdempotent(name: string)
    ensures QualifiedClassName(QualifiedClassName(name)) == QualifiedClassName(name)
  {
    var r := QualifiedClassName(name);
    assert r[1..] == LTrim(name, '\\');
    assert LTrim(r, '\\') == LTrim(r[1..], '\\');
  }

  /** Names that differ only in their leading backslashes name the same class. */
  lemma QualifiedClassNameIgnoresLeadingBackslashes(name: string, n: nat)
    ensures QualifiedClassName(seq(n, _ => '\\') + name) == QualifiedClassName(name)
  {
    LTrimSkipsPrefix(name, n);
  }

  lemma {:induction false} LTrimSkipsPrefix(name: string, n: nat)
    ensures LTrim(seq(n, _ => '\\') + name, '\\') == LTrim(name, '\\')
  {
    var s := seq(n, _ => '\\') + name;
    if n == 0 {
      assert s == name;
    } else {
      assert s[0] == '\\';
      assert s[1..] == seq(n - 1, _ => '\\') + name;
      LTrimSkipsPrefix(name, n - 1);
    }
  }

  /**
   * The lookup finds a stored record exactly when some row carries the
   * GUID, trashed or not, and then it is the first such row.
   */
  lemma {:induction false} LookupFindsFirstRowWithGuid(rows: seq<Row>, guid: Option<string>, usesSoftDeletes: bool)
    ensures Resolved(rows, guid, true, usesSoftDeletes).stored <==> exists i | 0 <= i < |rows| :: rows[i].guid == guid
    ensures forall i | 0 <= i < |rows| && rows[i].guid == guid && (forall j | 0 <= j < i :: rows[j].guid != guid) ::
              Resolved(rows, guid, true, usesSoftDeletes) == Retrieved(rows[i], usesSoftDeletes)
  {
    match FindFirst(rows, guid, true)
    case None =>
    case Some(k) =>
      assert rows[k].guid == guid;
      forall i | 0 <= i < |rows| && rows[i].guid == guid && (forall j | 0 <= j < i :: rows[j].guid != guid)
        ensures i == k
      {
        if i < k {
          assert Selects(rows[i], guid, true);
        }
      }
  }

  /**
   * A trashed row is found again: re-importing a disabled account whose
   * record was soft-deleted hands back that trashed record, not a new one.
   */
  lemma TrashedRowIsFoundAgain(rows: seq<Row>, i: nat, usesSoftDeletes: bool)
    requires i < |rows| && rows[i].trashed && usesSoftDeletes
    requires forall j | 0 <= j < i :: rows[j].guid != rows[i].guid
    ensures var s := Resolved(rows, rows[i].guid, true, usesSoftDeletes);
            s.stored && s.trashed && s.guid == rows[i].guid && s.columns == rows[i].columns
  {
    LookupFindsFirstRowWithGuid(rows, rows[i].guid, usesSoftDeletes);
  }

  /** No two rows linked to the directory carry the same GUID. */
  ghost predicate UniqueGuids(rows: seq<Row>)
  {
    forall i, j | 0 <= i < j < |rows| && rows[i].guid.Some? :: rows[i].guid != rows[j].guid
  }

  /**
   * The table after the record resolved for `guid` is saved with `columns`:
   * the found row is updated in place (its GUID kept), or a new row with
   * the GUID is inserted. Saving belongs to the caller of the importer; it
   * is written here only to state what the lookup guarantees.
   */
  function SaveResolved(rows: seq<Row>, guid: Option<string>, includeTrashed: bool,
                        columns: map<string, string>): seq<Row>
  {
    match FindFirst(rows, guid, includeTrashed)
    case Some(i) => rows[i := rows[i].(columns := columns)]
    case None => rows + [Row(guid, false, columns)]
  }

  /**
   * With trashed rows in the lookup, importing an object keeps GUIDs
   * unique, and afterwards exactly one row carries the object's GUID.
   */
  lemma ImportKeepsGuidsUnique(rows: seq<Row>, guid: string, columns: map<string, string>)
    requires UniqueGuids(rows)
    ensures var after := SaveResolved(rows, Some(guid), true, columns);
            UniqueGuids(after)
            && (exists i | 0 <= i < |after| :: after[i].guid == Some(guid))
            && forall i, j | 0 <= i < |after| && 0 <= j < |after| && after[i].guid == Some(guid) && after[j].guid == Some(guid) :: i == j
  {
    var after := SaveResolved(rows, Some(guid), true, columns);
    match FindFirst(rows, Some(guid), true)
    case Some(k) =>
      assert |after| == |rows|;
      assert forall i | 0 <= i < |rows| :: after[i].guid == rows[i].guid;
      assert after[k].guid == Some(guid);
    case None =>
      assert after == rows + [Row(Some(guid), false, columns)];
      assert forall i | 0 <= i < |rows| :: after[i].guid == rows[i].guid && rows[i].guid != Some(guid);
      assert after[|rows|].guid == Some(guid);
  }

  /**
   * Why trashed rows must be in the lookup: with the soft-delete scope in
   * place, a trashed record is missed and saving creates a second row for
   * the same GUID.
   */
  lemma ScopedLookupWouldDuplicate(guid: string, columns: map<string, string>)
    ensures var rows := [Row(Some(guid), true, columns)];
            UniqueGuids(rows) && !UniqueGuids(SaveResolved(rows, Some(guid), false, columns))
  {
    var rows := [Row(Some(guid), true, columns)];
    var after := SaveResolved(rows, Some(guid), false, columns);
    assert after == rows + [Row(Some(guid), false, columns)];
    assert after[0].guid == after[1].guid;
  }

  /**
   * An object without a GUID is not rejected: the query compares with
   * null, and the first row whose GUID column is null (a local user not
   * linked to the directory) is handed back.
   */
  lemma MissingGuidMatchesUnlinkedRow(unlinked: Row, rest: seq<Row>, usesSoftDeletes: bool)
    requires unlinked.guid.None?
    ensures Resolved([unlinked] + rest, None, true, usesSoftDeletes) == Retrieved(unlinked, usesSoftDeletes)
  {
    assert ([unlinked] + rest)[0] == unlinked;
  }

  /**
   * The order `run` promises: Importing first and only for a record not in
   * the store, Synchronizing with the state before hydration, Synchronized
   * last with the hydrated state, and all of them about the one instance.
   */
  lemma RunEventOrder(hydrator: Hydrator, config: Config, user: DirectoryObject, model: Model,
                      before: Snapshot, data: map<string, string>)
    ensures var es := RunEvents(hydrator, config, user, model, before, data);
            && |es| == (if before.stored then 2 else 3)
            && ((exists k | 0 <= k < |es| :: es[k].Importing?) <==> !before.stored)
            && (!before.stored ==> es[0] == Importing(user, model, before))
            && es[|es| - 2] == Synchronizing(user, model, before)
            && es[|es| - 1] == Synchronized(user, model, Hydrated(hydrator, config, before, user, data))
            && forall k | 0 <= k < |es| :: es[k].ldap == user && es[k].model == model
  {
    var es := RunEvents(hydrator, config, user, model, before, data);
    if !before.stored {
      assert es[0].Importing?;
    }
  }

  /** Importing is raised exactly when no row of the table carries the object's GUID. */
  lemma ImportingIffGuidUnknown(hydrator: Hydrator, config: Config, user: DirectoryObject, model: Model,
                                rows: seq<Row>, usesSoftDeletes: bool, data: map<string, string>)
    ensures var es := RunEvents(hydrator, config, user, model, Resolved(rows, user.convertedGuid, true, usesSoftDeletes), data);
            (exists k | 0 <= k < |es| :: es[k].Importing?)
            <==> forall i | 0 <= i < |rows| :: rows[i].guid != user.convertedGuid
  {
    LookupFindsFirstRowWithGuid(rows, user.convertedGuid, usesSoftDeletes);
    RunEventOrder(hydrator, config, user, model, Resolved(rows, user.convertedGuid, true, usesSoftDeletes), data);
  }
}
