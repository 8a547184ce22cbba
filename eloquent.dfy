/** The local store: rows of the users table and the Eloquent model instances built from them. */
module Eloquent {
  import opened Wrappers

  /**
   * A row of the users table: the directory GUID column (None for a local
   * user not linked to the directory), the soft-delete marker and the other
   * columns.
   */
  datatype Row = Row(guid: Option<string>, trashed: bool, columns: map<string, string>)

  /**
   * The observable state of a model instance: Eloquent's `exists` and
   * `wasRecentlyCreated` flags, whether it is trashed, its GUID column and
   * its other columns.
   */
  datatype Snapshot = Snapshot(
    stored: bool,
    wasRecentlyCreated: bool,
    trashed: bool,
    guid: Option<string>,
    columns: map<string, string>
  )

  /** The state of `newInstance()`: not in the store, nothing filled in. */
  const Unsaved: Snapshot := Snapshot(false, false, false, None, map[])

  /**
   * The state of an instance retrieved from `row`. A model class without
   * soft deletes has no notion of a trashed instance.
   */
  function Retrieved(row: Row, usesSoftDeletes: bool): Snapshot
  {
    Snapshot(true, false, usesSoftDeletes && row.trashed, row.guid, row.columns)
  }

  /** The users table. */
  class Table {
    var rows: seq<Row>

    constructor (rows: seq<Row>)
      ensures this.rows == rows
    {
      this.rows := rows;
    }
  }

  /** An Eloquent model instance of the configured user model class. */
  class Model {
    const className: string
    const usesSoftDeletes: bool
    var stored: bool
    var wasRecentlyCreated: bool
    var trashed: bool
    var guid: Option<string>
    var columns: map<string, string>

    /** Only a model class with soft deletes has trashed instances. */
    ghost predicate Valid()
      reads this
    {
      trashed ==> usesSoftDeletes
    }

    function State(): Snapshot
      reads this
    {
      Snapshot(stored, wasRecentlyCreated, trashed, guid, columns)
    }

    constructor (className: string, usesSoftDeletes: bool, state: Snapshot)
      requires state.trashed ==> usesSoftDeletes
      ensures Valid()
      ensures this.className == className && this.usesSoftDeletes == usesSoftDeletes
      ensures State() == state
    {
      this.className := className;
      this.usesSoftDeletes := usesSoftDeletes;
      stored := state.stored;
      wasRecentlyCreated := state.wasRecentlyCreated;
      trashed := state.trashed;
      guid := state.guid;
      columns := state.columns;
    }

    /** Eloquent's `delete()` on a model with soft deletes: sets the deletion marker. */
    method SoftDelete()
      requires Valid() && usesSoftDeletes
      modifies this`trashed
      ensures Valid() && trashed
    {
      trashed := true;
    }

    /** Eloquent's `restore()`: clears the deletion marker. */
    method Restore()
      requires Valid()
      modifies this`trashed
      ensures Valid() && !trashed
    {
      trashed := false;
    }
  }
}
