/** The notes table the handler writes through `put_item`, `get_item`,
    `update_item`, `delete_item` and the owner-index `query`, as an
    in-memory map from note id to row. */
module NoteStore {
  import opened Wrappers
  import opened Notes

  /** Every row is stored under its own `note_id`, the table's primary key. */
  ghost predicate Keyed(items: map<string, Note>) {
    forall k :: k in items ==> items[k].noteId == k
  }

  /** `n` is one of the rows of the table. */
  predicate RowOf(items: map<string, Note>, n: Note) {
    n.noteId in items && items[n.noteId] == n
  }

  /** No two rows of a query result have the same id. */
  predicate DistinctIds(rows: seq<Note>) {
    forall i, j :: 0 <= i < j < |rows| ==> rows[i].noteId != rows[j].noteId
  }

  /** `rows` is an answer to the owner-index query: every row of the table
      whose `device_id` is `owner`, each once, in no particular order. */
  ghost predicate IsListing(rows: seq<Note>, items: map<string, Note>, owner: string) {
    && (forall n :: n in rows <==> RowOf(items, n) && n.deviceId == owner)
    && DistinctIds(rows)
  }

  class NoteTable {
    var items: map<string, Note>

    ghost predicate Valid()
      reads this
    {
      Keyed(items)
    }

    constructor ()
      ensures Valid() && items == map[]
    {
      items := map[];
    }

    /** `put_item`: writes the whole row under its id, replacing any row
        already stored there. */
    method PutItem(item: Note)
      requires Valid()
      modifies this
      ensures Valid()
      ensures items == old(items)[item.noteId := item]
    {
      items := items[item.noteId := item];
    }

    /** `get_item`: the row stored under `key`, if any. */
    method GetItem(key: string) returns (item: Option<Note>)
      requires Valid()
      ensures item.Some? <==> key in items
      ensures item.Some? ==> item.value == items[key] && item.value.noteId == key
    {
      if key in items {
        item := Some(items[key]);
      } else {
        item := None;
      }
    }

    /** `update_item` with `SET title = :t, content = :c, updated_at = :u`:
        overwrites those three attributes of the row stored under `key`. */
    method UpdateItem(key: string, title: string, content: string, now: string)
      requires Valid() && key in items
      modifies this
      ensures Valid()
      ensures items == old(items)[key := old(items[key]).(title := title, content := content, updatedAt := now)]
    {
      items := items[key := items[key].(title := title, content := content, updatedAt := now)];
    }

    /** `delete_item`: removes the row stored under `key`; nothing happens
        when there is none. */
    method DeleteItem(key: string)
      requires Valid()
      modifies this
      ensures Valid()
      ensures items == old(items) - {key}
    {
      items := items - {key};
    }

    /** The `query` on the `device_id` index: collects the rows of `owner`,
        visiting the keys in an order the table does not define. */
    method QueryByOwner(owner: string) returns (rows: seq<Note>)
      requires Valid()
      ensures IsListing(rows, items, owner)
    {
      rows := [];
      var pending := items.Keys;
      while pending != {}
        invariant pending <= items.Keys
        invariant forall n :: n in rows <==> RowOf(items, n) && n.deviceId == owner && n.noteId !in pending
        invariant DistinctIds(rows)
        decreases pending
      {
        var key :| key in pending;
        var row := items[key];
        if row.deviceId == owner {
          rows := rows + [row];
        }
        pending := pending - {key};
      }
    }
  }
}
