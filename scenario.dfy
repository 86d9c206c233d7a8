/** A client of the handler: one device creates a note, a second device
    tries to read and delete it, and the owner then reads and deletes it. */
module Scenario {
  import opened Wrappers
  import opened Text
  import opened Notes
  import opened NoteStore
  import opened Identity
  import opened Router

  /** A request without a route key, so that the method and path come from
      `requestContext.http.method` and `rawPath`. */
  function Request(verb: string, path: string, id: Option<string>, device: string, body: Body): (ev: Event)
    ensures DecodeRoute(ev) == Route(Some(verb), path)
    ensures Stripped(device) ==> device != "" ==> DeviceIdOf(ev) == Ok(device)
  {
    var ev := Event("", Some(verb), path, id, map[LowerHeader := device], body);
    StripIdempotent(device);
    DecodeRouteCuts(ev);
    ev
  }

  /** The request path of note `n1`, matched by the `/notes/` branch. */
  lemma NotePath()
    ensures StartsWith("/notes/n1", "/notes/") && "/notes/n1" != "/notes"
  {
    assert "/notes/n1"[..7] == "/notes/";
  }

  /** A device that does not own `n1` is refused whatever the method. */
  lemma StrangerRefused(items: map<string, Note>, verb: string, stranger: string)
    requires stranger != "" && Stripped(stranger) && verb != "OPTIONS"
    requires "n1" in items && items["n1"].deviceId != stranger
    ensures Plan(items, Request(verb, "/notes/n1", Some("n1"), stranger, Absent)) == Reject(NoteNotFound)
  {
    NotePath();
    PlanUnderNotes(items, Request(verb, "/notes/n1", Some("n1"), stranger, Absent), stranger);
  }

  /** The owner of `n1` reads it. */
  lemma OwnerReads(items: map<string, Note>, owner: string)
    requires owner != "" && Stripped(owner)
    requires "n1" in items && items["n1"].deviceId == owner
    ensures Plan(items, Request("GET", "/notes/n1", Some("n1"), owner, Absent)) == Fetch(items["n1"])
  {
    NotePath();
    PlanUnderNotes(items, Request("GET", "/notes/n1", Some("n1"), owner, Absent), owner);
  }

  /** The owner of `n1` deletes it. */
  lemma OwnerDeletes(items: map<string, Note>, owner: string)
    requires owner != "" && Stripped(owner)
    requires "n1" in items && items["n1"].deviceId == owner
    ensures Plan(items, Request("DELETE", "/notes/n1", Some("n1"), owner, Absent)) == Remove("n1")
  {
    NotePath();
    PlanUnderNotes(items, Request("DELETE", "/notes/n1", Some("n1"), owner, Absent), owner);
    assert "DELETE" != "GET" && "DELETE" != "PUT";
  }

  /** The owner posts a note with usable texts. */
  lemma OwnerPosts(items: map<string, Note>, owner: string, title: string, content: string)
    requires owner != "" && Stripped(owner) && !AllSpace(title) && !AllSpace(content)
    ensures var body := Object(map["title" := Str(title), "content" := Str(content)]);
            Plan(items, Request("POST", "/notes", None, owner, body)) == Create(owner, Fields(Strip(title), Strip(content)))
  {
    var body := Object(map["title" := Str(title), "content" := Str(content)]);
    assert NoteFields(body) == Ok(Fields(Strip(title), Strip(content)));
    PlanOnNotes(items, Request("POST", "/notes", None, owner, body), owner);
  }

  /** The owner's POST on an empty table: the note is stored as `n1`. */
  method OwnerPublishes(table: NoteTable, owner: string, title: string, content: string) returns (post: int)
    requires table.Valid() && table.items == map[]
    requires owner != "" && Stripped(owner) && !AllSpace(title) && !AllSpace(content)
    modifies table
    ensures table.Valid() && table.items == map["n1" := Note("n1", owner, Strip(title), Strip(content), "t0", "t0")]
    ensures post == 201
  {
    var fields := Object(map["title" := Str(title), "content" := Str(content)]);
    OwnerPosts(table.items, owner, title, content);
    var r := LambdaHandler(table, Request("POST", "/notes", None, owner, fields), "n1", "t0");
    post := r.status;
  }

  /** A stranger's GET and DELETE of `n1`: both refused, nothing changes. */
  method StrangerTries(table: NoteTable, stranger: string) returns (get: int, delete: int)
    requires table.Valid() && stranger != "" && Stripped(stranger)
    requires "n1" in table.items && table.items["n1"].deviceId != stranger
    requires "n2" !in table.items && "n3" !in table.items
    modifies table
    ensures table.Valid() && table.items == old(table.items)
    ensures get == 400 && delete == 400
  {
    StrangerRefused(table.items, "GET", stranger);
    var r := LambdaHandler(table, Request("GET", "/notes/n1", Some("n1"), stranger, Absent), "n2", "t1");
    get := r.status;
    StrangerRefused(table.items, "DELETE", stranger);
    r := LambdaHandler(table, Request("DELETE", "/notes/n1", Some("n1"), stranger, Absent), "n3", "t2");
    delete := r.status;
  }

  /** The owner's GET and DELETE of `n1`: the stored row comes back, then
      it is removed. */
  method OwnerUses(table: NoteTable, owner: string) returns (get: int, read: Payload, delete: int)
    requires table.Valid() && owner != "" && Stripped(owner)
    requires "n1" in table.items && table.items["n1"].deviceId == owner
    requires "n4" !in table.items && "n5" !in table.items
    modifies table
    ensures table.Valid() && table.items == old(table.items) - {"n1"}
    ensures get == 200 && read == Row(old(table.items)["n1"]) && delete == 204
  {
    OwnerReads(table.items, owner);
    var r := LambdaHandler(table, Request("GET", "/notes/n1", Some("n1"), owner, Absent), "n4", "t3");
    get, read := r.status, r.body;
    OwnerDeletes(table.items, owner);
    r := LambdaHandler(table, Request("DELETE", "/notes/n1", Some("n1"), owner, Absent), "n5", "t4");
    delete := r.status;
  }

  /** The statuses of the exchange: created (201), read by a stranger
      (400), deleted by a stranger (400, the note stays), read by the owner
      (200, with the stored texts), deleted by the owner (204). */
  method TwoDevices(owner: string, stranger: string, title: string, content: string)
    returns (statuses: seq<int>, read: Payload)
    requires owner != "" && Stripped(owner) && stranger != "" && Stripped(stranger) && owner != stranger
    requires !AllSpace(title) && !AllSpace(content)
    ensures statuses == [201, 400, 400, 200, 204]
    ensures read == Row(Note("n1", owner, Strip(title), Strip(content), "t0", "t0"))
  {
    var table := new NoteTable();
    var s1 := OwnerPublishes(table, owner, title, content);
    var s2, s3 := StrangerTries(table, stranger);
    var s4, body, s5 := OwnerUses(table, owner);
    statuses := [s1, s2, s3, s4, s5];
    read := body;
  }
}
