/** What the handler promises its callers, stated over the decision `Plan`,
    the table update `Effect` and the response predicate `Answers` that
    `Router.LambdaHandler` is proved to follow. */
module Properties {
  import opened Wrappers
  import opened Text
  import opened Notes
  import opened NoteStore
  import opened Identity
  import opened Router

  /** The table invariant: every row sits under its own id and has a
      non-empty, stripped title and content. */
  ghost predicate WellFormed(items: map<string, Note>) {
    && Keyed(items)
    && forall k :: k in items ==>
         && items[k].title != "" && Stripped(items[k].title)
         && items[k].content != "" && Stripped(items[k].content)
  }

  // ---------------------------------------------------------------- OPTIONS

  /** An OPTIONS request on any path is answered 200 with an empty body,
      whatever its headers and body (no device id is needed), and the table
      is left alone. */
  lemma OptionsShortCircuits(items: map<string, Note>, ev: Event, headers: map<string, string>, body: Body,
                             freshId: string, now: string, resp: Response)
    requires DecodeRoute(ev).verb == Some("OPTIONS")
    ensures Plan(items, ev.(headers := headers, body := body)) == Preflight
    ensures Effect(Preflight, items, freshId, now) == items
    ensures Answers(Preflight, items, freshId, resp) <==> resp == Response(200, CorsHeaders(), Blank)
  {
    assert DecodeRoute(ev.(headers := headers, body := body)) == DecodeRoute(ev);
  }

  // --------------------------------------------------------------- Identity

  /** A non-empty header decides the device id: the body is never consulted. */
  lemma HeaderWins(ev: Event, body: Body)
    requires Given(ev.headers, LowerHeader) || Given(ev.headers, MixedHeader)
    ensures DeviceIdOf(ev.(body := body)) == DeviceIdOf(ev)
  {
  }

  /** A body `json.loads` rejects counts as no body at all. */
  lemma MalformedBodyIsAbsent(ev: Event)
    ensures DeviceIdOf(ev.(body := Malformed)) == DeviceIdOf(ev.(body := Absent))
    ensures DeviceIdOf(ev.(body := Malformed)) == DeviceIdOf(ev.(body := Null))
  {
  }

  /** A device id, when there is one, is the strip of a non-empty string the
      request carries in one of the two headers or the body's `device_id`. */
  lemma DeviceIdIsTrimmedRaw(ev: Event)
    requires DeviceIdOf(ev).Ok?
    ensures exists raw :: && raw != ""
                          && DeviceIdOf(ev).value == Strip(raw)
                          && (|| (LowerHeader in ev.headers && raw == ev.headers[LowerHeader])
                              || (MixedHeader in ev.headers && raw == ev.headers[MixedHeader])
                              || (ev.body.Object? && "device_id" in ev.body.fields
                                  && ev.body.fields["device_id"] == Str(raw)))
  {
    if Given(ev.headers, LowerHeader) {
      var raw := ev.headers[LowerHeader];
      assert raw != "" && DeviceIdOf(ev).value == Strip(raw);
    } else if Given(ev.headers, MixedHeader) {
      var raw := ev.headers[MixedHeader];
      assert raw != "" && DeviceIdOf(ev).value == Strip(raw);
    } else {
      var raw := ev.body.fields["device_id"].text;
      assert raw != "" && DeviceIdOf(ev).value == Strip(raw);
    }
  }

  /** The emptiness test runs before the trim: a device id of spaces only,
      from whichever of the three places is consulted, is accepted, and the
      caller's device id becomes the empty string. */
  lemma BlankIdBecomesEmpty(ev: Event)
    requires || (Given(ev.headers, LowerHeader) && AllSpace(ev.headers[LowerHeader]))
             || (!Given(ev.headers, LowerHeader) && Given(ev.headers, MixedHeader)
                 && AllSpace(ev.headers[MixedHeader]))
             || (&& !Given(ev.headers, LowerHeader) && !Given(ev.headers, MixedHeader)
                 && ev.body.Object? && "device_id" in ev.body.fields
                 && ev.body.fields["device_id"].Str? && ev.body.fields["device_id"].text != ""
                 && AllSpace(ev.body.fields["device_id"].text))
    ensures DeviceIdOf(ev) == Ok("")
  {
    if Given(ev.headers, LowerHeader) {
      StripEmptyIff(ev.headers[LowerHeader]);
    } else if Given(ev.headers, MixedHeader) {
      StripEmptyIff(ev.headers[MixedHeader]);
    } else {
      StripEmptyIff(ev.body.fields["device_id"].text);
    }
  }

  /** When neither header gives a value, the body's `device_id` is used:
      the request is answered as if the first header held that value. */
  lemma BodyIdStandsIn(ev: Event)
    requires !Given(ev.headers, LowerHeader) && !Given(ev.headers, MixedHeader)
    requires ev.body.Object? && "device_id" in ev.body.fields && ev.body.fields["device_id"].Str?
    requires ev.body.fields["device_id"].text != ""
    ensures DeviceIdOf(ev) == Ok(Strip(ev.body.fields["device_id"].text))
    ensures DeviceIdOf(ev) == DeviceIdOf(ev.(headers := ev.headers[LowerHeader := ev.body.fields["device_id"].text]))
  {
  }

  /** A request that carries no device id anywhere (no header value, and a
      body that is absent, `None`, not valid JSON, or an object without a
      truthy `device_id`) is refused with 400 "Device ID is required" and
      leaves the table alone; a body of the wrong JSON type makes it 500. */
  lemma NoIdentityRefused(items: map<string, Note>, ev: Event, freshId: string, now: string, resp: Response)
    requires DecodeRoute(ev).verb != Some("OPTIONS")
    requires !Given(ev.headers, LowerHeader) && !Given(ev.headers, MixedHeader)
    requires !(ev.body.Object? && "device_id" in ev.body.fields && ev.body.fields["device_id"].Str?
               && ev.body.fields["device_id"].text != "")
    ensures Plan(items, ev) == Reject(if IdTypeError(ev.body) then Unexpected else MissingDeviceId)
    ensures Effect(Plan(items, ev), items, freshId, now) == items
    ensures Answers(Plan(items, ev), items, freshId, resp) ==>
              resp == if IdTypeError(ev.body) then Response(500, CorsHeaders(), Error("Server error"))
                      else Response(400, CorsHeaders(), Error("Device ID is required"))
  {
  }

  // ----------------------------------------------------------------- Create

  /** POST /notes with a usable title and content inserts exactly one row,
      under the fresh id, owned by the caller, holding the stripped texts,
      with equal creation and update times; every other row is unchanged
      and the answer is 201 with the new id. */
  lemma CreateInsertsOneRow(items: map<string, Note>, ev: Event, device: string, freshId: string, now: string,
                            resp: Response)
    requires freshId !in items
    requires DecodeRoute(ev) == Route(Some("POST"), "/notes") && DeviceIdOf(ev) == Ok(device)
    requires ev.body.Object? && Usable(ev.body.fields, "title") && Usable(ev.body.fields, "content")
    ensures var after := Effect(Plan(items, ev), items, freshId, now);
            && after.Keys == items.Keys + {freshId}
            && |after| == |items| + 1
            && after[freshId] == Note(freshId, device, Strip(ev.body.fields["title"].text),
                                      Strip(ev.body.fields["content"].text), now, now)
            && after[freshId].createdAt == after[freshId].updatedAt
            && forall k :: k in items ==> after[k] == items[k]
    ensures Answers(Plan(items, ev), items, freshId, resp) <==> resp == Response(201, CorsHeaders(), NewNote(freshId))
  {
    PlanOnNotes(items, ev, device);
    CreateOutcome(Plan(items, ev), items, freshId, now, resp);
  }

  /** Helper for `CreateInsertsOneRow`: a create under a fresh id adds
      exactly one row and is answered 201 with that id. */
  lemma CreateOutcome(a: Action, items: map<string, Note>, freshId: string, now: string, resp: Response)
    requires a.Create? && freshId !in items
    ensures var after := Effect(a, items, freshId, now);
            && after.Keys == items.Keys + {freshId}
            && |after| == |items| + 1
            && after[freshId] == Note(freshId, a.owner, a.fields.title, a.fields.content, now, now)
            && forall k :: k in items ==> after[k] == items[k]
    ensures Answers(a, items, freshId, resp) <==> resp == Response(201, CorsHeaders(), NewNote(freshId))
  {
    var after := Effect(a, items, freshId, now);
    assert after.Keys == items.Keys + {freshId};
    assert |after.Keys| == |items.Keys| + 1;
  }

  /** POST /notes whose title or content is missing, empty or only
      whitespace (or whose body is not usable JSON) adds no row and is
      refused: 400, or 500 for a value of the wrong JSON type. */
  lemma CreateRejectsUnusable(items: map<string, Note>, ev: Event, device: string, freshId: string, now: string,
                              resp: Response)
    requires DecodeRoute(ev) == Route(Some("POST"), "/notes") && DeviceIdOf(ev) == Ok(device)
    requires !(ev.body.Object? && Usable(ev.body.fields, "title") && Usable(ev.body.fields, "content"))
    ensures Plan(items, ev) == Reject(NoteFields(ev.body).error)
    ensures !ev.body.Malformed? && !FieldTypeError(ev.body) ==> Plan(items, ev) == Reject(MissingFields)
    ensures Effect(Plan(items, ev), items, freshId, now) == items
    ensures Answers(Plan(items, ev), items, freshId, resp) ==> resp.status == (if FieldTypeError(ev.body) then 500 else 400)
    ensures Answers(Plan(items, ev), items, freshId, resp) && !ev.body.Malformed? && !FieldTypeError(ev.body) ==>
              resp == Response(400, CorsHeaders(), Error("Title and content are required"))
    ensures Answers(Plan(items, ev), items, freshId, resp) && ev.body.Malformed? ==>
              resp == Response(400, CorsHeaders(), DecodeError)
  {
    PlanOnNotes(items, ev, device);
  }

  // ------------------------------------------------------------------- List

  /** GET /notes answers 200 with exactly the caller's rows, each once, and
      changes nothing. */
  lemma ListReturnsOwnRows(items: map<string, Note>, ev: Event, device: string, freshId: string, now: string,
                           resp: Response)
    requires DecodeRoute(ev) == Route(Some("GET"), "/notes") && DeviceIdOf(ev) == Ok(device)
    requires Answers(Plan(items, ev), items, freshId, resp)
    ensures Effect(Plan(items, ev), items, freshId, now) == items
    ensures resp.status == 200 && resp.body.Rows?
    ensures forall n :: n in resp.body.rows <==> RowOf(items, n) && n.deviceId == device
    ensures DistinctIds(resp.body.rows)
  {
    PlanOnNotes(items, ev, device);
  }

  /** A note created by one device is listed for that device and for no
      other. */
  lemma CreatedNoteListedForOwnerOnly(items: map<string, Note>, owner: string, f: Fields, freshId: string,
                                      now: string, other: string, mine: seq<Note>, theirs: seq<Note>)
    requires Keyed(items) && freshId !in items && other != owner
    requires var after := Effect(Create(owner, f), items, freshId, now);
             IsListing(mine, after, owner) && IsListing(theirs, after, other)
    ensures Note(freshId, owner, f.title, f.content, now, now) in mine
    ensures forall n :: n in theirs ==> n.noteId != freshId
  {
    var after := Effect(Create(owner, f), items, freshId, now);
    assert RowOf(after, Note(freshId, owner, f.title, f.content, now, now));
  }

  // ------------------------------------------------------- Single-note guard

  /** Under `/notes/`, with any method, a missing id parameter, a missing
      row or a row of another device is refused with 400 before the method
      is looked at, and no row is touched. */
  lemma SingleNoteGuard(items: map<string, Note>, ev: Event, device: string, freshId: string, now: string,
                        resp: Response)
    requires DecodeRoute(ev).verb != Some("OPTIONS") && DeviceIdOf(ev) == Ok(device)
    requires StartsWith(DecodeRoute(ev).path, "/notes/")
    requires ev.pathId.None? || ev.pathId.value == "" || !OwnedBy(items, ev.pathId.value, device)
    ensures Plan(items, ev) == Reject(if ev.pathId.None? || ev.pathId.value == "" then MissingNoteId else NoteNotFound)
    ensures Effect(Plan(items, ev), items, freshId, now) == items
    ensures Answers(Plan(items, ev), items, freshId, resp) ==> resp.status == 400
    ensures Answers(Plan(items, ev), items, freshId, resp) && (ev.pathId.None? || ev.pathId.value == "") ==>
              resp == Response(400, CorsHeaders(), Error("Missing note ID"))
  {
    PlanUnderNotes(items, ev, device);
  }

  /** A missing row and a row owned by someone else get the same response,
      so a caller cannot tell whether a note id exists. */
  lemma MissingAndForeignLookAlike(absent: map<string, Note>, foreign: map<string, Note>, ev: Event,
                                   device: string, freshId: string, r1: Response, r2: Response)
    requires DecodeRoute(ev).verb != Some("OPTIONS") && DeviceIdOf(ev) == Ok(device)
    requires StartsWith(DecodeRoute(ev).path, "/notes/") && ev.pathId.Some? && ev.pathId.value != ""
    requires ev.pathId.value !in absent
    requires ev.pathId.value in foreign && foreign[ev.pathId.value].deviceId != device
    requires Answers(Plan(absent, ev), absent, freshId, r1) && Answers(Plan(foreign, ev), foreign, freshId, r2)
    ensures r1 == r2 == Response(400, CorsHeaders(), Error("Note not found or access denied"))
  {
    SingleNoteGuard(absent, ev, device, freshId, "", r1);
    SingleNoteGuard(foreign, ev, device, freshId, "", r2);
    assert r1 == FailureResponse(NoteNotFound) == r2;
  }

  // ----------------------------------------------------------------- Update

  /** PUT on an owned note with a usable title and content rewrites only the
      title, the content and the update time of that row; its id, owner and
      creation time stay, every other row stays, and the answer is 200. */
  lemma UpdateTouchesOnlyText(items: map<string, Note>, ev: Event, device: string, id: string, freshId: string,
                              now: string, resp: Response)
    requires DecodeRoute(ev).verb == Some("PUT") && DeviceIdOf(ev) == Ok(device)
    requires StartsWith(DecodeRoute(ev).path, "/notes/")
    requires ev.pathId == Some(id) && id != "" && OwnedBy(items, id, device)
    requires ev.body.Object? && Usable(ev.body.fields, "title") && Usable(ev.body.fields, "content")
    ensures var after := Effect(Plan(items, ev), items, freshId, now);
            && after.Keys == items.Keys
            && after[id].noteId == items[id].noteId
            && after[id].deviceId == items[id].deviceId
            && after[id].createdAt == items[id].createdAt
            && after[id].title == Strip(ev.body.fields["title"].text)
            && after[id].content == Strip(ev.body.fields["content"].text)
            && after[id].updatedAt == now
            && forall k :: k in items && k != id ==> after[k] == items[k]
    ensures Answers(Plan(items, ev), items, freshId, resp) <==>
              resp == Response(200, CorsHeaders(), Message("Updated"))
  {
    UpdatePlanned(items, ev, device, id);
    ReviseOutcome(Plan(items, ev), items, freshId, now, resp);
  }

  /** Helper for `UpdateTouchesOnlyText`: revising a present row rewrites
      its texts and update time and nothing else, and is answered 200. */
  lemma ReviseOutcome(a: Action, items: map<string, Note>, freshId: string, now: string, resp: Response)
    requires a.Revise? && a.noteId in items
    ensures var after := Effect(a, items, freshId, now);
            && after.Keys == items.Keys
            && after[a.noteId] == items[a.noteId].(title := a.fields.title, content := a.fields.content,
                                                   updatedAt := now)
            && forall k :: k in items && k != a.noteId ==> after[k] == items[k]
    ensures Answers(a, items, freshId, resp) <==> resp == Response(200, CorsHeaders(), Message("Updated"))
  {
  }

  /** Helper for `UpdateTouchesOnlyText`: such a PUT is planned as an
      update of that row with the stripped texts. */
  lemma UpdatePlanned(items: map<string, Note>, ev: Event, device: string, id: string)
    requires DecodeRoute(ev).verb == Some("PUT") && DeviceIdOf(ev) == Ok(device)
    requires StartsWith(DecodeRoute(ev).path, "/notes/")
    requires ev.pathId == Some(id) && id != "" && OwnedBy(items, id, device)
    requires ev.body.Object? && Usable(ev.body.fields, "title") && Usable(ev.body.fields, "content")
    ensures Plan(items, ev) == Revise(id, Fields(Strip(ev.body.fields["title"].text),
                                                Strip(ev.body.fields["content"].text)))
  {
    PlanUnderNotes(items, ev, device);
    PlanNotePut(items, ev.pathId, ev.body, device);
  }

  /** PUT on an owned note whose title or content is not usable changes
      nothing and is refused. */
  lemma UpdateRejectsUnusable(items: map<string, Note>, ev: Event, device: string, freshId: string, now: string,
                              resp: Response)
    requires DecodeRoute(ev).verb == Some("PUT") && DeviceIdOf(ev) == Ok(device)
    requires StartsWith(DecodeRoute(ev).path, "/notes/")
    requires ev.pathId.Some? && ev.pathId.value != "" && OwnedBy(items, ev.pathId.value, device)
    requires !(ev.body.Object? && Usable(ev.body.fields, "title") && Usable(ev.body.fields, "content"))
    ensures Plan(items, ev) == Reject(NoteFields(ev.body).error)
    ensures !ev.body.Malformed? && !FieldTypeError(ev.body) ==> Plan(items, ev) == Reject(MissingFields)
    ensures Effect(Plan(items, ev), items, freshId, now) == items
    ensures Answers(Plan(items, ev), items, freshId, resp) ==> resp.status == (if FieldTypeError(ev.body) then 500 else 400)
    ensures Answers(Plan(items, ev), items, freshId, resp) && !ev.body.Malformed? && !FieldTypeError(ev.body) ==>
              resp == Response(400, CorsHeaders(), Error("Title and content are required"))
    ensures Answers(Plan(items, ev), items, freshId, resp) && ev.body.Malformed? ==>
              resp == Response(400, CorsHeaders(), DecodeError)
  {
    PlanUnderNotes(items, ev, device);
    PlanNotePut(items, ev.pathId, ev.body, device);
  }

  // ----------------------------------------------------------------- Delete

  /** DELETE on an owned note removes exactly that row, keeps every other
      row as it was, and answers 204 with an empty body. */
  lemma DeleteRemovesOneRow(items: map<string, Note>, ev: Event, device: string, id: string, freshId: string,
                            now: string, resp: Response)
    requires DecodeRoute(ev).verb == Some("DELETE") && DeviceIdOf(ev) == Ok(device)
    requires StartsWith(DecodeRoute(ev).path, "/notes/")
    requires ev.pathId == Some(id) && id != "" && OwnedBy(items, id, device)
    ensures Plan(items, ev) == Remove(id)
    ensures var after := Effect(Plan(items, ev), items, freshId, now);
            && after.Keys == items.Keys - {id}
            && |after| == |items| - 1
            && forall k :: k in after ==> after[k] == items[k]
    ensures Answers(Plan(items, ev), items, freshId, resp) <==> resp == Response(204, CorsHeaders(), Blank)
  {
    PlanUnderNotes(items, ev, device);
    assert Plan(items, ev) == Remove(id);
    RemoveOutcome(Plan(items, ev), items, freshId, now, resp);
  }

  // ------------------------------------------------------------------- Read

  /** GET on an owned note answers 200 with that row as stored, and changes
      nothing. */
  lemma ReadReturnsOwnedRow(items: map<string, Note>, ev: Event, device: string, id: string, freshId: string,
                            now: string, resp: Response)
    requires DecodeRoute(ev).verb == Some("GET") && DeviceIdOf(ev) == Ok(device)
    requires StartsWith(DecodeRoute(ev).path, "/notes/")
    requires ev.pathId == Some(id) && id != "" && OwnedBy(items, id, device)
    ensures Plan(items, ev) == Fetch(items[id])
    ensures Effect(Plan(items, ev), items, freshId, now) == items
    ensures Answers(Plan(items, ev), items, freshId, resp) <==> resp == Response(200, CorsHeaders(), Row(items[id]))
  {
    PlanUnderNotes(items, ev, device);
  }

  /** Helper for `DeleteRemovesOneRow`: removing a present row drops that
      row alone and is answered 204. */
  lemma RemoveOutcome(a: Action, items: map<string, Note>, freshId: string, now: string, resp: Response)
    requires a.Remove? && a.noteId in items
    ensures var after := Effect(a, items, freshId, now);
            && after.Keys == items.Keys - {a.noteId}
            && |after| == |items| - 1
            && forall k :: k in after ==> after[k] == items[k]
    ensures Answers(a, items, freshId, resp) <==> resp == Response(204, CorsHeaders(), Blank)
  {
    var after := Effect(a, items, freshId, now);
    assert after.Keys == items.Keys - {a.noteId};
    assert |after.Keys| == |items.Keys| - 1;
  }

  /** DELETE is ownership-checked like GET and PUT: a caller who knows the
      id of another device's note cannot delete it. */
  lemma DeleteOfForeignNoteRefused(items: map<string, Note>, ev: Event, device: string, freshId: string,
                                   now: string, resp: Response)
    requires DecodeRoute(ev).verb == Some("DELETE") && DeviceIdOf(ev) == Ok(device)
    requires StartsWith(DecodeRoute(ev).path, "/notes/") && ev.pathId.Some?
    requires ev.pathId.value in items && items[ev.pathId.value].deviceId != device
    ensures Effect(Plan(items, ev), items, freshId, now) == items
    ensures Answers(Plan(items, ev), items, freshId, resp) ==> resp.status == 400
  {
    SingleNoteGuard(items, ev, device, freshId, now, resp);
  }

  // -------------------------------------------------------------- Not found

  /** A request that has a device id is answered 404 exactly when no branch
      matches: a path that is neither `/notes` nor under `/notes/`, a method
      other than GET or POST on `/notes`, or a method other than GET, PUT or
      DELETE on an owned note. */
  lemma NotFoundExactly(items: map<string, Note>, ev: Event, device: string)
    requires DecodeRoute(ev).verb != Some("OPTIONS") && DeviceIdOf(ev) == Ok(device)
    ensures var r := DecodeRoute(ev);
            Plan(items, ev) == NoRoute <==>
              || (r.path != "/notes" && !StartsWith(r.path, "/notes/"))
              || (r.path == "/notes" && r.verb != Some("GET") && r.verb != Some("POST"))
              || (&& StartsWith(r.path, "/notes/") && ev.pathId.Some? && ev.pathId.value != ""
                  && OwnedBy(items, ev.pathId.value, device)
                  && r.verb != Some("GET") && r.verb != Some("PUT") && r.verb != Some("DELETE"))
  {
    var r := DecodeRoute(ev);
    var a := Plan(items, ev);
    if r.path == "/notes" {
      assert !StartsWith(r.path, "/notes/");
      PlanOnNotes(items, ev, device);
    } else if StartsWith(r.path, "/notes/") {
      PlanUnderNotes(items, ev, device);
    } else {
      assert a == NoRoute;
    }
  }

  // --------------------------------------------------------------- Envelope

  /** Every response carries the same three CORS headers, and its status is
      one of the six the handler uses: 200, 201, 204 for success, 400 for a
      `ValueError`, 404 for an unmatched route, 500 for anything else. */
  lemma EnvelopeAndStatus(items: map<string, Note>, ev: Event, freshId: string, resp: Response)
    requires Answers(Plan(items, ev), items, freshId, resp)
    ensures resp.headers == CorsHeaders() && |resp.headers| == 3
    ensures resp.status in {200, 201, 204, 400, 404, 500}
    ensures resp.status == 400 <==> Plan(items, ev).Reject? && Plan(items, ev).failure != Unexpected
    ensures resp.status == 404 <==> Plan(items, ev) == NoRoute
  {
    assert CorsHeaders().Keys == {AllowOrigin, AllowMethods, AllowHeaders};
  }

  // -------------------------------------------------------------- Invariant

  /** A title and content as the create and update branches accept them. */
  predicate Clean(f: Fields) {
    f.title != "" && Stripped(f.title) && f.content != "" && Stripped(f.content)
  }

  /** Carrying out an action with clean fields on an existing row (or a
      fresh id) keeps the invariant and the identity of surviving rows. */
  lemma EffectKeepsInvariant(a: Action, items: map<string, Note>, freshId: string, now: string)
    requires WellFormed(items) && freshId !in items
    requires a.Create? || a.Revise? ==> Clean(a.fields)
    requires a.Revise? ==> a.noteId in items
    ensures var after := Effect(a, items, freshId, now);
            && WellFormed(after)
            && forall k :: k in items && k in after ==>
                 && after[k].noteId == items[k].noteId
                 && after[k].deviceId == items[k].deviceId
                 && after[k].createdAt == items[k].createdAt
  {
    var after := Effect(a, items, freshId, now);
    match a
    case Create(owner, f) =>
      assert after == items[freshId := Note(freshId, owner, f.title, f.content, now, now)];
    case Revise(id, f) =>
      assert after == items[id := items[id].(title := f.title, content := f.content, updatedAt := now)];
    case Remove(id) =>
      assert after == items - {id};
    case _ =>
      assert after == items;
  }

  /** Every request keeps the table invariant, and no request changes the
      id, the owner or the creation time of a row that survives it. */
  lemma HandlerKeepsInvariant(items: map<string, Note>, ev: Event, freshId: string, now: string)
    requires WellFormed(items) && freshId !in items
    ensures var after := Effect(Plan(items, ev), items, freshId, now);
            && WellFormed(after)
            && forall k :: k in items && k in after ==>
                 && after[k].noteId == items[k].noteId
                 && after[k].deviceId == items[k].deviceId
                 && after[k].createdAt == items[k].createdAt
  {
    PlanGuards(items, ev);
    EffectKeepsInvariant(Plan(items, ev), items, freshId, now);
  }
}
