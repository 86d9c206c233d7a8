/** `lambda_handler`: decodes the route, short-circuits CORS preflight,
    resolves the caller's device, and dispatches to create, list, read,
    update or delete against the notes table. */
module Router {
  import opened Wrappers
  import opened Text
  import opened Notes
  import opened NoteStore
  import opened Identity

  datatype Route = Route(verb: Option<string>, path: string)

  /** The method and path of an event: the two pieces of a `routeKey` that
      splits on single spaces into exactly two ("GET /notes/{id}"), or else
      `requestContext.http.method` and `rawPath`. */
  function DecodeRoute(ev: Event): Route {
    var parts := Split(ev.routeKey, ' ');
    if |parts| == 2 then Route(Some(parts[0]), parts[1]) else Route(ev.httpMethod, ev.rawPath)
  }

  /** The route key is used exactly when it holds one space, and then it is
      cut at that space; any other route key (none, "$default", two spaces)
      gives way to the request context and the raw path. */
  lemma DecodeRouteCuts(ev: Event)
    ensures var r := DecodeRoute(ev);
            multiset(ev.routeKey)[' '] == 1 ==>
              && r.verb.Some?
              && ev.routeKey == r.verb.value + " " + r.path
              && ' ' !in r.verb.value && ' ' !in r.path
    ensures multiset(ev.routeKey)[' '] != 1 ==> DecodeRoute(ev) == Route(ev.httpMethod, ev.rawPath)
  {
    var parts := Split(ev.routeKey, ' ');
    SplitCount(ev.routeKey, ' ');
    JoinSplit(ev.routeKey, ' ');
    SplitFree(ev.routeKey, ' ');
    if |parts| == 2 {
      assert Join(parts, ' ') == parts[0] + " " + parts[1];
    }
  }

  predicate StartsWith(s: string, prefix: string) {
    |prefix| <= |s| && s[..|prefix|] == prefix
  }

  /** Trimmed title and content of a create or update request. */
  datatype Fields = Fields(title: string, content: string)

  /** `body.get(name, '')`: a missing field reads as the empty string; a
      value that is not a string has no `.strip()` (`None`). */
  function TextField(fields: map<string, JsonValue>, name: string): Option<string> {
    if name !in fields then Some("")
    else match fields[name]
      case Str(s) => Some(s)
      case NonString(_) => None
  }

  /** The field `name` holds a string that is not empty after stripping. */
  predicate Usable(fields: map<string, JsonValue>, name: string) {
    name in fields && fields[name].Str? && !AllSpace(fields[name].text)
  }

  /** The fields of a JSON object body, validated as the create and update
      branches do: both strings are stripped before the emptiness test. */
  function FieldsOf(fields: map<string, JsonValue>): (r: Result<Fields, Failure>)
    ensures r.Ok? <==> Usable(fields, "title") && Usable(fields, "content")
    ensures r.Ok? ==> r.value == Fields(Strip(fields["title"].text), Strip(fields["content"].text))
    ensures r.Ok? ==> r.value.title != "" && r.value.content != ""
    ensures r.Err? ==> r.error in {MissingFields, Unexpected}
    ensures r.Err? ==> (r.error == Unexpected <==> TextField(fields, "title").None? || TextField(fields, "content").None?)
  {
    var title := TextField(fields, "title");
    if title.None? then Err(Unexpected)
    else
      var content := TextField(fields, "content");
      if content.None? then Err(Unexpected)
      else
        var t, c := Strip(title.value), Strip(content.value);
        StripEmptyIff(title.value);
        StripEmptyIff(content.value);
        if t == "" || c == "" then Err(MissingFields) else Ok(Fields(t, c))
  }

  /** The create and update branches meet a Python type error: the body is
      `None` or not a JSON object, or its title or content is present but
      not a string. */
  predicate FieldTypeError(body: Body) {
    || body.Null? || body.NonObject?
    || (body.Object? && (TextField(body.fields, "title").None? || TextField(body.fields, "content").None?))
  }

  /** `json.loads(event.get('body', '{}'))` followed by the field checks.
      An absent body decodes as `{}` and so lacks both fields; a `None` body
      or a non-object document is a type error; text the decoder rejects is
      a `ValueError`. */
  function NoteFields(body: Body): (r: Result<Fields, Failure>)
    ensures r.Ok? <==> body.Object? && Usable(body.fields, "title") && Usable(body.fields, "content")
    ensures r.Ok? ==> r.value == Fields(Strip(body.fields["title"].text), Strip(body.fields["content"].text))
    ensures r.Ok? ==> r.value.title != "" && r.value.content != ""
    ensures body.Malformed? <==> r == Err(BadJson)
    ensures body.Absent? ==> r == Err(MissingFields)
    ensures body.Null? || body.NonObject? ==> r == Err(Unexpected)
    ensures body.Object? ==> r == FieldsOf(body.fields)
    ensures r.Err? ==> (r.error == Unexpected <==> FieldTypeError(body))
  {
    match body
    case Absent => FieldsOf(map[])
    case Null => Err(Unexpected)
    case Malformed => Err(BadJson)
    case NonObject => Err(Unexpected)
    case Object(fields) => FieldsOf(fields)
  }

  /** What the handler decides to do with a request, given the table as it
      is before the request. */
  datatype Action =
    | Preflight
    | Reject(failure: Failure)
    | Create(owner: string, fields: Fields)
    | List(owner: string)
    | Fetch(note: Note)
    | Revise(noteId: string, fields: Fields)
    | Remove(noteId: string)
    | NoRoute

  /** The row `id` exists and belongs to `device`. */
  predicate OwnedBy(items: map<string, Note>, id: string, device: string) {
    id in items && items[id].deviceId == device
  }

  /** The handler's decision, in the order it tests things: OPTIONS first,
      then the device id, then `/notes` with POST or GET, then any path
      under `/notes/`. Anything else is not found. */
  function Plan(items: map<string, Note>, ev: Event): Action
  {
    var route := DecodeRoute(ev);
    if route.verb == Some("OPTIONS") then Preflight
    else match DeviceIdOf(ev)
      case Err(e) => Reject(e)
      case Ok(device) =>
        if route.path == "/notes" && route.verb == Some("POST") then
          match NoteFields(ev.body)
          case Err(e) => Reject(e)
          case Ok(f) => Create(device, f)
        else if route.path == "/notes" && route.verb == Some("GET") then
          List(device)
        else if StartsWith(route.path, "/notes/") then
          PlanNote(items, route.verb, ev.pathId, ev.body, device)
        else NoRoute
  }

  /** Once a device id is known, a path under `/notes/` is decided by
      `PlanNote` alone, for every method. */
  lemma PlanUnderNotes(items: map<string, Note>, ev: Event, device: string)
    requires DecodeRoute(ev).verb != Some("OPTIONS") && DeviceIdOf(ev) == Ok(device)
    requires StartsWith(DecodeRoute(ev).path, "/notes/")
    ensures Plan(items, ev) == PlanNote(items, DecodeRoute(ev).verb, ev.pathId, ev.body, device)
  {
    assert DecodeRoute(ev).path != "/notes";
  }

  /** Once a device id is known, `/notes` itself is a create for POST, a
      list for GET, and not found for any other method but OPTIONS. */
  lemma PlanOnNotes(items: map<string, Note>, ev: Event, device: string)
    requires DecodeRoute(ev).verb != Some("OPTIONS") && DeviceIdOf(ev) == Ok(device)
    requires DecodeRoute(ev).path == "/notes"
    ensures Plan(items, ev) == if DecodeRoute(ev).verb == Some("POST") then
                                 (if NoteFields(ev.body).Ok? then Create(device, NoteFields(ev.body).value)
                                  else Reject(NoteFields(ev.body).error))
                               else if DecodeRoute(ev).verb == Some("GET") then List(device)
                               else NoRoute
  {
  }

  /** What the decision guarantees: only OPTIONS is a preflight; a read,
      update or delete is only ever planned on the row named by the id
      parameter when it belongs to the caller; create and list act for the
      caller on `/notes`; create and update carry the validated fields. */
  lemma PlanGuards(items: map<string, Note>, ev: Event)
    ensures var a := Plan(items, ev);
            && (a == Preflight <==> DecodeRoute(ev).verb == Some("OPTIONS"))
            && (a.Fetch? ==> && ev.pathId.Some? && DeviceIdOf(ev).Ok?
                             && OwnedBy(items, ev.pathId.value, DeviceIdOf(ev).value)
                             && a.note == items[ev.pathId.value])
            && (a.Revise? || a.Remove? ==> && ev.pathId == Some(a.noteId) && DeviceIdOf(ev).Ok?
                                           && OwnedBy(items, a.noteId, DeviceIdOf(ev).value))
            && (a.Create? || a.List? ==> DecodeRoute(ev).path == "/notes" && DeviceIdOf(ev) == Ok(a.owner))
            && (a.Create? || a.Revise? ==> NoteFields(ev.body) == Ok(a.fields))
  {
    var r := DecodeRoute(ev);
    if r.verb != Some("OPTIONS") && DeviceIdOf(ev).Ok? {
      var device := DeviceIdOf(ev).value;
      if r.path == "/notes" {
        PlanOnNotes(items, ev, device);
      } else if StartsWith(r.path, "/notes/") {
        PlanUnderNotes(items, ev, device);
      } else {
        assert Plan(items, ev) == NoRoute;
      }
    }
  }

  /** The decision for a path under `/notes/`: the id parameter and the
      ownership of the row are checked before the method is looked at, so
      every method, DELETE included, is refused on a row the caller does
      not own. */
  function PlanNote(items: map<string, Note>, verb: Option<string>, pathId: Option<string>,
                    body: Body, device: string): (a: Action)
    ensures a.Fetch? ==> pathId.Some? && OwnedBy(items, pathId.value, device) && a.note == items[pathId.value]
    ensures a.Revise? || a.Remove? ==> pathId == Some(a.noteId) && OwnedBy(items, a.noteId, device)
    ensures a.Revise? ==> NoteFields(body) == Ok(a.fields)
    ensures !(a.Preflight? || a.Create? || a.List?)
  {
    if pathId.None? || pathId.value == "" then Reject(MissingNoteId)
    else if !OwnedBy(items, pathId.value, device) then Reject(NoteNotFound)
    else if verb == Some("GET") then Fetch(items[pathId.value])
    else if verb == Some("PUT") then
      match NoteFields(body)
      case Err(e) => Reject(e)
      case Ok(f) => Revise(pathId.value, f)
    else if verb == Some("DELETE") then Remove(pathId.value)
    else NoRoute
  }

  /** For PUT on an owned note, `PlanNote` is the update with the decoded
      fields, or the refusal the decoding gives. */
  lemma PlanNotePut(items: map<string, Note>, pathId: Option<string>, body: Body, device: string)
    requires pathId.Some? && pathId.value != "" && OwnedBy(items, pathId.value, device)
    ensures PlanNote(items, Some("PUT"), pathId, body, device) ==
              if NoteFields(body).Ok? then Revise(pathId.value, NoteFields(body).value)
              else Reject(NoteFields(body).error)
  {
    assert Some("PUT") != Some("GET");
  }

  /** The table after carrying out an action; `freshId` and `now` stand for
      `uuid4()` and `utcnow()`. */
  function Effect(a: Action, items: map<string, Note>, freshId: string, now: string): (after: map<string, Note>)
    ensures !(a.Create? || a.Revise? || a.Remove?) ==> after == items
    ensures after.Keys <= items.Keys + {freshId}
    ensures forall k :: k in after && k in items && !(a.Revise? && k == a.noteId) && !(a.Create? && k == freshId) ==>
              after[k] == items[k]
  {
    match a
    case Create(owner, f) => items[freshId := Note(freshId, owner, f.title, f.content, now, now)]
    case Revise(id, f) =>
      if id in items then items[id := items[id].(title := f.title, content := f.content, updatedAt := now)]
      else items
    case Remove(id) => items - {id}
    case _ => items
  }

  function Reply(status: int, body: Payload): Response {
    Response(status, CorsHeaders(), body)
  }

  /** `resp` is the response the handler returns for action `a`. */
  ghost predicate Answers(a: Action, items: map<string, Note>, freshId: string, resp: Response) {
    && resp.headers == CorsHeaders()
    && match a
       case Preflight => resp.status == 200 && resp.body == Blank
       case Reject(f) => resp == FailureResponse(f)
       case Create(_, _) => resp.status == 201 && resp.body == NewNote(freshId)
       case List(owner) => resp.status == 200 && resp.body.Rows? && IsListing(resp.body.rows, items, owner)
       case Fetch(note) => resp.status == 200 && resp.body == Row(note)
       case Revise(_, _) => resp.status == 200 && resp.body == Message("Updated")
       case Remove(_) => resp.status == 204 && resp.body == Blank
       case NoRoute => resp.status == 404 && resp.body == Error("Not found")
  }

  /** `lambda_handler(event, context)` over the table it is given. The
      handler's calls to `uuid4()` and `utcnow()` are the parameters
      `freshId` and `now`; the id is one no row has yet. */
  method LambdaHandler(table: NoteTable, ev: Event, freshId: string, now: string) returns (resp: Response)
    requires table.Valid() && freshId !in table.items
    modifies table
    ensures table.Valid()
    ensures table.items == Effect(Plan(old(table.items), ev), old(table.items), freshId, now)
    ensures Answers(Plan(old(table.items), ev), old(table.items), freshId, resp)
  {
    ghost var a := Plan(table.items, ev);
    var route := DecodeRoute(ev);
    if route.verb == Some("OPTIONS") {
      return Reply(200, Blank);
    }

    var device := GetDeviceId(ev);
    if device.Err? {
      assert a == Reject(device.error);
      return FailureResponse(device.error);
    }
    var deviceId := device.value;

    if route.path == "/notes" && route.verb == Some("POST") {
      var fields := NoteFields(ev.body);
      if fields.Err? {
        assert a == Reject(fields.error);
        return FailureResponse(fields.error);
      }
      assert a == Create(deviceId, fields.value);
      table.PutItem(Note(freshId, deviceId, fields.value.title, fields.value.content, now, now));
      return Reply(201, NewNote(freshId));
    } else if route.path == "/notes" && route.verb == Some("GET") {
      assert a == List(deviceId);
      var rows := table.QueryByOwner(deviceId);
      return Reply(200, Rows(rows));
    } else if StartsWith(route.path, "/notes/") {
      assert a == PlanNote(table.items, route.verb, ev.pathId, ev.body, deviceId);
      resp := HandleNote(table, route.verb, ev.pathId, ev.body, deviceId, now);
      return;
    }
    assert a == NoRoute;
    return Reply(404, Error("Not found"));
  }

  /** The branch of `lambda_handler` for paths under `/notes/`, from the
      id check to the fall-through 404. */
  method HandleNote(table: NoteTable, verb: Option<string>, pathId: Option<string>, body: Body,
                    deviceId: string, now: string) returns (resp: Response)
    requires table.Valid()
    modifies table
    ensures table.Valid()
    ensures var a := PlanNote(old(table.items), verb, pathId, body, deviceId);
            table.items == Effect(a, old(table.items), "", now) && Answers(a, old(table.items), "", resp)
  {
    ghost var a := PlanNote(table.items, verb, pathId, body, deviceId);
    if pathId.None? || pathId.value == "" {
      assert a == Reject(MissingNoteId);
      return FailureResponse(MissingNoteId);
    }
    var noteId := pathId.value;
    var item := table.GetItem(noteId);
    if item.None? || item.value.deviceId != deviceId {
      assert a == Reject(NoteNotFound);
      return FailureResponse(NoteNotFound);
    }
    assert OwnedBy(table.items, noteId, deviceId) && item.value == table.items[noteId];
    if verb == Some("GET") {
      assert a == Fetch(item.value);
      return Reply(200, Row(item.value));
    } else if verb == Some("PUT") {
      var fields := NoteFields(body);
      if fields.Err? {
        assert a == Reject(fields.error);
        return FailureResponse(fields.error);
      }
      assert a == Revise(noteId, fields.value);
      table.UpdateItem(noteId, fields.value.title, fields.value.content, now);
      return Reply(200, Message("Updated"));
    } else if verb == Some("DELETE") {
      assert a == Remove(noteId);
      table.DeleteItem(noteId);
      return Reply(204, Blank);
    }
    assert a == NoRoute;
    return Reply(404, Error("Not found"));
  }
}
