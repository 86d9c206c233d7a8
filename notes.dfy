/** The values the notes API works with: the stored note, the HTTP API event
    as the handler reads it, and the response it returns. */
module Notes {
  import opened Wrappers
  import opened Text

  /** One row of the notes table (the item written by `put_item`).
      Timestamps are the opaque strings the handler is given. */
  datatype Note = Note(
    noteId: string,
    deviceId: string,
    title: string,
    content: string,
    createdAt: string,
    updatedAt: string)

  /** A value inside a parsed JSON body: a string, or any other JSON value,
      of which only its Python truthiness matters to the handler. */
  datatype JsonValue = Str(text: string) | NonString(truthy: bool)

  /** The request body as the handler sees it:
      - `Absent`: the event has no `body` key;
      - `Null`: the key is there with value `None`;
      - `Malformed`: text `json.loads` rejects (the empty text among them);
      - `NonObject`: valid JSON that is not an object (an array, a number, ...);
      - `Object`: a JSON object with its fields. */
  datatype Body =
    | Absent
    | Null
    | Malformed
    | NonObject
    | Object(fields: map<string, JsonValue>)

  /** The parts of an API Gateway HTTP event the handler reads. Missing keys
      take the defaults the handler gives them: `routeKey` and `rawPath`
      default to "", `headers` and `pathParameters` to empty. */
  datatype Event = Event(
    routeKey: string,
    httpMethod: Option<string>,   // requestContext.http.method
    rawPath: string,
    pathId: Option<string>,       // pathParameters['id']
    headers: map<string, string>,
    body: Body)

  /** The exceptions the handler raises or runs into. All but `Unexpected`
      are `ValueError`s (a JSON decode error is one as well). */
  datatype Failure =
    | MissingDeviceId
    | MissingFields
    | MissingNoteId
    | NoteNotFound
    | BadJson
    | Unexpected

  /** The JSON body of a response, before serialisation. */
  datatype Payload =
    | Blank                       // ''
    | NewNote(noteId: string)     // {"note_id": ...}
    | Rows(rows: seq<Note>)       // the items of the owner query
    | Row(note: Note)             // the item read by get_item
    | Message(text: string)       // {"message": ...}
    | Error(text: string)         // {"error": ...}
    | DecodeError                 // {"error": <the JSON decoder's message>}

  datatype Response = Response(status: int, headers: map<string, string>, body: Payload)

  const AllowOrigin := "Access-Control-Allow-Origin"
  const AllowMethods := "Access-Control-Allow-Methods"
  const AllowHeaders := "Access-Control-Allow-Headers"

  /** The cross-origin headers every response carries: any origin, the five
      methods the router serves, and the two request headers clients send. */
  function CorsHeaders(): (h: map<string, string>)
    ensures h.Keys == {AllowOrigin, AllowMethods, AllowHeaders}
    ensures h[AllowOrigin] == "*"
  {
    map[
      AllowOrigin := "*",
      AllowMethods := "GET,POST,PUT,DELETE,OPTIONS",
      AllowHeaders := "Content-Type,x-device-id"]
  }

  /** The preflight headers advertise exactly the five methods the router
      serves and the device-id header the handler reads. */
  lemma CorsAdvertises()
    ensures Split(CorsHeaders()[AllowMethods], ',') == ["GET", "POST", "PUT", "DELETE", "OPTIONS"]
    ensures Split(CorsHeaders()[AllowHeaders], ',') == ["Content-Type", "x-device-id"]
  {
    MethodList();
    HeaderList();
  }

  /** The allowed-methods value lists exactly the five methods the router serves. */
  lemma MethodList()
    ensures Split("GET,POST,PUT,DELETE,OPTIONS", ',') == ["GET", "POST", "PUT", "DELETE", "OPTIONS"]
  {
    var methods := ["GET", "POST", "PUT", "DELETE", "OPTIONS"];
    assert Join(methods[4..], ',') == "OPTIONS";
    assert Join(methods[3..], ',') == "DELETE" + [','] + "OPTIONS";
    assert Join(methods[2..], ',') == "PUT" + [','] + "DELETE" + [','] + "OPTIONS";
    assert Join(methods[1..], ',') == "POST" + [','] + "PUT" + [','] + "DELETE" + [','] + "OPTIONS";
    assert Join(methods, ',') == "GET" + [','] + "POST" + [','] + "PUT" + [','] + "DELETE" + [','] + "OPTIONS";
    assert "GET" + [','] + "POST" + [','] + "PUT" + [','] + "DELETE" + [','] + "OPTIONS" == "GET,POST,PUT,DELETE,OPTIONS";
    SplitJoin(methods, ',');
  }

  /** The allowed-headers value lists exactly `Content-Type` and `x-device-id`. */
  lemma HeaderList()
    ensures Split("Content-Type,x-device-id", ',') == ["Content-Type", "x-device-id"]
  {
    var allowed := ["Content-Type", "x-device-id"];
    assert Join(allowed, ',') == "Content-Type" + [','] + "x-device-id";
    assert "Content-Type" + [','] + "x-device-id" == "Content-Type,x-device-id";
    SplitJoin(allowed, ',');
  }

  /** The `{"error": ...}` text of each `ValueError`, and the generic text
      the caller sees for anything else. */
  function ErrorText(f: Failure): (t: string)
    ensures t == "" <==> f == BadJson
  {
    match f
    case MissingDeviceId => "Device ID is required"
    case MissingFields => "Title and content are required"
    case MissingNoteId => "Missing note ID"
    case NoteNotFound => "Note not found or access denied"
    case BadJson => ""
    case Unexpected => "Server error"
  }

  /** The response for an exception: `ValueError` becomes 400 with its
      message, anything else 500 with a generic message. */
  function FailureResponse(f: Failure): (r: Response)
    ensures r.headers == CorsHeaders()
    ensures r.status == 500 <==> f == Unexpected
    ensures r.status == 400 <==> f != Unexpected
    ensures r.body == DecodeError <==> f == BadJson
    ensures f != BadJson ==> r.body == Error(ErrorText(f)) && r.body.text != ""
  {
    Response(
      if f == Unexpected then 500 else 400,
      CorsHeaders(),
      if f == BadJson then DecodeError else Error(ErrorText(f)))
  }
}
