/** The JSON frames exchanged over the room's WebSocket: what the browser
    client (static/code_editor/js/script.js) sends, and what the server
    (code_editor/consumers.py) sends back. */
module Protocol {
  import opened Common

  /** Pixel offsets of a caret, as measured by the client. */
  datatype Coords = Coords(left: real, top: real)

  /** A field value: a JSON string, or the `{index, coords}` object of a
      cursor position. */
  datatype Value = Str(s: string) | Pos(index: int, coords: Coords)

  /** A parsed client frame: a JSON object from field names to values. */
  type Envelope = map<string, Value>

  /** `data.get('type')`, kept only when it is a string: a missing or
      non-string `type` equals none of the known kinds. */
  function TypeOf(env: Envelope): (t: Option<string>)
    ensures t.Some? <==> "type" in env && env["type"].Str?
    ensures t.Some? ==> env["type"] == Str(t.value)
  {
    if "type" in env && env["type"].Str? then Some(env["type"].s) else None
  }

  // Frames the client sends.

  function CodeUpdateEnvelope(code: string): Envelope {
    map["type" := Str("code_update"), "code" := Str(code)]
  }

  function ExecuteEnvelope(code: string, language: string): Envelope {
    map["type" := Str("execute_code"), "code" := Str(code), "language" := Str(language)]
  }

  function ChatEnvelope(message: string): Envelope {
    map["type" := Str("chat_message"), "message" := Str(message)]
  }

  function CursorEnvelope(index: int, coords: Coords): Envelope {
    map["type" := Str("cursor_update"), "position" := Pos(index, coords)]
  }

  /** Frames the server sends to one client. */
  datatype Frame =
    | CodeUpdateFrame(code: Value)
    | CursorUpdateFrame(username: string, position: Value)
    | ChatFrame(message: Value, username: string, timestamp: string)
    | SystemMessage(text: string, timestamp: string)
    | ExecutionResult(output: string)
    | ExecutionError(error: string)
}
