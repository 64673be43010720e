/** The browser side of a room, static/code_editor/js/script.js: the editor
    textarea, the chat box, the remote cursors, the output pane and the
    socket's send queue. The socket's open state is a field the browser
    flips; what the DOM measures (caret pixel offsets) and the local clock
    reading are parameters. */
module Editor {
  import opened Common
  import opened Text
  import opened Protocol

  // ---------------------------------------------------------------------
  // The colour of a remote cursor: `stringToColor`
  // ---------------------------------------------------------------------

  const TwoTo31: int := 0x8000_0000
  const TwoTo32: int := 0x1_0000_0000

  /** ECMAScript's ToInt32 on an integral number: wrap into 32-bit two's
      complement. */
  function ToInt32(x: int): (r: int)
    ensures -TwoTo31 <= r < TwoTo31
    ensures (x - r) % TwoTo32 == 0
  {
    (x + TwoTo31) % TwoTo32 - TwoTo31
  }

  /** `h << 5`: the left operand is converted with ToInt32 and so is the
      shifted result. */
  function ShiftLeft5(h: int): (r: int)
    ensures -TwoTo31 <= r < TwoTo31
  {
    ToInt32(ToInt32(h) * 32)
  }

  /** `str.charCodeAt(i)`. */
  function CharCode(c: char): nat {
    c as nat
  }

  /** The value of `hash` after the loop of `stringToColor` has consumed
      `s`. Only the shift wraps: the addition and the subtraction are done
      on unbounded numbers. */
  function Hash(s: string): int {
    if s == [] then 0
    else
      var h := Hash(s[..|s| - 1]);
      CharCode(s[|s| - 1]) + (ShiftLeft5(h) - h)
  }

  /** JavaScript's division truncated toward zero, the quotient that goes
      with its `%`. */
  function JsQuot(a: int, b: int): int
    requires b > 0
  {
    if a >= 0 then a / b else -((-a) / b)
  }

  /** JavaScript's `%` by a positive divisor: the remainder of the
      truncating division, which takes the sign of the dividend. */
  function JsRem(a: int, b: int): (r: int)
    requires b > 0
    ensures a == JsQuot(a, b) * b + r
    ensures -b < r < b
    ensures a >= 0 ==> r >= 0
    ensures a <= 0 ==> r <= 0
  {
    if a >= 0 then a % b else -((-a) % b)
  }

  /** The hue of `hsl(${hash % 360}, 70%, 50%)`. */
  function Hue(s: string): int {
    JsRem(Hash(s), 360)
  }

  /** `stringToColor`, loop and all; its colour is given by its hue. */
  method StringToColor(str: string) returns (hue: int)
    ensures hue == Hue(str)
  {
    var hash := 0;
    var i := 0;
    while i < |str|
      invariant 0 <= i <= |str|
      invariant hash == Hash(str[..i])
    {
      assert str[..i + 1][..i] == str[..i];
      hash := CharCode(str[i]) + (ShiftLeft5(hash) - hash);
      i := i + 1;
    }
    assert str[..|str|] == str;
    hue := JsRem(hash, 360);
  }

  /** Wrapping leaves 32-bit values alone. */
  lemma ToInt32Identity(x: int)
    requires -TwoTo31 <= x < TwoTo31
    ensures ToInt32(x) == x
  {
  }

  /** While no shift overflows, `(h << 5) - h` is `31 * h`: the hash is the
      familiar base-31 string hash. */
  lemma HashStep(s: string, c: char)
    requires -0x400_0000 <= Hash(s) < 0x400_0000
    ensures Hash(s + [c]) == 31 * Hash(s) + CharCode(c)
  {
    assert (s + [c])[..|s|] == s;
    ToInt32Identity(Hash(s));
    ToInt32Identity(Hash(s) * 32);
  }

  /** The hue lies strictly between -360 and 360, carries the sign of the
      hash, and is what remains of the hash after the truncating division
      by 360. */
  lemma HueRange(s: string)
    ensures -360 < Hue(s) < 360
    ensures Hash(s) >= 0 ==> Hue(s) >= 0
    ensures Hash(s) < 0 ==> Hue(s) <= 0
    ensures Hash(s) == JsQuot(Hash(s), 360) * 360 + Hue(s)
  {
  }

  // ---------------------------------------------------------------------
  // The pieces of client state
  // ---------------------------------------------------------------------

  datatype Color = White | Red

  /** The output pane: its text, its colour, and whether the text was set
      as HTML (`innerHTML`) or as plain text (`textContent`). */
  datatype OutputPane = OutputPane(text: string, color: Color, isHtml: bool)

  /** A remote collaborator's cursor: the hue it was created with and the
      pixel offset of its last move, if any. */
  datatype RemoteCursor = RemoteCursor(hue: int, offset: Option<Coords>)

  /** One entry of the chat log. */
  datatype ChatLine = ChatLine(username: string, message: string, timestamp: string)

  /** What a field becomes when a template literal or the textarea takes
      it: a string stays itself, an object reads "[object Object]". */
  function JsText(v: Value): string {
    if v.Str? then v.s else "[object Object]"
  }

  /** `s.substring(0, start) + insert + s.substring(end)`. */
  function Splice(s: string, start: nat, end: nat, insert: string): (r: string)
    requires start <= end <= |s|
    ensures |r| == |s| - (end - start) + |insert|
    ensures r[..start] == s[..start]
    ensures r[start..start + |insert|] == insert
    ensures r[start + |insert|..] == s[end..]
  {
    s[..start] + insert + s[end..]
  }

  /** The chat text `sendChatMessage` sends, if it sends any: the trimmed
      input, provided it is not empty and the socket is open. */
  function ChatToSend(input: string, open: bool): (m: Option<string>)
    ensures m.Some? <==> open && exists i :: 0 <= i < |input| && !JsSpace(input[i])
    ensures m.Some? ==> m.value == JsTrim(input) && !JsSpace(m.value[0]) && !JsSpace(m.value[|m.value| - 1])
  {
    var message := JsTrim(input);
    if message != [] && open then Some(message) else None
  }

  /** `setSelectionRange(p, p)` on a text of length `n`. */
  function Clamp(p: nat, n: nat): (r: nat)
    ensures r <= n && r <= p
    ensures r == p || r == n
  {
    if p <= n then p else n
  }

  /** The output pane after a frame: a result is shown as HTML with line
      breaks turned into `<br>`, an error as plain text after "Error: ",
      and every other frame leaves the pane alone. */
  function PaneAfter(pane: OutputPane, f: Frame): OutputPane {
    match f
    case ExecutionResult(output) => OutputPane(ReplaceNewlines(output), White, true)
    case ExecutionError(error) => OutputPane("Error: " + error, Red, false)
    case _ => pane
  }

  /** `data.timestamp || formatTimestamp(new Date())`: an empty stamp is
      replaced by the local clock's. */
  function Stamp(timestamp: string, now: string): string {
    if timestamp == "" then now else timestamp
  }

  /** `updateRemoteCursor` on the cursor map: get the user's cursor, or
      create one coloured by `hue`; then move it. A position without
      coordinates (a plain string) makes the move throw, after the cursor
      was created. */
  function CursorsAfter(cursors: map<string, RemoteCursor>, username: string, position: Value, hue: int)
    : map<string, RemoteCursor>
  {
    var cursor := if username in cursors then cursors[username] else RemoteCursor(hue, None);
    if position.Pos? then cursors[username := cursor.(offset := Some(position.coords))]
    else cursors[username := cursor]
  }

  /** Everything the client holds, as one value. */
  datatype EditorState = EditorState(
    value: string, selStart: nat, selEnd: nat, language: string, chatInput: string, open: bool,
    cursors: map<string, RemoteCursor>, outbox: seq<Envelope>, output: OutputPane, chat: seq<ChatLine>)

  class EditorClient {
    var value: string
    var selStart: nat
    var selEnd: nat
    var language: string
    var chatInput: string
    var open: bool
    var cursors: map<string, RemoteCursor>
    var outbox: seq<Envelope>
    var output: OutputPane
    var chat: seq<ChatLine>

    /** The textarea's selection lies inside its text. */
    ghost predicate Valid()
      reads this
    {
      selStart <= selEnd <= |value|
    }

    ghost function State(): EditorState
      reads this
    {
      EditorState(value, selStart, selEnd, language, chatInput, open, cursors, outbox, output, chat)
    }

    /** A freshly loaded page: empty editor and chat, socket still
        connecting. */
    constructor(language: string)
      ensures Valid()
      ensures State() == EditorState("", 0, 0, language, "", false, map[], [], OutputPane("", White, false), [])
    {
      value := "";
      selStart := 0;
      selEnd := 0;
      this.language := language;
      chatInput := "";
      open := false;
      cursors := map[];
      outbox := [];
      output := OutputPane("", White, false);
      chat := [];
    }

    /** The socket reached the OPEN state. */
    method OnOpen()
      modifies this
      ensures State() == old(State()).(open := true)
    {
      open := true;
    }

    /** `socket.onclose`: nothing more can be sent, and the pane says so. */
    method OnClose()
      modifies this
      ensures State() == old(State()).(open := false,
                                       output := OutputPane("Connection lost. Please refresh the page.", Red, false))
    {
      open := false;
      output := OutputPane("Connection lost. Please refresh the page.", Red, false);
    }

    /** The Tab key: the selection is replaced by four spaces and the caret
        lands right after them. */
    method Tab()
      requires Valid()
      modifies this
      ensures Valid()
      ensures State() == old(State()).(value := Splice(old(value), old(selStart), old(selEnd), "    "),
                                       selStart := old(selStart) + 4, selEnd := old(selStart) + 4)
    {
      var start := selStart;
      var end := selEnd;
      value := value[..start] + "    " + value[end..];
      selStart := start + 4;
      selEnd := start + 4;
    }

    /** `sendCodeUpdate`, which the input listener schedules. */
    method SendCodeUpdate()
      modifies this
      ensures State() == old(State()).(outbox := old(outbox) + (if old(open) then [CodeUpdateEnvelope(old(value))] else []))
    {
      if open {
        outbox := outbox + [CodeUpdateEnvelope(value)];
      }
    }

    /** The Run button. */
    method RunClicked()
      modifies this
      ensures State() == old(State()).(
        outbox := old(outbox) + (if old(open) then [ExecuteEnvelope(old(value), old(language))] else []))
    {
      if open {
        outbox := outbox + [ExecuteEnvelope(value, language)];
      }
    }

    /** `sendCursorUpdate`, with the caret's measured pixel offset. */
    method SendCursorUpdate(coords: Coords)
      modifies this
      ensures State() == old(State()).(
        outbox := old(outbox) + (if old(open) then [CursorEnvelope(old(selStart), coords)] else []))
    {
      if open {
        outbox := outbox + [CursorEnvelope(selStart, coords)];
      }
    }

    /** `sendChatMessage`: the input is cleared only when a frame went out. */
    method SendChatMessage() returns (sent: bool)
      modifies this
      ensures sent <==> ChatToSend(old(chatInput), old(open)).Some?
      ensures State() == old(State()).(
        outbox := old(outbox) + (if sent then [ChatEnvelope(ChatToSend(old(chatInput), old(open)).value)] else []),
        chatInput := if sent then "" else old(chatInput))
    {
      var message := JsTrim(chatInput);
      sent := false;
      if message != [] && open {
        outbox := outbox + [ChatEnvelope(message)];
        chatInput := "";
        sent := true;
      }
    }

    /** `updateRemoteCursor`: the colour is computed only for a new cursor. */
    method UpdateRemoteCursor(username: string, position: Value)
      modifies this
      ensures State() == old(State()).(cursors := CursorsAfter(old(cursors), username, position, Hue(username)))
    {
      var cursor: RemoteCursor;
      if username in cursors {
        cursor := cursors[username];
      } else {
        var hue := StringToColor(username);
        cursor := RemoteCursor(hue, None);
        cursors := cursors[username := cursor];
      }
      if position.Pos? {
        cursors := cursors[username := cursor.(offset := Some(position.coords))];
      }
    }

    /** `socket.onmessage`, with `now` the local clock as
        `formatTimestamp` renders it. */
    method OnMessage(f: Frame, now: string)
      requires Valid()
      modifies this
      ensures Valid()
      ensures f.CodeUpdateFrame? ==>
        if f.code.Str? && f.code.s == old(value) then State() == old(State())
        else
          var text := JsText(f.code);
          State() == old(State()).(value := text, selStart := Clamp(old(selStart), |text|),
                                   selEnd := Clamp(old(selStart), |text|))
      ensures f.ExecutionResult? || f.ExecutionError? ==>
        State() == old(State()).(output := PaneAfter(old(output), f))
      ensures f.ChatFrame? ==>
        State() == old(State()).(chat := old(chat) + [ChatLine(f.username, JsText(f.message), Stamp(f.timestamp, now))])
      ensures f.CursorUpdateFrame? ==>
        State() == old(State()).(cursors := CursorsAfter(old(cursors), f.username, f.position, Hue(f.username)))
      ensures f.SystemMessage? ==> State() == old(State())
    {
      match f
      case CodeUpdateFrame(code) =>
        if !(code.Str? && code.s == value) {
          var caret := selStart;
          value := JsText(code);
          selStart := Clamp(caret, |value|);
          selEnd := selStart;
        }
      case ExecutionResult(_) =>
        output := PaneAfter(output, f);
      case ExecutionError(_) =>
        output := PaneAfter(output, f);
      case ChatFrame(message, username, timestamp) =>
        chat := chat + [ChatLine(username, JsText(message), Stamp(timestamp, now))];
      case CursorUpdateFrame(username, position) =>
        UpdateRemoteCursor(username, position);
      case SystemMessage(_, _) =>
    }
  }

  // ---------------------------------------------------------------------
  // Properties
  // ---------------------------------------------------------------------

  /** Tab keeps the text before and after the selection and puts exactly
      four spaces in its place; the new caret is inside the text. */
  lemma TabSplice(s: string, start: nat, end: nat)
    requires start <= end <= |s|
    ensures var r := Splice(s, start, end, "    ");
      && r[..start] == s[..start]
      && r[start..start + 4] == "    "
      && r[start + 4..] == s[end..]
      && start + 4 <= |r|
  {
  }

  /** At most one cursor per user: the first update adds the user's
      cursor, coloured by the user's name; later ones reuse it and keep its
      colour; nobody else's cursor changes. */
  lemma CursorGetOrCreate(cursors: map<string, RemoteCursor>, username: string, position: Value, hue: int)
    ensures var after := CursorsAfter(cursors, username, position, hue);
      && after.Keys == cursors.Keys + {username}
      && after[username].hue == (if username in cursors then cursors[username].hue else hue)
      && after[username].offset
           == (if position.Pos? then Some(position.coords)
               else if username in cursors then cursors[username].offset else None)
      && (forall u :: u in cursors && u != username ==> after[u] == cursors[u])
  {
  }

  /** Updating the same user's cursor twice leaves one entry, still of the
      colour it was created with. */
  lemma CursorReused(cursors: map<string, RemoteCursor>, username: string, p: Value, q: Value, hue: int, hue': int)
    ensures var twice := CursorsAfter(CursorsAfter(cursors, username, p, hue), username, q, hue');
      && twice.Keys == cursors.Keys + {username}
      && twice[username].hue == CursorsAfter(cursors, username, p, hue)[username].hue
  {
  }

  /** A result is shown with no raw line breaks, and unchanged when it has
      none; an error is shown in red after "Error: "; any other frame
      leaves the pane alone. */
  lemma OutputDispatch(pane: OutputPane, f: Frame)
    ensures f.ExecutionResult? ==>
      && PaneAfter(pane, f).isHtml && PaneAfter(pane, f).color == White
      && '\n' !in PaneAfter(pane, f).text
      && ('\n' !in f.output ==> PaneAfter(pane, f).text == f.output)
    ensures f.ExecutionError? ==>
      && !PaneAfter(pane, f).isHtml && PaneAfter(pane, f).color == Red
      && PaneAfter(pane, f).text[..7] == "Error: " && PaneAfter(pane, f).text[7..] == f.error
    ensures !(f.ExecutionResult? || f.ExecutionError?) ==> PaneAfter(pane, f) == pane
  {
    if f.ExecutionResult? && '\n' !in f.output {
      ReplaceNewlinesKeepsPlainText(f.output);
    }
  }
}
