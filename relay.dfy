/** The room relay of code_editor/consumers.py: the channel layer's groups,
    one consumer per connected socket, and the frames each consumer sends
    down its socket. A consumer is identified by its channel name; the
    frames a channel has been sent so far are its queue in `outbox`. The
    clock reading used for timestamps is a parameter `now`. */
module Relay {
  import opened Common
  import opened Protocol
  import opened Execution

  type Channel = string

  /** The part of Django's `scope["user"]` the consumer reads. */
  datatype User = User(username: string, isAuthenticated: bool)

  /** The name shown to the room: anonymous visitors are all "Anonymous". */
  function DisplayName(u: User): (name: string)
    ensures u.isAuthenticated ==> name == u.username
    ensures !u.isAuthenticated ==> name == "Anonymous"
  {
    if u.isAuthenticated then u.username else "Anonymous"
  }

  /** `f'code_{room_name}'`. */
  function GroupName(room: string): (g: string)
    ensures |g| == |room| + 5 && g[..5] == "code_" && g[5..] == room
  {
    "code_" + room
  }

  /** The events a consumer puts on the channel layer; each names the
      handler method the layer calls on every member of the group. */
  datatype Event =
    | BroadcastCursorPosition(username: string, position: Value, senderChannel: Channel)
    | BroadcastCodeUpdate(code: Value, senderChannel: Channel)
    | ChatMessage(message: Value, username: string, timestamp: string)
    | CodeUpdate(code: Value)
    | UserJoin(username: string)
    | UserLeave(username: string)

  /** The handler of consumer `self` for event `e`: the frame it sends, if
      any. The two broadcasts skip the consumer that sent them. */
  function Handle(self: Channel, e: Event, now: string): (f: Option<Frame>)
    ensures f.None? <==> (e.BroadcastCursorPosition? || e.BroadcastCodeUpdate?) && e.senderChannel == self
  {
    match e
    case BroadcastCursorPosition(name, position, sender) =>
      if sender != self then Some(CursorUpdateFrame(name, position)) else None
    case BroadcastCodeUpdate(code, sender) =>
      if sender != self then Some(CodeUpdateFrame(code)) else None
    case ChatMessage(message, name, timestamp) => Some(ChatFrame(message, name, timestamp))
    case CodeUpdate(code) => Some(CodeUpdateFrame(code))
    case UserJoin(name) => Some(SystemMessage(name + " joined the room", now))
    case UserLeave(name) => Some(SystemMessage(name + " left the room", now))
  }

  /** What `receive` does with one parsed frame: put an event on the
      group, answer the sender directly (together with the temporary files
      left by the execution), do nothing, or raise a `KeyError` for a
      missing field. */
  datatype Reaction =
    | Broadcast(event: Event)
    | Reply(frame: Frame, files: set<string>)
    | Ignore
    | Raise(missing: string)

  /** `receive` of the consumer on channel `self`, whose user is shown as
      `name`. */
  function Route(self: Channel, name: string, env: Envelope, now: string,
                 host: Host, files: set<string>): (r: Reaction)
  {
    match TypeOf(env)
    case None => Ignore
    case Some(t) =>
      if t == "cursor_update" then
        if "position" in env then Broadcast(BroadcastCursorPosition(name, env["position"], self))
        else Raise("position")
      else if t == "code_update" then
        if "code" in env then Broadcast(BroadcastCodeUpdate(env["code"], self))
        else Raise("code")
      else if t == "execute_code" then
        if "code" !in env then Raise("code")
        else
          var language := if "language" in env then env["language"] else Str("python");
          var x := ExecuteCode(env["code"], language, host, files);
          var frame := match x.result
            case Ok(output) => ExecutionResult(output)
            case Err(error) => ExecutionError(error);
          Reply(frame, x.tempFiles)
      else if t == "chat_message" then
        if "message" in env then Broadcast(ChatMessage(env["message"], name, now))
        else Raise("message")
      else Ignore
  }

  /** The frames sent to channel `c` so far. */
  function Queue(outbox: map<Channel, seq<Frame>>, c: Channel): seq<Frame> {
    if c in outbox then outbox[c] else []
  }

  /** `group_send`: every member's handler runs on the event and its frame,
      if any, joins that member's queue. */
  function Deliver(outbox: map<Channel, seq<Frame>>, members: seq<Channel>, e: Event, now: string)
    : map<Channel, seq<Frame>>
  {
    if members == [] then outbox
    else Post(Deliver(outbox, members[..|members| - 1], e, now), members[|members| - 1], e, now)
  }

  /** One member's handler runs on the event. */
  function Post(outbox: map<Channel, seq<Frame>>, c: Channel, e: Event, now: string): map<Channel, seq<Frame>> {
    match Handle(c, e, now)
    case None => outbox
    case Some(f) => outbox[c := Queue(outbox, c) + [f]]
  }

  /** The queues after `receive` on channel `self`, whose group has
      `members`, reacted with `r`. */
  function Apply(outbox: map<Channel, seq<Frame>>, members: seq<Channel>, self: Channel,
                 r: Reaction, now: string): map<Channel, seq<Frame>>
  {
    match r
    case Broadcast(e) => Deliver(outbox, members, e, now)
    case Reply(f, _) => outbox[self := Queue(outbox, self) + [f]]
    case Ignore => outbox
    case Raise(_) => outbox
  }

  /** The channels of a group; a group nobody joined has none. */
  function Members(groups: map<string, seq<Channel>>, g: string): seq<Channel> {
    if g in groups then groups[g] else []
  }

  /** `group_add`: a channel is in a group at most once. */
  function Join(members: seq<Channel>, c: Channel): (r: seq<Channel>)
    ensures forall x :: x in r <==> x in members || x == c
  {
    if c in members then members else members + [c]
  }

  /** `group_discard`. */
  function Leave(members: seq<Channel>, c: Channel): (r: seq<Channel>)
    ensures forall x :: x in r <==> x in members && x != c
    ensures Distinct(members) ==> Distinct(r)
  {
    if members == [] then []
    else
      var rest := Leave(members[..|members| - 1], c);
      var last := members[|members| - 1];
      if last == c then rest
      else
        assert Distinct(members) ==> last !in members[..|members| - 1] && Distinct(members[..|members| - 1]);
        rest + [last]
  }

  /** What a consumer remembers about its connection. */
  datatype Session = Session(group: string, username: string)

  /** The channel layer and the consumers connected to it. */
  class Relay {
    var groups: map<string, seq<Channel>>
    var sessions: map<Channel, Session>
    var outbox: map<Channel, seq<Frame>>
    var files: set<string>

    /** Groups hold each channel once, and every live consumer is in the
        group of its room. */
    ghost predicate Valid()
      reads this
    {
      && (forall g :: g in groups ==> Distinct(groups[g]))
      && (forall c :: c in sessions ==> sessions[c].group in groups && c in groups[sessions[c].group])
    }

    constructor()
      ensures Valid()
      ensures groups == map[] && sessions == map[] && outbox == map[] && files == {}
    {
      groups := map[];
      sessions := map[];
      outbox := map[];
      files := {};
    }

    method GroupAdd(g: string, c: Channel)
      requires Valid()
      modifies this
      ensures groups == old(groups)[g := Join(Members(old(groups), g), c)]
      ensures sessions == old(sessions) && outbox == old(outbox) && files == old(files)
      ensures forall h :: h in groups ==> Distinct(groups[h])
    {
      groups := groups[g := Join(Members(groups, g), c)];
    }

    method GroupDiscard(g: string, c: Channel)
      requires Valid()
      modifies this
      ensures groups == (if g in old(groups) then old(groups)[g := Leave(old(groups)[g], c)] else old(groups))
      ensures sessions == old(sessions) && outbox == old(outbox) && files == old(files)
      ensures forall h :: h in groups ==> Distinct(groups[h])
    {
      if g in groups {
        groups := groups[g := Leave(groups[g], c)];
      }
    }

    /** `group_send`: the event is handed to each member in turn. */
    method GroupSend(g: string, e: Event, now: string)
      modifies this
      ensures outbox == Deliver(old(outbox), Members(old(groups), g), e, now)
      ensures groups == old(groups) && sessions == old(sessions) && files == old(files)
    {
      var members := Members(groups, g);
      var i := 0;
      while i < |members|
        invariant 0 <= i <= |members|
        invariant outbox == Deliver(old(outbox), members[..i], e, now)
        invariant groups == old(groups) && sessions == old(sessions) && files == old(files)
      {
        var c := members[i];
        assert members[..i + 1][..i] == members[..i];
        var frame := Handle(c, e, now);
        if frame.Some? {
          outbox := outbox[c := Queue(outbox, c) + [frame.value]];
        }
        assert outbox == Post(Deliver(old(outbox), members[..i], e, now), c, e, now);
        i := i + 1;
      }
      assert members[..|members|] == members;
    }

    /** `connect`: join the room's group, then tell the group (the newcomer
        included) who joined. */
    method Connect(c: Channel, room: string, user: User, now: string)
      requires Valid()
      modifies this
      ensures Valid()
      ensures groups == old(groups)[GroupName(room) := Join(Members(old(groups), GroupName(room)), c)]
      ensures sessions == old(sessions)[c := Session(GroupName(room), DisplayName(user))]
      ensures outbox == Deliver(old(outbox), groups[GroupName(room)], UserJoin(DisplayName(user)), now)
      ensures files == old(files)
    {
      var g := GroupName(room);
      GroupAdd(g, c);
      sessions := sessions[c := Session(g, DisplayName(user))];
      GroupSend(g, UserJoin(DisplayName(user)), now);
    }

    /** `disconnect`: tell the group (the leaver still included) who left,
        then leave it. A consumer whose `connect` failed has no group; the
        resulting error is logged and nothing changes. */
    method Disconnect(c: Channel, now: string)
      requires Valid()
      modifies this
      ensures Valid()
      ensures c !in old(sessions) ==>
        groups == old(groups) && sessions == old(sessions) && outbox == old(outbox)
      ensures c in old(sessions) ==>
        var s := old(sessions)[c];
        && groups == old(groups)[s.group := Leave(old(groups)[s.group], c)]
        && sessions == old(sessions) - {c}
        && outbox == Deliver(old(outbox), old(groups)[s.group], UserLeave(s.username), now)
      ensures files == old(files)
    {
      if c in sessions {
        var s := sessions[c];
        GroupSend(s.group, UserLeave(s.username), now);
        GroupDiscard(s.group, c);
        sessions := sessions - {c};
      }
    }

    /** `receive` of the consumer on channel `c`. Returns the name of the
        missing field when the frame lacked one and `receive` raised. */
    method Receive(c: Channel, env: Envelope, now: string, host: Host) returns (raised: Option<string>)
      requires Valid() && c in sessions
      modifies this
      ensures Valid()
      ensures var r := Route(c, old(sessions)[c].username, env, now, host, old(files));
        && outbox == Apply(old(outbox), Members(old(groups), old(sessions)[c].group), c, r, now)
        && files == (if r.Reply? then r.files else old(files))
        && raised == (if r.Raise? then Some(r.missing) else None)
      ensures groups == old(groups) && sessions == old(sessions)
    {
      var s := sessions[c];
      var r := Route(c, s.username, env, now, host, files);
      raised := None;
      match r
      case Broadcast(e) =>
        GroupSend(s.group, e, now);
      case Reply(f, fs) =>
        outbox := outbox[c := Queue(outbox, c) + [f]];
        files := fs;
      case Ignore =>
      case Raise(k) =>
        raised := Some(k);
    }
  }

  // ---------------------------------------------------------------------
  // Properties
  // ---------------------------------------------------------------------

  /** Every room has its own group. */
  lemma GroupNameInjective(a: string, b: string)
    requires GroupName(a) == GroupName(b)
    ensures a == b
  {
    assert a == GroupName(a)[5..];
  }

  /** After `group_send` each member's queue has grown by exactly the frame
      its handler produced, and every other queue is as before. */
  lemma {:induction false} DeliverAt(outbox: map<Channel, seq<Frame>>, members: seq<Channel>,
                                     e: Event, now: string, c: Channel)
    requires Distinct(members)
    ensures Queue(Deliver(outbox, members, e, now), c)
      == Queue(outbox, c) + (if c in members && Handle(c, e, now).Some? then [Handle(c, e, now).value] else [])
  {
    if members != [] {
      var prefix := members[..|members| - 1];
      var last := members[|members| - 1];
      var before := Deliver(outbox, prefix, e, now);
      assert Distinct(prefix);
      DeliverAt(outbox, prefix, e, now, c);
      assert c in members <==> c in prefix || c == last by {
        assert members == prefix + [last];
      }
      PostAt(before, last, e, now, c);
      if c == last {
        assert c !in prefix;
      }
    }
  }

  lemma PostAt(outbox: map<Channel, seq<Frame>>, last: Channel, e: Event, now: string, c: Channel)
    ensures Queue(Post(outbox, last, e, now), c)
      == Queue(outbox, c) + (if c == last && Handle(c, e, now).Some? then [Handle(c, e, now).value] else [])
  {
  }

  /** A code edit reaches every other member of the room, unchanged, and
      is not echoed to its author. */
  lemma CodeUpdateReachesOthers(outbox: map<Channel, seq<Frame>>, members: seq<Channel>, self: Channel,
                                name: string, code: string, now: string, host: Host,
                                files: set<string>, c: Channel)
    requires Distinct(members)
    ensures var r := Route(self, name, CodeUpdateEnvelope(code), now, host, files);
      Queue(Apply(outbox, members, self, r, now), c)
        == Queue(outbox, c) + (if c in members && c != self then [CodeUpdateFrame(Str(code))] else [])
  {
    var env := CodeUpdateEnvelope(code);
    assert TypeOf(env) == Some("code_update");
    DeliverAt(outbox, members, BroadcastCodeUpdate(Str(code), self), now, c);
  }

  /** A cursor move reaches every other member with the mover's name. */
  lemma CursorReachesOthers(outbox: map<Channel, seq<Frame>>, members: seq<Channel>, self: Channel,
                            name: string, index: int, coords: Coords, now: string, host: Host,
                            files: set<string>, c: Channel)
    requires Distinct(members)
    ensures var r := Route(self, name, CursorEnvelope(index, coords), now, host, files);
      Queue(Apply(outbox, members, self, r, now), c)
        == Queue(outbox, c)
           + (if c in members && c != self then [CursorUpdateFrame(name, Pos(index, coords))] else [])
  {
    var env := CursorEnvelope(index, coords);
    assert TypeOf(env) == Some("cursor_update");
    DeliverAt(outbox, members, BroadcastCursorPosition(name, Pos(index, coords), self), now, c);
  }

  /** A chat line reaches every member, its author included, stamped with
      the author's name and the server's time. */
  lemma ChatReachesEveryone(outbox: map<Channel, seq<Frame>>, members: seq<Channel>, self: Channel,
                            name: string, message: string, now: string, host: Host,
                            files: set<string>, c: Channel)
    requires Distinct(members)
    ensures var r := Route(self, name, ChatEnvelope(message), now, host, files);
      Queue(Apply(outbox, members, self, r, now), c)
        == Queue(outbox, c) + (if c in members then [ChatFrame(Str(message), name, now)] else [])
  {
    var env := ChatEnvelope(message);
    assert TypeOf(env) == Some("chat_message");
    DeliverAt(outbox, members, ChatMessage(Str(message), name, now), now, c);
  }

  /** A run request is answered to its sender only, with the program's
      output, and leaves no temporary file behind. */
  lemma ExecutionRepliesToSender(outbox: map<Channel, seq<Frame>>, members: seq<Channel>, self: Channel,
                                 name: string, code: string, language: string, now: string,
                                 host: Host, files: set<string>, c: Channel)
    requires FreshStem(host.tempStem, files)
    ensures var r := Route(self, name, ExecuteEnvelope(code, language), now, host, files);
      var path := host.tempStem + FileExtension(language);
      && r.Reply? && r.files == files
      && Queue(Apply(outbox, members, self, r, now), c)
           == Queue(outbox, c)
              + (if c == self then [ExecutionResult(OutputOf(host.run(ExecutionCommand(language, path))))] else [])
  {
    var env := ExecuteEnvelope(code, language);
    assert TypeOf(env) == Some("execute_code");
    assert env["code"] == Str(code) && env["language"] == Str(language);
    ExecutionRunsTheCommand(code, language, host, files);
    ExecuteCodeRemovesTempFile(Str(code), Str(language), host, files);
  }

  /** A run request without a language runs as Python. */
  lemma ExecutionDefaultsToPython(self: Channel, name: string, code: string, now: string,
                                  host: Host, files: set<string>)
    ensures var env := map["type" := Str("execute_code"), "code" := Str(code)];
      Route(self, name, env, now, host, files).frame
        == ExecutionResult(OutputOf(host.run(["python3", host.tempStem + ".py"])))
  {
    var env := map["type" := Str("execute_code"), "code" := Str(code)];
    assert TypeOf(env) == Some("execute_code");
    assert "language" !in env;
    ExecutionRunsTheCommand(code, "python", host, files);
  }

  /** A frame of a known kind without its field raises, and a frame of any
      other kind is ignored; either way no one is sent anything. */
  lemma BadFramesSendNothing(outbox: map<Channel, seq<Frame>>, members: seq<Channel>, self: Channel,
                             name: string, env: Envelope, now: string, host: Host, files: set<string>)
    ensures var r := Route(self, name, env, now, host, files);
      && (r.Raise? <==>
            (TypeOf(env).Some? &&
              (|| (TypeOf(env).value == "cursor_update" && "position" !in env)
               || (TypeOf(env).value in {"code_update", "execute_code"} && "code" !in env)
               || (TypeOf(env).value == "chat_message" && "message" !in env))))
      && (r.Ignore? <==>
            (TypeOf(env).None?
             || TypeOf(env).value !in {"cursor_update", "code_update", "execute_code", "chat_message"}))
      && (r.Raise? || r.Ignore? ==> Apply(outbox, members, self, r, now) == outbox)
  {
  }

  /** Everyone in the room, the newcomer included, is told who joined. */
  lemma JoinReachesEveryone(outbox: map<Channel, seq<Frame>>, members: seq<Channel>, name: string,
                            now: string, c: Channel)
    requires Distinct(members)
    ensures Queue(Deliver(outbox, members, UserJoin(name), now), c)
      == Queue(outbox, c) + (if c in members then [SystemMessage(name + " joined the room", now)] else [])
  {
    DeliverAt(outbox, members, UserJoin(name), now, c);
  }

  /** Everyone still in the room when the notice goes out, the leaver
      included, is told who left. */
  lemma LeaveReachesEveryone(outbox: map<Channel, seq<Frame>>, members: seq<Channel>, name: string,
                             now: string, c: Channel)
    requires Distinct(members)
    ensures Queue(Deliver(outbox, members, UserLeave(name), now), c)
      == Queue(outbox, c) + (if c in members then [SystemMessage(name + " left the room", now)] else [])
  {
    DeliverAt(outbox, members, UserLeave(name), now, c);
  }
}
