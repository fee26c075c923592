/** One JSON-RPC connection: which attachments it holds, and that it leaves none behind. */
module Connection {
  import opened Options

  /** What the method of a request does with attachments. `Plain` uses none. */
  datatype Method = Attach | Detach | Use(startsTurn: bool) | Plain

  datatype Request = Request(versioned: bool, hasId: bool, kind: Method, requested: Option<nat>, hasCwd: bool)

  /** How the rest of the server and the peer answer while a request is handled. */
  datatype Luck = Luck(attaches: bool, resolves: bool, succeeds: bool, accepts: bool, sends: bool, streams: bool)

  datatype Frame = Ignored | CloseFrame | Garbage(sends: bool) | Text(request: Request, luck: Luck)

  datatype Response = Success(attachment: Option<nat>, accepted: bool) | Failure

  /** The connection, the attachments that are live on the server, and those this connection made. */
  datatype Conn = Conn(
    live: set<nat>,
    issued: nat,
    made: set<nat>,
    current: Option<nat>,
    streams: set<nat>,
    open: bool)

  datatype Handled = Handled(conn: Conn, temporary: Option<nat>, result: Response)

  function ReleaseId(c: Conn, id: nat): (r: Conn) { c.(live := c.live - {id}) }

  function AttachNew(c: Conn): (r: Conn) {
    c.(live := c.live + {c.issued}, made := c.made + {c.issued}, issued := c.issued + 1)
  }

  /** The attachment a request means: the connection's own, which an explicit one must match. */
  predicate Mismatched(current: Option<nat>, requested: Option<nat>) {
    current.Some? && requested.Some? && current != requested
  }

  function Meant(current: Option<nat>, requested: Option<nat>): (r: Option<nat>) {
    if current.Some? then current else requested
  }

  function HandleUse(c: Conn, r: Request, luck: Luck): (h: Handled) {
    if Mismatched(c.current, r.requested) then Handled(c, None, Failure)
    else
      var meant := Meant(c.current, r.requested);
      if meant.Some? then
        Handled(c, None, if luck.resolves && meant.value in c.live && luck.succeeds then Success(meant, luck.accepts)
          else Failure)
      else if !r.hasCwd || !luck.attaches then Handled(c, None, Failure)
      else Handled(AttachNew(c), Some(c.issued), if luck.resolves && luck.succeeds
        then Success(Some(c.issued), luck.accepts) else Failure)
  }

  function HandleMethod(c: Conn, r: Request, luck: Luck): (h: Handled) {
    match r.kind
    case Attach =>
      if r.hasCwd && luck.attaches then Handled(AttachNew(c), None, Success(Some(c.issued), false))
        else Handled(c, None, Failure)
    case Detach =>
      var meant := Meant(c.current, r.requested);
      if Mismatched(c.current, r.requested) || meant.None? || meant.value !in c.live then Handled(c, None, Failure)
      else Handled(ReleaseId(c, meant.value), None, Success(meant, false))
    case Use(_) => HandleUse(c, r, luck)
    case Plain => Handled(c, None, if luck.succeeds then Success(None, false) else Failure)
  }

  /** A request that is answered without being handled. */
  predicate Unhandled(r: Request) {
    !r.versioned || (!r.hasId && (r.kind.Attach? || r.kind == Use(true)))
  }

  function Dispatch(c: Conn, r: Request, luck: Luck): (h: Handled) {
    if Unhandled(r) then Handled(c, None, Failure) else HandleMethod(c, r, luck)
  }

  predicate NotificationDetachesCurrent(r: Request, current: Option<nat>) {
    !r.hasId && r.kind.Detach? && current.Some? && (r.requested.None? || r.requested == current)
  }

  function UpdateAttachment(c: Conn, kind: Method, response: Response): (r: Conn) {
    if response.Failure? || response.attachment.None? then c
    else if kind.Detach? then (if c.current == response.attachment then c.(streams := {}, current := None) else c)
    else if c.current.Some? && c.current != response.attachment then
      ReleaseId(c, c.current.value).(streams := {}, current := response.attachment)
    else c.(current := response.attachment)
  }

  /** Detaches the attachment made for one request, unless the response hands it over. */
  function ReleaseUnretained(c: Conn, temporary: Option<nat>, response: Option<Response>): (r: Conn) {
    if temporary.None? then c
    else if response.Some? && response.value.Success? && response.value.attachment == temporary then c
    else ReleaseId(c, temporary.value)
  }

  function Close(c: Conn): (r: Conn) {
    (if c.current.Some? then ReleaseId(c, c.current.value) else c).(streams := {}, current := None, open := false)
  }

  function StartStream(c: Conn, response: Response, luck: Luck): (r: Conn) {
    if response.Success? && response.accepted && response.attachment.Some? && luck.streams
      && response.attachment.value in c.live
    then c.(streams := c.streams + {response.attachment.value}) else c
  }

  function Answer(h: Handled, r: Request, luck: Luck): (c: Conn) {
    var released := ReleaseUnretained(UpdateAttachment(h.conn, r.kind, h.result), h.temporary, Some(h.result));
    if luck.sends then StartStream(released, h.result, luck) else Close(released)
  }

  function HandleText(c: Conn, r: Request, luck: Luck): (q: Conn) {
    var h := Dispatch(c, r, luck);
    if r.hasId then Answer(h, r, luck)
    else
      var released := ReleaseUnretained(h.conn, h.temporary, None);
      if NotificationDetachesCurrent(r, c.current) then released.(streams := {}, current := None) else released
  }

  function HandleFrame(c: Conn, f: Frame): (q: Conn) {
    match f
    case Ignored => c
    case CloseFrame => Close(c)
    case Garbage(sends) => if sends then c else Close(c)
    case Text(r, luck) => HandleText(c, r, luck)
  }

  // ---------------------------------------------------------------- runs

  /** A frame of this connection, or what others do meanwhile: attach, revoke or expire an
      attachment, or let a stream of this connection finish. */
  datatype Action = Receive(frame: Frame) | AttachElsewhere | Revoke(id: nat) | StreamEnds(id: nat)

  function Apply(c: Conn, a: Action): (q: Conn) {
    match a
    case Receive(f) => if c.open then HandleFrame(c, f) else c
    case AttachElsewhere => c.(live := c.live + {c.issued}, issued := c.issued + 1)
    case Revoke(id) => ReleaseId(c, id)
    case StreamEnds(id) => c.(streams := c.streams - {id})
  }

  function After(c: Conn, run: seq<Action>): (q: Conn)
    decreases |run|
  {
    if run == [] then c else After(Apply(c, run[0]), run[1..])
  }

  function Opened(live: set<nat>, issued: nat): (c: Conn) { Conn(live, issued, {}, None, {}, true) }

  // ---------------------------------------------------------------- nothing is left behind

  function Held(c: Conn): (s: set<nat>) { if c.current.Some? then {c.current.value} else {} }

  ghost predicate Numbered(c: Conn) {
    (forall id <- c.live :: id < c.issued) && (forall id <- c.made :: id < c.issued)
      && (c.current.Some? ==> c.current.value < c.issued)
  }

  /** Whatever this connection made and is still live, apart from `lost`, it holds; its streams run
      on what it holds. */
  ghost predicate LeaksOnly(c: Conn, lost: set<nat>) {
    && (forall id <- c.made | id in c.live :: Some(id) == c.current || id in lost)
    && (forall id <- c.streams :: Some(id) == c.current)
    && (!c.open ==> c.current.None?)
  }

  ghost predicate NoLeak(c: Conn) { LeaksOnly(c, {}) }

  /** A notification that drops the connection's own attachment without detaching it: the wrong
      protocol version stops the request from being handled, not from being obeyed. */
  predicate Forgets(c: Conn, a: Action) {
    && c.open && a.Receive? && a.frame.Text?
    && !a.frame.request.versioned && NotificationDetachesCurrent(a.frame.request, c.current)
    && c.current.value in c.made && c.current.value in c.live
  }

  lemma HandledMakes(c: Conn, lost: set<nat>, r: Request, luck: Luck)
    requires Numbered(c) && LeaksOnly(c, lost)
    ensures
      var h := Dispatch(c, r, luck);
      && Numbered(h.conn) && h.conn.current == c.current && h.conn.streams == c.streams && h.conn.open == c.open
      && (h.temporary.Some? ==> h.temporary.value == c.issued && c.current.None?)
      && (forall id <- h.conn.made | id in h.conn.live ::
            || Some(id) == c.current || id in lost || Some(id) == h.temporary
            || (r.kind.Attach? && h.result.Success? && Some(id) == h.result.attachment))
      && (r.kind.Attach? && h.result.Success? ==> h.result.attachment.Some?)
  {
  }

  lemma AnswerKeeps(c: Conn, lost: set<nat>, r: Request, luck: Luck)
    requires Numbered(c) && LeaksOnly(c, lost) && c.open && r.hasId
    ensures Numbered(HandleText(c, r, luck)) && LeaksOnly(HandleText(c, r, luck), lost)
  {
    HandledMakes(c, lost, r, luck);
  }

  lemma NotificationKeeps(c: Conn, lost: set<nat>, r: Request, luck: Luck)
    requires Numbered(c) && LeaksOnly(c, lost) && c.open && !r.hasId
    ensures Numbered(HandleText(c, r, luck))
    ensures LeaksOnly(HandleText(c, r, luck), lost + if Forgets(c, Receive(Text(r, luck))) then Held(c) else {})
  {
    HandledMakes(c, lost, r, luck);
  }

  lemma LeakStep(c: Conn, lost: set<nat>, a: Action)
    requires Numbered(c) && LeaksOnly(c, lost)
    ensures Numbered(Apply(c, a))
    ensures LeaksOnly(Apply(c, a), lost + if Forgets(c, a) then Held(c) else {})
  {
    if a.Receive? && c.open && a.frame.Text? {
      var r, luck := a.frame.request, a.frame.luck;
      if r.hasId { AnswerKeeps(c, lost, r, luck); } else { NotificationKeeps(c, lost, r, luck); }
    }
  }

  /** One action keeps the connection free of leaks exactly when it is not such a notification. */
  lemma StepKeeps(c: Conn, a: Action)
    requires Numbered(c) && NoLeak(c)
    ensures Numbered(Apply(c, a))
    ensures NoLeak(Apply(c, a)) <==> !Forgets(c, a)
  {
    LeakStep(c, {}, a);
  }

  ghost predicate NeverForgets(c: Conn, run: seq<Action>)
    decreases |run|
  {
    run == [] || (!Forgets(c, run[0]) && NeverForgets(Apply(c, run[0]), run[1..]))
  }

  lemma {:induction false} RunKeeps(c: Conn, run: seq<Action>)
    requires Numbered(c) && NoLeak(c) && NeverForgets(c, run)
    ensures Numbered(After(c, run)) && NoLeak(After(c, run))
    decreases |run|
  {
    if run != [] {
      StepKeeps(c, run[0]);
      RunKeeps(Apply(c, run[0]), run[1..]);
    }
  }

  /** At every moment of a connection all it made and did not hand back is its one current attachment,
      and all its streams run on that; once it is closed, nothing it made is live and no stream runs. */
  lemma ConnectionLeavesNothing(live: set<nat>, issued: nat, run: seq<Action>)
    requires forall id <- live :: id < issued
    requires NeverForgets(Opened(live, issued), run)
    ensures NoLeak(After(Opened(live, issued), run))
    ensures !After(Opened(live, issued), run).open ==>
      var c := After(Opened(live, issued), run); c.made * c.live == {} && c.streams == {}
    ensures var c := Close(After(Opened(live, issued), run)); c.made * c.live == {} && c.streams == {}
  {
    RunKeeps(Opened(live, issued), run);
  }

  // ---------------------------------------------------------------- nothing else is touched

  /** A frame ends no live attachment but the one the connection holds, or, when it holds none, the one
      the request names. */
  lemma OthersAreLeftAlone(c: Conn, f: Frame, id: nat)
    requires Numbered(c) && id in c.live && Some(id) != c.current
    requires f.Text? && c.current.None? ==> f.request.requested != Some(id)
    ensures id in HandleFrame(c, f).live
  {
  }

  // ---------------------------------------------------------------- every run, even a forgetful one

  /** What has been forgotten by the end of a run. */
  ghost function Forgotten(c: Conn, run: seq<Action>): (s: set<nat>)
    decreases |run|
  {
    if run == [] then {}
    else (if Forgets(c, run[0]) then Held(c) else {}) + Forgotten(Apply(c, run[0]), run[1..])
  }

  /** Over any run, only what such notifications dropped can be left behind. */
  lemma {:induction false} LeaksOnlyForgotten(c: Conn, lost: set<nat>, run: seq<Action>)
    requires Numbered(c) && LeaksOnly(c, lost)
    ensures LeaksOnly(After(c, run), lost + Forgotten(c, run))
    decreases |run|
  {
    if run != [] {
      var q := Apply(c, run[0]);
      var more := lost + if Forgets(c, run[0]) then Held(c) else {};
      LeakStep(c, lost, run[0]);
      LeaksOnlyForgotten(q, more, run[1..]);
      assert more + Forgotten(q, run[1..]) == lost + Forgotten(c, run);
    }
  }

  /** The condition can fail: a connection that attaches, then sends the detach notification under
      another version, leaves its attachment live. */
  lemma MisversionedDetachLeaks(luck: Luck)
    requires luck.attaches && luck.sends
    ensures
      var attach := Receive(Text(Request(true, true, Attach, None, true), luck));
      var detach := Receive(Text(Request(false, false, Detach, None, false), luck));
      var c := After(Opened({}, 0), [attach, detach]);
      Forgets(After(Opened({}, 0), [attach]), detach) && c.current.None? && 0 in Close(c).live && 0 in c.made
  {
    var attach := Receive(Text(Request(true, true, Attach, None, true), luck));
    var detach := Receive(Text(Request(false, false, Detach, None, false), luck));
    var c := Apply(Opened({}, 0), attach);
    assert [attach, detach][1..] == [detach] && [attach][1..] == [];
    assert After(c, [detach]) == After(Apply(c, detach), []);
  }

  // ---------------------------------------------------------------- a session over its frames

  /** The session reads frames until one closes it or there are none, and then cleans up. */
  function Served(c: Conn, frames: seq<Frame>): (q: Conn)
    decreases |frames|
  {
    if frames == [] then Close(c)
    else
      var next := HandleFrame(c, frames[0]);
      if next.open then Served(next, frames[1..]) else next
  }

  ghost predicate FramesNeverForget(c: Conn, frames: seq<Frame>)
    decreases |frames|
  {
    frames == [] || (!Forgets(c, Receive(frames[0])) && FramesNeverForget(HandleFrame(c, frames[0]), frames[1..]))
  }

  /** A session that has ended holds nothing, and nothing it made is live. */
  lemma {:induction false} ServedLeavesNothing(c: Conn, frames: seq<Frame>)
    requires Numbered(c) && NoLeak(c) && c.open && FramesNeverForget(c, frames)
    ensures var q := Served(c, frames); !q.open && q.made * q.live == {} && q.streams == {} && q.current.None?
    decreases |frames|
  {
    if frames != [] {
      StepKeeps(c, Receive(frames[0]));
      if HandleFrame(c, frames[0]).open { ServedLeavesNothing(HandleFrame(c, frames[0]), frames[1..]); }
    }
  }

  /** What the sessions of a server share. */
  class Server {
    var live: set<nat>
    var issued: nat

    constructor ()
      ensures live == {} && issued == 0
    {
      live, issued := {}, 0;
    }

    method AttachCwd() returns (id: nat)
      modifies this
      ensures id == old(issued) && issued == old(issued) + 1 && live == old(live) + {id}
    {
      id := issued;
      issued := issued + 1;
      live := live + {id};
    }

    method DetachAttachment(id: nat) returns (found: bool)
      modifies `live
      ensures found == (id in old(live)) && live == old(live) - {id}
    {
      found := id in live;
      live := live - {id};
    }
  }

  class Session {
    const server: Server
    ghost var made: set<nat>
    var attachmentId: Option<nat>
    var streamTasks: set<nat>
    var open: bool

    constructor (server: Server)
      ensures this.server == server && Value() == Opened(server.live, server.issued)
    {
      this.server, made, attachmentId, streamTasks, open := server, {}, None, {}, true;
    }

    ghost function Value(): (c: Conn)
      reads this, server
    {
      Conn(server.live, server.issued, made, attachmentId, streamTasks, open)
    }

    method AttachOwn() returns (id: nat)
      modifies server, `made
      ensures id == old(server.issued) && Value() == AttachNew(old(Value()))
    {
      id := server.AttachCwd();
      made := made + {id};
    }

    method UseAttachment(r: Request, luck: Luck) returns (temporary: Option<nat>, result: Response)
      modifies server, `made
      ensures Handled(Value(), temporary, result) == HandleUse(old(Value()), r, luck)
    {
      temporary, result := None, Failure;
      if Mismatched(attachmentId, r.requested) { return; }
      var meant := Meant(attachmentId, r.requested);
      if meant.Some? {
        if luck.resolves && meant.value in server.live && luck.succeeds { result := Success(meant, luck.accepts); }
        return;
      }
      if !r.hasCwd || !luck.attaches { return; }
      var id := AttachOwn();
      temporary := Some(id);
      if luck.resolves && luck.succeeds { result := Success(Some(id), luck.accepts); }
    }

    method DispatchRequest(r: Request, luck: Luck) returns (temporary: Option<nat>, result: Response)
      modifies server, `made
      ensures Handled(Value(), temporary, result) == Dispatch(old(Value()), r, luck)
    {
      temporary, result := None, Failure;
      if Unhandled(r) { return; }
      match r.kind {
        case Attach =>
          if r.hasCwd && luck.attaches {
            var id := AttachOwn();
            result := Success(Some(id), false);
          }
        case Detach =>
          var meant := Meant(attachmentId, r.requested);
          if Mismatched(attachmentId, r.requested) || meant.None? { return; }
          var found := server.DetachAttachment(meant.value);
          if found { result := Success(meant, false); }
        case Use(_) => temporary, result := UseAttachment(r, luck);
        case Plain => if luck.succeeds { result := Success(None, false); }
      }
    }

    method UpdateConnectionAttachment(kind: Method, response: Response)
      modifies server, `attachmentId, `streamTasks
      ensures Value() == UpdateAttachment(old(Value()), kind, response)
    {
      if response.Failure? || response.attachment.None? { return; }
      if kind.Detach? {
        if attachmentId == response.attachment { streamTasks, attachmentId := {}, None; }
        return;
      }
      if attachmentId.Some? && attachmentId != response.attachment {
        streamTasks := {};
        var _ := server.DetachAttachment(attachmentId.value);
      }
      attachmentId := response.attachment;
    }

    method ReleaseTemporary(temporary: Option<nat>, response: Option<Response>)
      modifies server
      ensures Value() == ReleaseUnretained(old(Value()), temporary, response)
    {
      if temporary.None? { return; }
      var returned := if response.Some? && response.value.Success? then response.value.attachment else None;
      if returned != temporary { var _ := server.DetachAttachment(temporary.value); }
    }

    method Finish()
      modifies server, `attachmentId, `streamTasks, `open
      ensures Value() == Close(old(Value()))
    {
      streamTasks := {};
      if attachmentId.Some? { var _ := server.DetachAttachment(attachmentId.value); }
      attachmentId, open := None, false;
    }

    /** One text frame. */
    method ReceiveText(r: Request, luck: Luck)
      modifies server, this
      ensures Value() == HandleText(old(Value()), r, luck)
    {
      var detaches := NotificationDetachesCurrent(r, attachmentId);
      var temporary, response := DispatchRequest(r, luck);
      if !r.hasId {
        ReleaseTemporary(temporary, None);
        if detaches { streamTasks, attachmentId := {}, None; }
        return;
      }
      UpdateConnectionAttachment(r.kind, response);
      ReleaseTemporary(temporary, Some(response));
      if !luck.sends {
        Finish();
        return;
      }
      if response.Success? && response.accepted && response.attachment.Some? && luck.streams
        && response.attachment.value in server.live {
        streamTasks := streamTasks + {response.attachment.value};
      }
    }

    /** The whole session. */
    method WebSocketSession(frames: seq<Frame>)
      requires open
      modifies server, this
      ensures Value() == Served(old(Value()), frames)
    {
      var i := 0;
      while i < |frames|
        invariant 0 <= i <= |frames| && open
        invariant Served(Value(), frames[i..]) == Served(old(Value()), frames)
      {
        assert frames[i..][1..] == frames[i + 1..];
        match frames[i] {
          case Ignored =>
          case CloseFrame => break;
          case Garbage(sends) => if !sends { break; }
          case Text(r, luck) =>
            ReceiveText(r, luck);
            if !open { return; }
        }
        i := i + 1;
      }
      Finish();
    }
  }
}
