/** Streams of one turn: the event stream a server sends, how a client resumes it, and the handle
    that waits for the turn. */
module AgentStream {
  import opened Options
  import opened AgentEvents
  import opened Projector
  import opened ProjectionLaws

  /** What a subscription delivers: a fact, or an error. */
  datatype Delivery = Fact(event: RuntimeEvent) | Broken

  datatype Frame = Agent(event: StreamEvent) | ErrorFrame

  /** A stream event with the sequence number of the fact it tells. */
  datatype Told = Told(at: nat, event: StreamEvent)

  function Facts(log: seq<RuntimeEvent>): (ds: seq<Delivery>) { seq(|log|, i requires 0 <= i < |log| => Fact(log[i])) }

  function Events(told: seq<Told>): (r: seq<StreamEvent>) { seq(|told|, i requires 0 <= i < |told| => told[i].event) }

  function Frames(told: seq<Told>): (r: seq<Frame>) { seq(|told|, i requires 0 <= i < |told| => Agent(told[i].event)) }

  /** Everything a turn has to tell: up to and including its end. */
  function Live(p: Projector, log: seq<RuntimeEvent>): (told: seq<Told>)
    decreases |log|
  {
    if log == [] then []
    else
      var (q, event) := Project(p, log[0]);
      if event.None? then Live(q, log[1..])
      else [Told(log[0].sequenceNo, event.value)] + if q.finished then [] else Live(q, log[1..])
  }

  /** What is newer than the cursor. */
  function Newer(told: seq<Told>, cursor: Option<nat>): (r: seq<Told>) {
    if told == [] then []
    else (if cursor.Some? && told[0].at <= cursor.value then [] else [told[0]]) + Newer(told[1..], cursor)
  }

  // ---------------------------------------------------------------- the server's loop

  /** What is sent of an event, and whether that ends the stream: the client may have it already, or it may be
      one of the events that do not serialize. */
  function Tell(t: Told, cursor: Option<nat>, refused: set<StreamEvent>): (r: (seq<Frame>, bool)) {
    if cursor.Some? && t.at <= cursor.value then ([], false)
    else if t.event in refused then ([ErrorFrame], true)
    else ([Agent(t.event)], false)
  }

  datatype Handled = Handled(projector: Projector, frames: seq<Frame>, stops: bool)

  /** What the loop does with one delivery. */
  function Handle(p: Projector, cursor: Option<nat>, refused: set<StreamEvent>, d: Delivery): (h: Handled) {
    if d.Broken? then Handled(p, [ErrorFrame], true)
    else
      var (q, event) := Project(p, d.event);
      if event.None? then Handled(q, [], false)
      else
        var (frames, fails) := Tell(Told(d.event.sequenceNo, event.value), cursor, refused);
        Handled(q, frames, fails || q.finished)
  }

  /** What the loop sends after the thread marker. */
  function Serve(p: Projector, cursor: Option<nat>, refused: set<StreamEvent>, ds: seq<Delivery>): (r: seq<Frame>)
    decreases |ds|
  {
    if ds == [] then []
    else
      var h := Handle(p, cursor, refused, ds[0]);
      h.frames + if h.stops then [] else Serve(h.projector, cursor, refused, ds[1..])
  }

  /** One turn of the loop. */
  method Forward(
    projector: AgentEventProjector, cursor: Option<nat>, refused: set<StreamEvent>, delivery: Delivery)
    returns (frames: seq<Frame>, stops: bool)
    modifies projector
    ensures Handle(old(projector.Value()), cursor, refused, delivery) == Handled(projector.Value(), frames, stops)
  {
    if delivery.Broken? { return [ErrorFrame], true; }
    var projected := projector.ProjectEvent(delivery.event);
    if projected.None? { return [], false; }
    var terminal := projector.finished;
    if cursor.Some? && delivery.event.sequenceNo <= cursor.value { return [], terminal; }
    if projected.value in refused { return [ErrorFrame], true; }
    return [Agent(projected.value)], terminal;
  }

  /** One connection, over the deliveries it receives before it is closed. */
  method AgentEventsLoop(
    thread: Thread, commandId: Option<nat>, cursor: Option<nat>, refused: set<StreamEvent>, deliveries: seq<Delivery>)
    returns (sent: seq<Frame>)
    ensures
      sent == (if ThreadStarted(thread) in refused then [] else [Agent(ThreadStarted(thread))]) +
              Serve(New(thread, commandId), cursor, refused, deliveries)
  {
    var projector := new AgentEventProjector(thread, commandId);
    sent := if ThreadStarted(thread) in refused then [] else [Agent(ThreadStarted(thread))];
    ghost var whole := sent + Serve(New(thread, commandId), cursor, refused, deliveries);
    var i := 0;
    while i < |deliveries|
      invariant 0 <= i <= |deliveries|
      invariant sent + Serve(projector.Value(), cursor, refused, deliveries[i..]) == whole
    {
      assert deliveries[i..][1..] == deliveries[i + 1..];
      var frames, stops := Forward(projector, cursor, refused, deliveries[i]);
      sent, i := sent + frames, i + 1;
      if stops { return; }
    }
  }

  /** How many events come before the first that cannot be serialized. */
  function Encodable(told: seq<Told>, refused: set<StreamEvent>): (n: nat)
    ensures n <= |told|
    ensures forall i | 0 <= i < n :: told[i].event !in refused
    ensures n < |told| ==> told[n].event in refused
  {
    if told == [] || told[0].event in refused then 0 else 1 + Encodable(told[1..], refused)
  }

  /** The frames of a stream: all of it, or an error in place of the first that cannot be serialized. */
  function Encoded(told: seq<Told>, refused: set<StreamEvent>): (r: seq<Frame>) {
    var n := Encodable(told, refused);
    Frames(told[..n]) + if n < |told| then [ErrorFrame] else []
  }

  lemma EncodedOfMore(t: Told, rest: seq<Told>, refused: set<StreamEvent>)
    ensures Encoded([t] + rest, refused) ==
      if t.event !in refused then [Agent(t.event)] + Encoded(rest, refused) else [ErrorFrame]
  {
    assert ([t] + rest)[1..] == rest;
    if t.event !in refused {
      var n := Encodable(rest, refused);
      assert ([t] + rest)[..n + 1] == [t] + rest[..n];
      assert Frames([t] + rest[..n]) == [Agent(t.event)] + Frames(rest[..n]);
    }
  }

  lemma NewerOfMore(t: Told, rest: seq<Told>, cursor: Option<nat>)
    ensures Newer([t] + rest, cursor) ==
      if cursor.Some? && t.at <= cursor.value then Newer(rest, cursor) else [t] + Newer(rest, cursor)
  {
    assert ([t] + rest)[1..] == rest;
  }

  /** An event in front of the rest: what is sent of it, and the rest unless it or a failure ends the stream. */
  lemma TellThenRest(t: Told, live: seq<Told>, ends: bool, cursor: Option<nat>, refused: set<StreamEvent>)
    ensures
      var (frames, fails) := Tell(t, cursor, refused);
      (frames + if fails || ends then [] else Encoded(Newer(live, cursor), refused)) ==
      Encoded(Newer([t] + if ends then [] else live, cursor), refused)
  {
    var rest := if ends then [] else live;
    NewerOfMore(t, rest, cursor);
    EncodedOfMore(t, Newer(rest, cursor), refused);
  }

  lemma ServeFirst(p: Projector, cursor: Option<nat>, refused: set<StreamEvent>, log: seq<RuntimeEvent>)
    requires log != []
    ensures
      var h := Handle(p, cursor, refused, Fact(log[0]));
      Serve(p, cursor, refused, Facts(log)) ==
      h.frames + if h.stops then [] else Serve(h.projector, cursor, refused, Facts(log[1..]))
  {
    assert Facts(log)[1..] == Facts(log[1..]);
  }

  lemma LiveFirst(p: Projector, log: seq<RuntimeEvent>)
    requires log != []
    ensures
      var (q, event) := Project(p, log[0]);
      var live := Live(q, log[1..]);
      Live(p, log) ==
      if event.None? then live else [Told(log[0].sequenceNo, event.value)] + if q.finished then [] else live
  {
  }

  lemma ServeStep(
    p: Projector, cursor: Option<nat>, refused: set<StreamEvent>, log: seq<RuntimeEvent>, live: seq<Told>,
    sent: seq<Frame>)
    requires log != [] && live == Live(Project(p, log[0]).0, log[1..])
    requires sent == Serve(Project(p, log[0]).0, cursor, refused, Facts(log[1..]))
    requires sent == Encoded(Newer(live, cursor), refused)
    ensures Serve(p, cursor, refused, Facts(log)) == Encoded(Newer(Live(p, log), cursor), refused)
  {
    ServeFirst(p, cursor, refused, log);
    LiveFirst(p, log);
    var (q, event) := Project(p, log[0]);
    if event.Some? {
      TellThenRest(Told(log[0].sequenceNo, event.value), live, q.finished, cursor, refused);
    } else {
      assert Live(p, log) == live && Serve(p, cursor, refused, Facts(log)) == [] + sent;
    }
  }

  /** The loop sends the live stream without what the client already has. */
  lemma {:induction false} ServeSendsNewer(
    p: Projector, cursor: Option<nat>, refused: set<StreamEvent>, log: seq<RuntimeEvent>)
    ensures Serve(p, cursor, refused, Facts(log)) == Encoded(Newer(Live(p, log), cursor), refused)
    decreases |log|
  {
    if log != [] {
      var q := Project(p, log[0]).0;
      ServeSendsNewer(q, cursor, refused, log[1..]);
      ServeStep(p, cursor, refused, log, Live(q, log[1..]), Serve(q, cursor, refused, Facts(log[1..])));
    }
  }

  // ---------------------------------------------------------------- the live stream

  /** `live` is `out` up to and including the event that ends the turn. */
  ghost predicate CutAtEnd(live: seq<Told>, out: seq<StreamEvent>) {
    && Events(live) <= out
    && (forall i | 0 <= i < |live| - 1 :: !live[i].event.IsTerminal())
    && (|live| < |out| ==> live != [] && live[|live| - 1].event.IsTerminal())
  }

  lemma CutOfMore(t: Told, live: seq<Told>, out: seq<StreamEvent>)
    requires CutAtEnd(live, out) && !t.event.IsTerminal()
    ensures CutAtEnd([t] + live, [t.event] + out)
  {
    assert Events([t] + live) == [t.event] + Events(live);
  }

  /** The stream is the projection, cut after the event that ends the turn. */
  lemma {:induction false} LiveIsTheProjection(p: Projector, log: seq<RuntimeEvent>)
    requires !p.finished
    ensures CutAtEnd(Live(p, log), Outputs(p, log))
    decreases |log|
  {
    if log != [] {
      var (q, event) := Project(p, log[0]);
      if event.None? {
        LiveIsTheProjection(q, log[1..]);
      } else {
        EmitTells(p, log[0]);
        var told := Told(log[0].sequenceNo, event.value);
        if q.finished {
          assert Events([told]) == [event.value];
        } else {
          LiveIsTheProjection(q, log[1..]);
          CutOfMore(told, Live(q, log[1..]), Outputs(q, log[1..]));
        }
      }
    }
  }

  ghost predicate Ordered(log: seq<RuntimeEvent>) {
    forall i, j | 0 <= i < j < |log| :: log[i].sequenceNo < log[j].sequenceNo
  }

  ghost predicate Rising(told: seq<Told>) { forall i, j | 0 <= i < j < |told| :: told[i].at < told[j].at }

  lemma {:induction false} LiveRises(p: Projector, log: seq<RuntimeEvent>, floor: int)
    requires Ordered(log) && forall e <- log :: floor < e.sequenceNo
    ensures Rising(Live(p, log)) && forall t <- Live(p, log) :: floor < t.at
    decreases |log|
  {
    if log != [] {
      var q := Project(p, log[0]).0;
      LiveRises(q, log[1..], log[0].sequenceNo);
      assert log[0] in log;
    }
  }

  /** A longer log only adds to the stream, and adds nothing once the turn has ended. */
  lemma {:induction false} LiveGrows(p: Projector, a: seq<RuntimeEvent>, b: seq<RuntimeEvent>)
    requires a <= b && !p.finished
    ensures Live(p, a) <= Live(p, b)
    ensures HasEnd(Events(Live(p, a))) ==> Live(p, a) == Live(p, b)
    decreases |a|
  {
    if a != [] {
      var (q, event) := Project(p, a[0]);
      assert a[1..] <= b[1..];
      if !q.finished {
        LiveGrows(q, a[1..], b[1..]);
        if event.Some? {
          EmitTells(p, a[0]);
          var live, rest := Live(p, a), Live(q, a[1..]);
          assert Events(live)[1..] == Events(rest);
          if HasEnd(Events(live)) {
            var i :| 0 <= i < |live| && Events(live)[i].IsTerminal();
            assert Events(rest)[i - 1].IsTerminal();
          }
        }
      }
    }
  }

  // ---------------------------------------------------------------- resuming

  /** The cursors of a request: where the projection starts and what the client already has, both from
      the query, and the last event id, from the header. */
  datatype Opening = Opening(start: Option<nat>, cursor: Option<nat>, lastEventId: Option<nat>)

  /** What the client already has: the query outranks the header. */
  function Cursor(o: Opening): (r: Option<nat>) { OrElse(o.cursor, o.lastEventId) }

  function ProjectionCursor(o: Opening): (r: Option<nat>) { OrElse(o.start, Cursor(o)) }

  /** A start that is newer than the cursor is an error. */
  predicate Refused(o: Opening) {
    ProjectionCursor(o).Some? && Cursor(o).Some? && ProjectionCursor(o).value > Cursor(o).value
  }

  function After(log: seq<RuntimeEvent>, cursor: Option<nat>): (r: seq<RuntimeEvent>) {
    if log == [] then []
    else (if cursor.Some? && log[0].sequenceNo <= cursor.value then [] else [log[0]]) + After(log[1..], cursor)
  }

  /** The Agent events of the response, or None when the request is refused. */
  function Response(t: Thread, c: Option<nat>, o: Opening, log: seq<RuntimeEvent>): (r: Option<seq<Told>>) {
    if Refused(o) then None else Some(Newer(Live(New(t, c), After(log, ProjectionCursor(o))), Cursor(o)))
  }

  lemma {:induction false} AfterMembers(log: seq<RuntimeEvent>, cursor: Option<nat>)
    ensures forall e <- After(log, cursor) :: e in log && (cursor.Some? ==> cursor.value < e.sequenceNo)
  {
    if log != [] { AfterMembers(log[1..], cursor); }
  }

  lemma {:induction false} AfterIsOrdered(log: seq<RuntimeEvent>, cursor: Option<nat>)
    requires Ordered(log)
    ensures Ordered(After(log, cursor))
  {
    if log != [] {
      AfterMembers(log[1..], cursor);
      AfterIsOrdered(log[1..], cursor);
      assert forall e <- log[1..] :: log[0].sequenceNo < e.sequenceNo;
      var rest := After(log[1..], cursor);
      assert forall i | 0 <= i < |rest| :: rest[i] in rest;
    }
  }

  lemma {:induction false} AfterGrows(a: seq<RuntimeEvent>, b: seq<RuntimeEvent>, cursor: Option<nat>)
    requires a <= b
    ensures After(a, cursor) <= After(b, cursor)
  {
    if a != [] {
      assert a[1..] <= b[1..];
      AfterGrows(a[1..], b[1..], cursor);
    }
  }

  lemma {:induction false} NewerKeepsAll(told: seq<Told>, cursor: Option<nat>)
    requires cursor.Some? ==> forall t <- told :: cursor.value < t.at
    ensures Newer(told, cursor) == told
  {
    if told != [] {
      assert told[0] in told;
      NewerKeepsAll(told[1..], cursor);
    }
  }

  lemma {:induction false} NewerIsTheRest(told: seq<Told>, n: nat)
    requires Rising(told) && 0 < n <= |told|
    ensures Newer(told, Some(told[n - 1].at)) == told[n..]
  {
    if n == 1 {
      NewerKeepsAll(told[1..], Some(told[0].at));
    } else {
      assert told[1..][n - 2] == told[n - 1];
      NewerIsTheRest(told[1..], n - 1);
      assert told[1..][n - 1..] == told[n..];
    }
  }

  /** The stream of a client that connects with a start cursor and no other. */
  ghost function FullStream(t: Thread, c: Option<nat>, start: nat, log: seq<RuntimeEvent>): (r: seq<Told>) {
    Live(New(t, c), After(log, Some(start)))
  }

  lemma FullStreamRises(t: Thread, c: Option<nat>, start: nat, log: seq<RuntimeEvent>)
    requires Ordered(log)
    ensures Rising(FullStream(t, c, start, log))
    ensures forall told <- FullStream(t, c, start, log) :: start < told.at
  {
    AfterIsOrdered(log, Some(start));
    AfterMembers(log, Some(start));
    LiveRises(New(t, c), After(log, Some(start)), start);
  }

  lemma FullStreamGrows(t: Thread, c: Option<nat>, start: nat, log: seq<RuntimeEvent>, grown: seq<RuntimeEvent>)
    requires log <= grown
    ensures FullStream(t, c, start, log) <= FullStream(t, c, start, grown)
  {
    AfterGrows(log, grown, Some(start));
    LiveGrows(New(t, c), After(log, Some(start)), After(grown, Some(start)));
  }

  lemma AnswerIs(t: Thread, c: Option<nat>, start: nat, o: Opening, log: seq<RuntimeEvent>)
    requires o.start == Some(start) && (Cursor(o).Some? ==> start <= Cursor(o).value)
    ensures Response(t, c, o, log) == Some(Newer(FullStream(t, c, start, log), Cursor(o)))
  {
  }

  lemma ResumeAt(t: Thread, c: Option<nat>, start: nat, log: seq<RuntimeEvent>, n: nat, header: Option<nat>)
    requires Ordered(log) && 0 < n <= |FullStream(t, c, start, log)|
    ensures
      var now := FullStream(t, c, start, log);
      Response(t, c, Opening(Some(start), Some(now[n - 1].at), header), log) == Some(now[n..])
  {
    var now := FullStream(t, c, start, log);
    FullStreamRises(t, c, start, log);
    assert now[n - 1] in now;
    AnswerIs(t, c, start, Opening(Some(start), Some(now[n - 1].at), header), log);
    NewerIsTheRest(now, n);
  }

  /** A client that has received any part of its stream, and reconnects with the same start and the
      sequence number of the last event it has as its cursor, misses nothing and gets nothing twice, even when the
      log has grown in between. */
  lemma ResumeIsSeamless(
    t: Thread, c: Option<nat>, start: nat, log: seq<RuntimeEvent>, grown: seq<RuntimeEvent>, n: nat,
    header: Option<nat>)
    requires Ordered(grown) && log <= grown
    requires 0 < n <= |FullStream(t, c, start, log)|
    ensures
      var had := FullStream(t, c, start, log)[..n];
      var answer := Response(t, c, Opening(Some(start), Some(had[n - 1].at), header), grown);
      answer.Some? && had + answer.value == FullStream(t, c, start, grown)
  {
    var now := FullStream(t, c, start, grown);
    FullStreamGrows(t, c, start, log, grown);
    assert FullStream(t, c, start, log)[..n] == now[..n];
    ResumeAt(t, c, start, grown, n, header);
  }

  // ---------------------------------------------------------------- resuming by event id

  /** The id that a frame carries for the browser to resume from. */
  function SseId(event: StreamEvent): (id: Option<nat>) {
    match event
    case Raw(e) => Some(e.sequenceNo)
    case ItemStarted(item) => Some(item.event.sequenceNo)
    case ItemUpdated(item) => Some(item.event.sequenceNo)
    case ItemEnded(item) => Some(item.event.sequenceNo)
    case TurnSucceeded(_, _, _, _, _, _, last, _) => last
    case TurnFailed(_, _, _, _, _, _, _, last, _) => last
    case ThreadStarted(_) => None
    case TurnBegan(_, _, _, _) => None
  }

  /** The last id received, which a reconnecting client sends back. */
  function LastEventId(told: seq<Told>): (id: Option<nat>) {
    if told == [] then None
    else if SseId(told[|told| - 1].event).Some? then SseId(told[|told| - 1].event)
    else LastEventId(told[..|told| - 1])
  }

  lemma {:induction false} IdsAreSequenceNumbers(p: Projector, log: seq<RuntimeEvent>)
    ensures forall t <- Live(p, log) :: SseId(t.event) == if t.event.TurnBegan? then None else Some(t.at)
    ensures p.turnStarted ==> forall t <- Live(p, log) :: !t.event.TurnBegan?
    ensures forall i, j | 0 <= i < j < |Live(p, log)| ::
      !(Live(p, log)[i].event.TurnBegan? && Live(p, log)[j].event.TurnBegan?)
    decreases |log|
  {
    if log != [] {
      var q := Project(p, log[0]).0;
      IdsAreSequenceNumbers(q, log[1..]);
      if Takes(p, log[0]) { EmitTells(p, log[0]); }
    }
  }

  ghost predicate IdsOk(now: seq<Told>) {
    && (forall t <- now :: SseId(t.event) == if t.event.TurnBegan? then None else Some(t.at))
    && (forall i, j | 0 <= i < j < |now| :: !(now[i].event.TurnBegan? && now[j].event.TurnBegan?))
  }

  /** How many events the client's last event id accounts for, of the `n` it has. */
  ghost function Acknowledged(now: seq<Told>, n: nat): (k: nat)
    requires n <= |now|
    ensures k <= n
  {
    if n > 0 && now[n - 1].event.TurnBegan? then n - 1 else n
  }

  lemma LastIdOf(now: seq<Told>, n: nat)
    requires n <= |now| && IdsOk(now)
    ensures
      var k := Acknowledged(now, n);
      LastEventId(now[..n]) == if k == 0 then None else Some(now[k - 1].at)
  {
    if n > 0 {
      assert now[n - 1] in now;
      assert now[..n][..n - 1] == now[..n - 1];
      if n > 1 {
        assert now[n - 2] in now;
        assert now[..n - 1][n - 2] == now[n - 2];
      }
    }
  }

  lemma NewerThanLastId(now: seq<Told>, n: nat)
    requires n <= |now| && IdsOk(now) && Rising(now)
    ensures Newer(now, LastEventId(now[..n])) == now[Acknowledged(now, n)..]
  {
    LastIdOf(now, n);
    var k := Acknowledged(now, n);
    if k == 0 {
      NewerKeepsAll(now, None);
    } else {
      NewerIsTheRest(now, k);
    }
  }

  /** What a client gets by the ids alone: the stream from where it was, after the opening of the
      turn once more if that was the last thing it received. */
  lemma ResumeById(t: Thread, c: Option<nat>, start: nat, log: seq<RuntimeEvent>, grown: seq<RuntimeEvent>, n: nat)
    requires Ordered(grown) && log <= grown
    requires n <= |FullStream(t, c, start, log)|
    ensures
      var had, now := FullStream(t, c, start, log)[..n], FullStream(t, c, start, grown);
      && n <= |now| && had == now[..n]
      && Response(t, c, Opening(Some(start), None, LastEventId(had)), grown) == Some(now[Acknowledged(now, n)..])
  {
    var now := FullStream(t, c, start, grown);
    FullStreamGrows(t, c, start, log, grown);
    FullStreamRises(t, c, start, grown);
    IdsAreSequenceNumbers(New(t, c), After(grown, Some(start)));
    assert FullStream(t, c, start, log)[..n] == now[..n];
    LastIdOf(now, n);
    var k := Acknowledged(now, n);
    if k > 0 { assert now[k - 1] in now; }
    AnswerIs(t, c, start, Opening(Some(start), None, LastEventId(now[..n])), grown);
    NewerThanLastId(now, n);
  }

  /** The stream of a connection: what it was first opened for. */
  ghost function Stream(t: Thread, c: Option<nat>, start: nat, cursor: Option<nat>, log: seq<RuntimeEvent>)
    : (r: seq<Told>)
  {
    Newer(FullStream(t, c, start, log), cursor)
  }

  lemma WithoutCursor(t: Thread, c: Option<nat>, start: nat, log: seq<RuntimeEvent>)
    ensures Stream(t, c, start, None, log) == FullStream(t, c, start, log)
  {
    NewerKeepsAll(FullStream(t, c, start, log), None);
  }

  /** A reconnect that still carries the cursor it was first opened with starts over from there. */
  lemma ResumeWithCursor(
    t: Thread, c: Option<nat>, start: nat, cursor: nat, log: seq<RuntimeEvent>, grown: seq<RuntimeEvent>, n: nat)
    requires log <= grown && start <= cursor
    requires n <= |Stream(t, c, start, Some(cursor), log)|
    ensures
      var had := Stream(t, c, start, Some(cursor), log)[..n];
      Response(t, c, Opening(Some(start), Some(cursor), LastEventId(had)), grown) ==
        Some(Stream(t, c, start, Some(cursor), grown))
  {
    var had := Stream(t, c, start, Some(cursor), log)[..n];
    AnswerIs(t, c, start, Opening(Some(start), Some(cursor), LastEventId(had)), grown);
  }

  /** A browser reconnects with the address it first used and the last event id it received.  That is
      seamless if and only if it has received nothing yet, or the address has no cursor and the last event
      received is not the opening of the turn, which carries no id. */
  lemma ResumeByIdIsSeamless(
    t: Thread, c: Option<nat>, start: nat, cursor: Option<nat>, log: seq<RuntimeEvent>, grown: seq<RuntimeEvent>,
    n: nat)
    requires Ordered(grown) && log <= grown && (cursor.Some? ==> start <= cursor.value)
    requires n <= |Stream(t, c, start, cursor, log)|
    ensures
      var had := Stream(t, c, start, cursor, log)[..n];
      var answer := Response(t, c, Opening(Some(start), cursor, LastEventId(had)), grown);
      && answer.Some?
      && (had + answer.value == Stream(t, c, start, cursor, grown) <==>
            n == 0 || (cursor.None? && !had[n - 1].event.TurnBegan?))
  {
    var now := Stream(t, c, start, cursor, grown);
    if cursor.None? {
      WithoutCursor(t, c, start, log);
      WithoutCursor(t, c, start, grown);
      ResumeById(t, c, start, log, grown, n);
      var k := Acknowledged(now, n);
      assert |now[..n] + now[k..]| == |now| + (n - k);
      assert now[..n] + now[n..] == now;
    } else {
      ResumeWithCursor(t, c, start, cursor.value, log, grown, n);
      var had := Stream(t, c, start, cursor, log)[..n];
      assert |had + now| == n + |now|;
      if n == 0 { assert had + now == now; }
    }
  }

  // ---------------------------------------------------------------- the handle of a turn

  datatype Pulled = Over | Lost | Got(event: StreamEvent)

  datatype Pulling = Pulling(projector: Projector, queue: seq<Delivery>, pulled: Pulled)

  /** Receives until something is to be told, the stream ends, or it breaks. */
  function Pull(p: Projector, queue: seq<Delivery>): (r: Pulling)
    decreases |queue|
  {
    if queue == [] then Pulling(p, [], Over)
    else if queue[0].Broken? then Pulling(p, queue[1..], Lost)
    else
      var (q, event) := Project(p, queue[0].event);
      if event.None? then Pull(q, queue[1..]) else Pulling(q, queue[1..], Got(event.value))
  }

  datatype Waited = Finished(result: TurnResult) | StreamError | EndedEarly

  function WaitFor(p: Projector, queue: seq<Delivery>): (r: Waited)
    decreases |queue|
  {
    if queue == [] then EndedEarly
    else if queue[0].Broken? then StreamError
    else
      var q := Project(p, queue[0].event).0;
      if q.finished && Result(q).Some? then Finished(Result(q).value) else WaitFor(q, queue[1..])
  }

  /** What a wait gives once nothing more is to come. */
  function Concluded(p: Projector): (r: Waited) {
    if Result(p).Some? then Finished(Result(p).value) else EndedEarly
  }

  class TurnHandle {
    var queue: seq<Delivery>
    var pending: seq<StreamEvent>
    const projector: AgentEventProjector
    var finished: bool

    constructor (thread: Thread, commandId: nat, deliveries: seq<Delivery>)
      ensures projector.Value() == New(thread, Some(commandId)) && fresh(projector) && Valid()
      ensures pending == [ThreadStarted(thread)] && queue == deliveries && !finished
    {
      projector := new AgentEventProjector(thread, Some(commandId));
      pending, queue, finished := [ThreadStarted(thread)], deliveries, false;
    }

    /** The projector has finished exactly when it has a status, and then the handle has too. */
    ghost predicate Valid()
      reads this, projector
    {
      && (projector.finished <==> projector.terminalStatus.Some?)
      && (projector.finished ==> finished)
    }

    /** The next event of the turn; after the end, or once the stream is over, there is none. */
    method NextEvent() returns (r: Pulled)
      requires Valid()
      modifies this, projector
      ensures Valid()
      ensures old(finished) ==>
        r == Over && queue == old(queue) && pending == old(pending) && finished
          && projector.Value() == old(projector.Value())
      ensures !old(finished) && old(pending) != [] ==>
        && r == Got(old(pending)[0]) && pending == old(pending)[1..] && queue == old(queue)
        && !finished && projector.Value() == old(projector.Value())
      ensures !old(finished) && old(pending) == [] ==>
        var s := Pull(old(projector.Value()), old(queue));
        && r == s.pulled && queue == s.queue && projector.Value() == s.projector && pending == []
        && (finished <==> s.pulled.Over? || (s.pulled.Got? && s.projector.finished))
    {
      if finished { return Over; }
      if pending != [] {
        r := Got(pending[0]);
        pending := pending[1..];
        return;
      }
      while true
        invariant !finished && pending == [] && Valid()
        invariant Pull(projector.Value(), queue) == Pull(old(projector.Value()), old(queue))
        decreases |queue|
      {
        if queue == [] {
          finished := true;
          return Over;
        }
        var next := queue[0];
        queue := queue[1..];
        if next.Broken? { return Lost; }
        var projected := projector.ProjectEvent(next.event);
        if projected.Some? {
          if projector.finished { finished := true; }
          return Got(projected.value);
        }
      }
    }

    /** Drains the turn and gives its result; a handle that is already drained gives what it has. */
    method Wait() returns (r: Waited)
      requires Valid()
      modifies this, projector
      ensures old(finished) ==> r == Concluded(old(projector.Value()))
      ensures !old(finished) ==> r == WaitFor(old(projector.Value()), old(queue))
    {
      var pulled := Got(ThreadStarted(projector.thread));
      while pulled.Got?
        invariant Valid()
        invariant Expected(pulled, finished, projector.Value(), queue) ==
          Expected(Got(ThreadStarted(projector.thread)), old(finished), old(projector.Value()), old(queue))
        decreases pulled.Got?, |pending| + |queue|, !finished
      {
        if !finished { PullWaits(projector.Value(), queue); }
        pulled := NextEvent();
      }
      if pulled.Lost? { return StreamError; }
      if projector.terminalStatus.None? { return EndedEarly; }
      return Finished(Result(projector.Value()).value);
    }
  }

  ghost predicate Unfinished(p: Projector) { !p.finished && p.terminalStatus.None? }

  /** What a wait will give, seen from the middle of its loop. */
  ghost function Expected(pulled: Pulled, finished: bool, p: Projector, queue: seq<Delivery>): (r: Waited) {
    if pulled.Lost? then StreamError
    else if finished || pulled.Over? then Concluded(p)
    else WaitFor(p, queue)
  }

  lemma {:induction false} PullWaits(p: Projector, queue: seq<Delivery>)
    requires Unfinished(p)
    ensures
      var s := Pull(p, queue);
      && WaitFor(p, queue) == Expected(s.pulled, s.projector.finished, s.projector, s.queue)
      && (s.projector.finished || Unfinished(s.projector)) && (!s.pulled.Got? ==> Unfinished(s.projector))
      && (queue != [] ==> |s.queue| < |queue|)
    decreases |queue|
  {
    if queue != [] && queue[0].Fact? && !Takes(p, queue[0].event) { PullWaits(p, queue[1..]); }
  }

  lemma {:induction false} WaitPasses(p: Projector, log: seq<RuntimeEvent>, rest: seq<Delivery>)
    requires Unfinished(p) && !Final(p, log).finished
    ensures WaitFor(p, Facts(log) + rest) == WaitFor(Final(p, log), rest)
    ensures Unfinished(Final(p, log))
    decreases |log|
  {
    if log == [] {
      assert Facts(log) + rest == rest;
    } else {
      var q := Project(p, log[0]).0;
      assert (Facts(log) + rest)[1..] == Facts(log[1..]) + rest;
      if q.finished { ResultIsSettled(q, log[1..]); }
      WaitPasses(q, log[1..], rest);
    }
  }

  /** A wait ends as the stream does: early if it stops before the turn's end, in error if it breaks
      before it. */
  lemma WaitFailsWithoutEnd(t: Thread, c: Option<nat>, log: seq<RuntimeEvent>, more: seq<Delivery>)
    requires !Final(New(t, c), log).finished
    ensures WaitFor(New(t, c), Facts(log)) == EndedEarly
    ensures WaitFor(New(t, c), Facts(log) + ([Broken] + more)) == StreamError
  {
    WaitPasses(New(t, c), log, []);
    assert Facts(log) + [] == Facts(log);
    WaitPasses(New(t, c), log, [Broken] + more);
  }

  /** Once the turn's end arrives, a wait gives the result that end announces, whatever follows. */
  lemma WaitGivesTheResult(t: Thread, c: Option<nat>, log: seq<RuntimeEvent>, e: RuntimeEvent, more: seq<Delivery>)
    requires var p := Final(New(t, c), log); Takes(p, e) && Project(p, e).1.value.IsTerminal()
    ensures
      var out, r := Project(Final(New(t, c), log), e).1.value, WaitFor(New(t, c), Facts(log) + ([Fact(e)] + more));
      && r.Finished? && r.result.status == out.status && r.result.turnId == out.turnId
      && r.result.finalMessage == out.finalMessage && r.result.verification == out.verification
      && r.result.lastSequenceNo == Some(e.sequenceNo)
  {
    var p := Final(New(t, c), log);
    EmitTells(p, e);
    ResultAgrees(t, c, log, e);
    WaitPasses(New(t, c), log, [Fact(e)] + more);
    assert ([Fact(e)] + more)[0] == Fact(e);
  }
}
