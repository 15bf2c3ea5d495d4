/** One chat session: the chatroom lookup, the Pusher subscription, the
    receive loop with its keepalive, and the classification of the received
    messages. The socket, the clock, the storage and `json.loads` are inputs. */
module KickChatListener {
  import opened PyValues
  import opened Config
  import opened KickEvents
  import KickApi

  /** `json.loads`: the decoded value, or None where it raises. */
  type Loads = string -> Option<Json>

  /** `str()` of a value the model does not print itself (a list or dict). */
  type Repr = Json -> string

  // ---------------------------------------------------------------------------
  // Chatroom lookup and subscription.

  /** `get_chatroom_id` on the lookup's result: None unless the lookup
      succeeded with truthy data; for dict data, `data["chatroom"]["id"]`
      through `.get` with an empty-dict default. */
  function GetChatroomId(info: KickApi.ApiResult): Outcome<Json> {
    if !info.success || info.data.None? || !Truthy(info.data.value) then Returned(JNull)
    else if info.data.value.JObj? then
      var chatroom :- GetOr(info.data.value, "chatroom", EmptyDict);
      Get(chatroom, "id")
    else Returned(JNull)
  }

  /** `str(chatroom_id)`. */
  function ChatroomIdText(chatroomId: Json, repr: Repr): string {
    match Str(chatroomId)
    case Some(s) => s
    case None => repr(chatroomId)
  }

  /** The Pusher subscription message for a chatroom. */
  function SubscribeMessage(chatroomId: string): Json {
    JObj(map[
      "event" := JStr("pusher:subscribe"),
      "data" := JObj(map["auth" := JStr(""), "channel" := JStr("chatrooms." + chatroomId + ".v2")])
    ])
  }

  // ---------------------------------------------------------------------------
  // Parsing and classification of received messages.

  /** `parse_event`. */
  function ParseEvent(message: Json, loads: Loads): Outcome<KickEvent> {
    var eventType :- Get(message, "event");
    if !eventType.JStr? then Raised(ValueError)
    else
      var dataField :- GetOr(message, "data", JStr("{}"));
      if dataField.JStr? then
        match loads(dataField.s)
        case None => Raised(JsonDecodeError)
        case Some(data) => Returned(KickEvent(eventType.s, data))
      else Returned(KickEvent(eventType.s, dataField))
  }

  /** What `handle_websocket_message` did with a message. */
  datatype Disposition =
    | Ignored                   // an ignored event: None, nothing written
    | Parsed(event: KickEvent)  // a handled event: the parsed event
    | Unhandled(message: Json)  // anything else: None, the message appended to the overflow log

  /** `handle_websocket_message`. Membership in a set of strings is false for
      a value that is not a string, and raises for an unhashable one. */
  function HandleWebsocketMessage(message: Json, loads: Loads): Outcome<Disposition> {
    var eventType :- Get(message, "event");
    if !Hashable(eventType) then Raised(TypeError)
    else if eventType.JStr? && eventType.s in IGNORED_EVENTS then Returned(Ignored)
    else if eventType.JStr? && eventType.s in HANDLED_EVENTS then
      var event :- ParseEvent(message, loads);
      Returned(Parsed(event))
    else Returned(Unhandled(message))
  }

  // ---------------------------------------------------------------------------
  // Keepalive.

  /** `ping_interval`: the configured minutes times 20, in seconds. */
  const PING_INTERVAL: real := (PING_INTERVAL_MINUTES * 20) as real
  const MAX_PING_FAILURES: nat := 3
  /** The close code of the frame sent when the keepalive gives up
      (internal error, section 7.4.1 of RFC 6455). */
  const KEEPALIVE_CLOSE_CODE: int := 1011

  datatype Keepalive = Keepalive(lastPingTime: real, failures: nat)

  /** How a ping ended: a pong in time, no pong within the timeout, or the
      connection closing with the code the library reports. */
  datatype PingResult = Pong | PongTimeout | PingClosed(code: Option<int>)

  datatype KeepaliveOutcome =
    | KeepGoing(state: Keepalive)
    | GiveUp                       // raise ConnectionClosed with a sent close frame of code 1011
    | PingLost(code: Option<int>)  // the ConnectionClosed of the ping propagates

  /** The keepalive part of one loop iteration. `ping` is only consulted when
      a ping is due. */
  function KeepaliveStep(k: Keepalive, now: real, ping: PingResult): KeepaliveOutcome {
    if now - k.lastPingTime > PING_INTERVAL then
      match ping
      case Pong => KeepGoing(Keepalive(now, 0))
      case PongTimeout =>
        if k.failures + 1 >= MAX_PING_FAILURES then GiveUp
        else KeepGoing(Keepalive(now, k.failures + 1))
      case PingClosed(code) => PingLost(code)
    else KeepGoing(k)
  }

  // ---------------------------------------------------------------------------
  // The receive loop.

  /** What `ws.recv()` gave within the 1 s timeout. */
  datatype Received = RecvTimeout | Frame(raw: string) | RecvClosed(code: Option<int>)

  /** What `store_event` did with a parsed event. */
  datatype StoreResult = Stored | NotStored | StoreRaised(error: PyError)

  /** The inputs of one loop iteration that finds the stop flag clear. */
  datatype Step = Step(now: real, ping: PingResult, received: Received, store: StoreResult)

  /** The state the loop carries, with the ghost logs of what it wrote. */
  datatype LoopState = LoopState(keepalive: Keepalive, overflow: seq<Json>, handed: seq<KickEvent>)

  /** How `listen_to_chat` ended. */
  datatype SessionEnd =
    | NoChatroom                        // returned before connecting: the chatroom id was falsy
    | StopRequested                     // returned: the stop flag was set
    | KeepaliveClosed                   // raised ConnectionClosed after too many missed pongs
    | ConnectionLost(code: Option<int>) // raised ConnectionClosed from the socket
    | Crashed(error: PyError)           // raised another exception

  /** One loop iteration: None to go round again, or how the loop ends. */
  function Iterate(st: LoopState, step: Step, loads: Loads): (Option<SessionEnd>, LoopState) {
    match KeepaliveStep(st.keepalive, step.now, step.ping)
    case GiveUp => (Some(KeepaliveClosed), st)
    case PingLost(code) => (Some(ConnectionLost(code)), st)
    case KeepGoing(k) =>
      var st := st.(keepalive := k);
      match step.received
      case RecvTimeout => (None, st)
      case RecvClosed(code) => (Some(ConnectionLost(code)), st)
      case Frame(raw) =>
        match loads(raw)
        case None => (Some(Crashed(JsonDecodeError)), st)
        case Some(message) =>
          match HandleWebsocketMessage(message, loads)
          case Raised(e) => (Some(Crashed(e)), st)
          case Returned(Ignored) => (None, st)
          case Returned(Unhandled(m)) => (None, st.(overflow := st.overflow + [m]))
          case Returned(Parsed(event)) =>
            var st := st.(handed := st.handed + [event]);
            match step.store
            case StoreRaised(e) => (Some(Crashed(e)), st)
            case _ => (None, st)
  }

  /** The loop over the iterations that find the stop flag clear; once they
      are used up the flag is found set. */
  function Run(st: LoopState, steps: seq<Step>, loads: Loads): (SessionEnd, LoopState)
    decreases |steps|
  {
    if steps == [] then (StopRequested, st)
    else
      match Iterate(st, steps[0], loads)
      case (None, st') => Run(st', steps[1..], loads)
      case (Some(end), st') => (end, st')
  }

  /** How `ws.send` of the subscription ended: sent, or the connection
      closed with the code the library reports. */
  datatype SendResult = Sent | SendClosed(code: Option<int>)

  /** Everything `listen_to_chat` does, given the lookup result, whether the
      socket opens, how the subscription send ends, the clock at the start and
      the loop's inputs: how it ends, the frames it sent, the overflow log and
      the events handed to storage. */
  datatype Session = Session(end: SessionEnd, sent: seq<Json>, overflow: seq<Json>, handed: seq<KickEvent>)

  function ListenSpec(lookup: Outcome<KickApi.ApiResult>, start: real, connects: bool, subscribe: SendResult,
                      steps: seq<Step>, loads: Loads, repr: Repr): Session
  {
    match lookup
    case Raised(e) => Session(Crashed(e), [], [], [])
    case Returned(info) =>
      match GetChatroomId(info)
      case Raised(e) => Session(Crashed(e), [], [], [])
      case Returned(chatroomId) =>
        if !Truthy(chatroomId) then Session(NoChatroom, [], [], [])
        else if !connects then Session(Crashed(OSError), [], [], [])
        else if subscribe.SendClosed? then Session(ConnectionLost(subscribe.code), [], [], [])
        else
          var (end, st) := Run(LoopState(Keepalive(start, 0), [], []), steps, loads);
          Session(end, [SubscribeMessage(ChatroomIdText(chatroomId, repr))], st.overflow, st.handed)
  }

  /** `listen_to_chat`. */
  method ListenToChat(lookup: Outcome<KickApi.ApiResult>, start: real, connects: bool, subscribe: SendResult,
                      steps: seq<Step>, loads: Loads, repr: Repr)
    returns (end: SessionEnd, ghost sent: seq<Json>, ghost overflow: seq<Json>, ghost handed: seq<KickEvent>)
    ensures end == ListenSpec(lookup, start, connects, subscribe, steps, loads, repr).end
    ensures Session(end, sent, overflow, handed) == ListenSpec(lookup, start, connects, subscribe, steps, loads, repr)
  {
    sent, overflow, handed := [], [], [];
    if lookup.Raised? {
      end := Crashed(lookup.error);
      return;
    }
    var found := GetChatroomId(lookup.value);
    if found.Raised? {
      end := Crashed(found.error);
      return;
    }
    var chatroomId := found.value;
    var lastPingTime := start;
    var consecutivePingFailures: nat := 0;
    if !Truthy(chatroomId) {
      end := NoChatroom;
      return;
    }
    if !connects {
      end := Crashed(OSError);
      return;
    }
    if subscribe.SendClosed? {
      end := ConnectionLost(subscribe.code);
      return;
    }
    sent := [SubscribeMessage(ChatroomIdText(chatroomId, repr))];
    ghost var initial := LoopState(Keepalive(start, 0), [], []);
    var i := 0;
    while i < |steps|
      invariant 0 <= i <= |steps|
      invariant Run(LoopState(Keepalive(lastPingTime, consecutivePingFailures), overflow, handed), steps[i..], loads)
                == Run(initial, steps, loads)
      decreases |steps| - i
    {
      var step := steps[i];
      ghost var before := LoopState(Keepalive(lastPingTime, consecutivePingFailures), overflow, handed);
      assert steps[i..][0] == step && steps[i..][1..] == steps[i + 1..];
      var keepalive := KeepaliveStep(Keepalive(lastPingTime, consecutivePingFailures), step.now, step.ping);
      if keepalive.GiveUp? {
        end := KeepaliveClosed;
        return;
      } else if keepalive.PingLost? {
        end := ConnectionLost(keepalive.code);
        return;
      }
      lastPingTime, consecutivePingFailures := keepalive.state.lastPingTime, keepalive.state.failures;
      match step.received {
        case RecvTimeout =>
        case RecvClosed(code) =>
          end := ConnectionLost(code);
          return;
        case Frame(raw) =>
          var decoded := loads(raw);
          if decoded.None? {
            end := Crashed(JsonDecodeError);
            return;
          }
          var handledMessage := HandleWebsocketMessage(decoded.value, loads);
          if handledMessage.Raised? {
            end := Crashed(handledMessage.error);
            return;
          }
          match handledMessage.value {
            case Ignored =>
            case Unhandled(m) =>
              overflow := overflow + [m];
            case Parsed(event) =>
              handed := handed + [event];
              if step.store.StoreRaised? {
                end := Crashed(step.store.error);
                return;
              }
          }
      }
      i := i + 1;
    }
    end := StopRequested;
  }

  // ---------------------------------------------------------------------------
  // Properties of the pure parts.

  /** A falsy or failed lookup gives no chatroom; otherwise the id is
      `data["chatroom"]["id"]`, missing parts reading as None, and a
      `chatroom` that is not a dict raises. */
  lemma ChatroomIdExtraction(info: KickApi.ApiResult)
    ensures !info.success || info.data.None? || !Truthy(info.data.value) ==> GetChatroomId(info) == Returned(JNull)
    ensures info.success && info.data.Some? && Truthy(info.data.value) && !info.data.value.JObj? ==>
              GetChatroomId(info) == Returned(JNull)
    ensures info.success && info.data.Some? && info.data.value.JObj? && info.data.value.fields != map[] ==>
              var fields := info.data.value.fields;
              var chatroom := if "chatroom" in fields then fields["chatroom"] else EmptyDict;
              GetChatroomId(info) ==
                if chatroom.JObj? then Returned(if "id" in chatroom.fields then chatroom.fields["id"] else JNull)
                else Raised(AttributeError)
  {
  }

  /** The subscription message, with its channel name spelled out. */
  lemma SubscribeMessageShape(chatroomId: string)
    ensures var m := SubscribeMessage(chatroomId);
            m.JObj? && m.fields.Keys == {"event", "data"}
            && m.fields["event"] == JStr("pusher:subscribe")
            && m.fields["data"].JObj? && m.fields["data"].fields.Keys == {"auth", "channel"}
            && m.fields["data"].fields["auth"] == JStr("")
            && m.fields["data"].fields["channel"].JStr?
            && var channel := m.fields["data"].fields["channel"].s;
               channel[..10] == "chatrooms." && channel[|channel| - 3..] == ".v2"
               && channel[10..|channel| - 3] == chatroomId
  {
    var channel := "chatrooms." + chatroomId + ".v2";
    assert channel[10..|channel| - 3] == chatroomId;
  }

  /** `parse_event`: a non-string event raises; a string `data` is decoded,
      any other `data` is used as it is, and a missing one is read as "{}". */
  lemma ParseEventCases(message: Json, loads: Loads)
    requires message.JObj?
    ensures var f := message.fields;
            var eventType := if "event" in f then f["event"] else JNull;
            (!eventType.JStr? ==> ParseEvent(message, loads) == Raised(ValueError))
            && (eventType.JStr? && "data" in f && !f["data"].JStr? ==>
                  ParseEvent(message, loads) == Returned(KickEvent(eventType.s, f["data"])))
            && (eventType.JStr? && "data" in f && f["data"].JStr? ==>
                  ParseEvent(message, loads) ==
                    if loads(f["data"].s).Some? then Returned(KickEvent(eventType.s, loads(f["data"].s).value))
                    else Raised(JsonDecodeError))
  {
  }

  /** With a `json.loads` that reads "{}" as an empty dict, a message without
      `data` parses to an event with an empty payload. */
  lemma ParseEventMissingData(message: Json, loads: Loads)
    requires loads("{}") == Some(EmptyDict)
    requires message.JObj? && "data" !in message.fields
    requires "event" in message.fields && message.fields["event"].JStr?
    ensures ParseEvent(message, loads) == Returned(KickEvent(message.fields["event"].s, EmptyDict))
  {
  }

  /** The classifier is a partition: ignored events give nothing and write
      nothing, handled events give the parsed event, and every other message,
      including one without an event, goes to the overflow log as it is. */
  lemma ClassificationPartition(message: Json, loads: Loads)
    requires message.JObj?
    ensures var f := message.fields;
            var eventType := if "event" in f then f["event"] else JNull;
            var r := HandleWebsocketMessage(message, loads);
            (!Hashable(eventType) ==> r == Raised(TypeError))
            && (eventType.JStr? && eventType.s in IGNORED_EVENTS ==> r == Returned(Ignored))
            && (eventType.JStr? && eventType.s in HANDLED_EVENTS ==>
                  r == match ParseEvent(message, loads)
                       case Returned(ev) => Returned(Parsed(ev))
                       case Raised(e) => Raised(e))
            && (Hashable(eventType) && !(eventType.JStr? && eventType.s in IGNORED_EVENTS + HANDLED_EVENTS) ==>
                  r == Returned(Unhandled(message)))
  {
  }

  /** A message that is not a dict raises at `.get`. The `ValueError` of
      `parse_event` is unreachable from the classifier, since a handled event
      type is a string. A parsed event's type is a handled one. */
  lemma ClassifierErrors(message: Json, loads: Loads)
    ensures !message.JObj? ==> HandleWebsocketMessage(message, loads) == Raised(AttributeError)
    ensures HandleWebsocketMessage(message, loads) != Raised(ValueError)
    ensures var r := HandleWebsocketMessage(message, loads);
            r.Returned? && r.value.Parsed? ==> r.value.event.event in HANDLED_EVENTS
  {
  }

  // ---------------------------------------------------------------------------
  // Properties of the keepalive.

  /** A ping is sent only when more than `ping_interval` = 1200 s have passed;
      otherwise the keepalive state is untouched. */
  lemma KeepaliveNotDue(k: Keepalive, now: real, ping: PingResult)
    requires now - k.lastPingTime <= PING_INTERVAL
    ensures PING_INTERVAL == 1200.0
    ensures KeepaliveStep(k, now, ping) == KeepGoing(k)
  {
  }

  /** When a ping is due: a pong resets the failures and moves the clock; a
      missed pong counts a failure and, below three, moves the clock; at three
      the connection is given up. */
  lemma KeepaliveDue(k: Keepalive, now: real)
    requires now - k.lastPingTime > PING_INTERVAL
    ensures KeepaliveStep(k, now, Pong) == KeepGoing(Keepalive(now, 0))
    ensures k.failures + 1 < 3 ==> KeepaliveStep(k, now, PongTimeout) == KeepGoing(Keepalive(now, k.failures + 1))
    ensures k.failures + 1 >= 3 ==> KeepaliveStep(k, now, PongTimeout) == GiveUp
  {
  }

  /** The failure count stays below three while the loop goes on. */
  lemma KeepaliveFailuresBounded(k: Keepalive, now: real, ping: PingResult)
    requires k.failures < MAX_PING_FAILURES
    ensures var o := KeepaliveStep(k, now, ping);
            o.KeepGoing? ==> o.state.failures < MAX_PING_FAILURES && o.state.failures <= k.failures + 1
  {
  }

  /** The pings a sequence of iterations sends, with how each ended, when
      the last ping (or the start) was at `last`: an iteration sends one
      when more than `ping_interval` has passed since then, and the clock
      moves to that iteration's time. This reads only the clock and the ping
      results of the steps, never the frames. */
  function DuePings(last: real, steps: seq<Step>): seq<PingResult>
    decreases |steps|
  {
    if steps == [] then []
    else if steps[0].now - last > PING_INTERVAL then [steps[0].ping] + DuePings(steps[0].now, steps[1..])
    else DuePings(last, steps[1..])
  }

  /** The time of the last ping a sequence of iterations sends, or `last`
      when it sends none. */
  function LastDue(last: real, steps: seq<Step>): real
    decreases |steps|
  {
    if steps == [] then last
    else if steps[0].now - last > PING_INTERVAL then LastDue(steps[0].now, steps[1..])
    else LastDue(last, steps[1..])
  }

  /** Running a prefix that does not end the loop, then the rest, is
      running the whole. */
  lemma {:induction false} RunAppend(st: LoopState, p: seq<Step>, q: seq<Step>, loads: Loads)
    requires Run(st, p, loads).0 == StopRequested
    ensures Run(st, p + q, loads) == Run(Run(st, p, loads).1, q, loads)
    decreases |p|
  {
    if p != [] {
      assert (p + q)[0] == p[0] && (p + q)[1..] == p[1..] + q;
      var (next, st1) := Iterate(st, p[0], loads);
      if next.None? {
        RunAppend(st1, p[1..], q, loads);
      }
    } else {
      assert p + q == q;
    }
  }

  /** Over iterations that do not end the loop and see no pong, every due
      ping is a missed pong: each one counts a failure and moves the clock,
      and the iterations in between, frames included, leave the keepalive alone. */
  lemma {:induction false} MissedPongsCount(st: LoopState, p: seq<Step>, loads: Loads)
    requires Run(st, p, loads).0 == StopRequested
    requires Pong !in DuePings(st.keepalive.lastPingTime, p)
    ensures Run(st, p, loads).1.keepalive ==
            Keepalive(LastDue(st.keepalive.lastPingTime, p), st.keepalive.failures + |DuePings(st.keepalive.lastPingTime, p)|)
    decreases |p|
  {
    if p != [] {
      var last := st.keepalive.lastPingTime;
      var (next, st1) := Iterate(st, p[0], loads);
      assert next.None?;
      if p[0].now - last > PING_INTERVAL {
        assert DuePings(last, p) == [p[0].ping] + DuePings(p[0].now, p[1..]);
        assert p[0].ping == PongTimeout;
        assert st1.keepalive == Keepalive(p[0].now, st.keepalive.failures + 1);
      } else {
        assert st1.keepalive == st.keepalive;
      }
      MissedPongsCount(st1, p[1..], loads);
    }
  }

  /** Three missed pongs with no pong in between end the session by the
      keepalive, whatever arrives between the pings and whatever follows:
      after a stretch `p` of iterations that pings twice without a pong and
      does not end the loop, the next due ping that misses its pong closes
      the connection. */
  lemma ThreeMissedPongsClose(st: LoopState, p: seq<Step>, c: Step, rest: seq<Step>, loads: Loads)
    requires st.keepalive.failures == 0
    requires Run(st, p, loads).0 == StopRequested
    requires DuePings(st.keepalive.lastPingTime, p) == [PongTimeout, PongTimeout]
    requires c.ping == PongTimeout && c.now - LastDue(st.keepalive.lastPingTime, p) > PING_INTERVAL
    ensures Run(st, p + [c] + rest, loads).0 == KeepaliveClosed
  {
    MissedPongsCount(st, p, loads);
    RunAppend(st, p, [c] + rest, loads);
    assert p + [c] + rest == p + ([c] + rest);
    var st2 := Run(st, p, loads).1;
    assert Iterate(st2, c, loads).0 == Some(KeepaliveClosed);
    assert ([c] + rest)[0] == c;
  }

  // ---------------------------------------------------------------------------
  // Properties of the loop.

  /** A falsy chatroom id ends the session before any connection: nothing is
      sent, logged or stored. */
  lemma FalsyChatroomNoConnection(lookup: Outcome<KickApi.ApiResult>, start: real, connects: bool, subscribe: SendResult,
                                  steps: seq<Step>, loads: Loads, repr: Repr)
    requires lookup.Returned? && GetChatroomId(lookup.value).Returned?
    requires !Truthy(GetChatroomId(lookup.value).value)
    ensures ListenSpec(lookup, start, connects, subscribe, steps, loads, repr) == Session(NoChatroom, [], [], [])
  {
  }

  /** Once connected, the only frame sent is the subscription for the chatroom,
      and the session returns normally only when the stop flag is found set.
      A closure while sending the subscription ends the session with that
      closure's code, before anything is received. */
  lemma ConnectedSessionSubscribes(lookup: Outcome<KickApi.ApiResult>, start: real, subscribe: SendResult,
                                   steps: seq<Step>, loads: Loads, repr: Repr)
    requires lookup.Returned? && GetChatroomId(lookup.value).Returned?
    requires Truthy(GetChatroomId(lookup.value).value)
    ensures var s := ListenSpec(lookup, start, true, subscribe, steps, loads, repr);
            (subscribe == Sent ==>
               s.sent == [SubscribeMessage(ChatroomIdText(GetChatroomId(lookup.value).value, repr))]
               && s.end != NoChatroom)
            && (subscribe.SendClosed? ==> s == Session(ConnectionLost(subscribe.code), [], [], []))
  {
    RunNeverNoChatroom(LoopState(Keepalive(start, 0), [], []), steps, loads);
  }

  lemma {:induction false} RunNeverNoChatroom(st: LoopState, steps: seq<Step>, loads: Loads)
    ensures Run(st, steps, loads).0 != NoChatroom
    decreases |steps|
  {
    if steps != [] {
      match Iterate(st, steps[0], loads)
      case (None, st') => RunNeverNoChatroom(st', steps[1..], loads);
      case (Some(end), st') =>
    }
  }

  /** An iteration on a received handled event hands it to storage; a False
      from storage is only logged and the loop goes on. */
  lemma StoreFalseContinues(st: LoopState, step: Step, loads: Loads, message: Json, event: KickEvent)
    requires KeepaliveStep(st.keepalive, step.now, step.ping).KeepGoing?
    requires step.received.Frame? && loads(step.received.raw) == Some(message)
    requires HandleWebsocketMessage(message, loads) == Returned(Parsed(event))
    requires step.store == NotStored
    ensures Iterate(st, step, loads).0.None?
    ensures Iterate(st, step, loads).1.handed == st.handed + [event]
  {
  }

  /** How a step's received frame was classified, when it was a frame that
      decoded and classified without raising. */
  function FrameDisposition(step: Step, loads: Loads): Option<Disposition> {
    if !step.received.Frame? then None
    else
      match loads(step.received.raw)
      case None => None
      case Some(message) =>
        match HandleWebsocketMessage(message, loads)
        case Raised(_) => None
        case Returned(d) => Some(d)
  }

  function StepEvents(step: Step, loads: Loads): seq<KickEvent> {
    var d := FrameDisposition(step, loads);
    if d.Some? && d.value.Parsed? then [d.value.event] else []
  }

  function StepUnhandled(step: Step, loads: Loads): seq<Json> {
    var d := FrameDisposition(step, loads);
    if d.Some? && d.value.Unhandled? then [d.value.message] else []
  }

  /** The events a sequence of iterations hands to storage, in arrival order,
      when none of them ends the loop. */
  function ParsedEvents(steps: seq<Step>, loads: Loads): seq<KickEvent>
    decreases |steps|
  {
    if steps == [] then [] else StepEvents(steps[0], loads) + ParsedEvents(steps[1..], loads)
  }

  /** The messages a sequence of iterations appends to the overflow log, in
      arrival order, when none of them ends the loop. */
  function UnhandledMessages(steps: seq<Step>, loads: Loads): seq<Json>
    decreases |steps|
  {
    if steps == [] then [] else StepUnhandled(steps[0], loads) + UnhandledMessages(steps[1..], loads)
  }

  /** An iteration that does not end the loop appends its step's event to
      the storage log and its unknown message to the overflow log, and nothing else. */
  lemma IterationAppends(st: LoopState, step: Step, loads: Loads)
    requires Iterate(st, step, loads).0.None?
    ensures Iterate(st, step, loads).1.handed == st.handed + StepEvents(step, loads)
    ensures Iterate(st, step, loads).1.overflow == st.overflow + StepUnhandled(step, loads)
  {
  }

  /** A session that runs until the stop flag has handed every handled event
      to storage and logged every other unknown message, each once and in
      the order received. */
  lemma {:induction false} ArrivalOrder(st: LoopState, steps: seq<Step>, loads: Loads)
    ensures var (end, st') := Run(st, steps, loads);
            end == StopRequested ==>
              st'.handed == st.handed + ParsedEvents(steps, loads)
              && st'.overflow == st.overflow + UnhandledMessages(steps, loads)
    decreases |steps|
  {
    if steps != [] {
      var (next, st1) := Iterate(st, steps[0], loads);
      if next.None? {
        var rest := steps[1..];
        assert Run(st, steps, loads) == Run(st1, rest, loads);
        var (end, st') := Run(st1, rest, loads);
        if end == StopRequested {
          var e0, u0 := StepEvents(steps[0], loads), StepUnhandled(steps[0], loads);
          assert st1.handed == st.handed + e0 && st1.overflow == st.overflow + u0 by {
            IterationAppends(st, steps[0], loads);
          }
          assert st'.handed == st1.handed + ParsedEvents(rest, loads)
                 && st'.overflow == st1.overflow + UnhandledMessages(rest, loads) by {
            ArrivalOrder(st1, rest, loads);
          }
          assert ParsedEvents(steps, loads) == e0 + ParsedEvents(rest, loads);
          assert UnhandledMessages(steps, loads) == u0 + UnhandledMessages(rest, loads);
          assert st.handed + e0 + ParsedEvents(rest, loads) == st.handed + (e0 + ParsedEvents(rest, loads));
          assert st.overflow + u0 + UnhandledMessages(rest, loads) == st.overflow + (u0 + UnhandledMessages(rest, loads));
        }
      }
    }
  }

  /** The logs only grow: what was written before an iteration stays. */
  lemma {:induction false} LogsOnlyGrow(st: LoopState, steps: seq<Step>, loads: Loads)
    ensures var st' := Run(st, steps, loads).1;
            |st.handed| <= |st'.handed| && |st.overflow| <= |st'.overflow|
            && st'.handed[..|st.handed|] == st.handed && st'.overflow[..|st.overflow|] == st.overflow
            && |st'.handed| <= |st.handed| + |steps| && |st'.overflow| <= |st.overflow| + |steps|
    decreases |steps|
  {
    if steps != [] {
      match Iterate(st, steps[0], loads)
      case (None, st1) =>
        LogsOnlyGrow(st1, steps[1..], loads);
        var st' := Run(st1, steps[1..], loads).1;
        assert st1.handed[..|st.handed|] == st.handed;
        assert st1.overflow[..|st.overflow|] == st.overflow;
        assert |st1.handed| <= |st.handed| + 1 && |st1.overflow| <= |st.overflow| + 1;
        assert st'.handed[..|st.handed|] == st'.handed[..|st1.handed|][..|st.handed|];
        assert st'.overflow[..|st.overflow|] == st'.overflow[..|st1.overflow|][..|st.overflow|];
      case (Some(_), st1) =>
        assert st1.handed[..|st.handed|] == st.handed;
        assert st1.overflow[..|st.overflow|] == st.overflow;
    }
  }
}
