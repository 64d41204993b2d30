/** Model of daemon/server.go: the daemon's package-level state (the capture
    session, the current microphone configuration, the reported state and
    error, the set of open WebSocket connections), `broadcastState`, the
    greeting a new connection receives, and the per-message dispatch of
    `handleWebSocket`'s read loop. Every message is handled as one atomic step;
    JSON decoding is replaced by the decoded form of each message. */
module Server {
  import opened Audio

  /** `MicConfig` has the same fields as `AudioConfig` (the source converts one
      into the other directly). */
  type MicConfig = AudioConfig

  /** The zero value of `MicConfig`, which `currentConfig` starts as. */
  const ZeroConfig: MicConfig := AudioConfig(0, 0, 0, 0.0)

  /** The identity of one open WebSocket connection. */
  type ConnId = nat

  /** The three values `micState` takes: "idle", "listening" and "error". */
  datatype MicState = Idle | Listening | Error

  const ErrInvalidCommand: string := "Invalid command"
  const ErrInvalidConfig: string := "Invalid config"
  const ErrAudioStart: string := "Audio start error"
  const ErrReadError: string := "WebSocket read error"

  /** The `payload` of a state message. */
  datatype StatePayload = StatePayload(state: MicState, config: MicConfig, error: string)

  /** The `payload` field of an outbound envelope: a state, or JSON `null`. */
  datatype OutPayload = StateBody(body: StatePayload) | Null

  /** An outbound text frame `{type, request, payload}`. */
  datatype Envelope = Envelope(kind: string, request: string, payload: OutPayload)

  /** `{type:"state", request:"mic", payload:p}`. */
  function StateMessage(p: StatePayload): Envelope
  {
    Envelope("state", "mic", StateBody(p))
  }

  /** `{type:"pong", request:"", payload:null}`. */
  const PongMessage: Envelope := Envelope("pong", "", Null)

  /** One text frame written to one connection. */
  datatype Delivery = Delivery(to: ConnId, msg: Envelope)

  /** The `payload` of an inbound command: absent (empty raw message), a
      payload that unmarshals into a `MicConfig`, or one that does not. */
  datatype CommandPayload = Absent | Decoded(cfg: MicConfig) | Undecodable

  /** What one call of `conn.ReadMessage()` can yield, after JSON decoding. */
  datatype Inbound =
    | ReadError
    | NonText
    | BadJson
    | Command(kind: string, request: string, payload: CommandPayload)

  /** A running capture session: its chunks go to the connection that started
      it, framed with the configuration it was started with. */
  datatype AudioSession = AudioSession(owner: ConnId, config: AudioConfig)

  /** The daemon's package-level state. */
  datatype DaemonState = DaemonState(
    session: Option<AudioSession>,
    config: MicConfig,
    state: MicState,
    error: string,
    conns: set<ConnId>)

  /** The state at process start: no session, zero config, "idle", no error, no connections. */
  const Initial: DaemonState := DaemonState(None, ZeroConfig, Idle, "", {})

  function Snapshot(d: DaemonState): StatePayload
  {
    StatePayload(d.state, d.config, d.error)
  }

  /** One identical state message to each connection in `conns`. */
  function Broadcast(conns: set<ConnId>, p: StatePayload): (r: set<Delivery>)
    ensures forall dl | dl in r :: dl.to in conns && dl.msg == StateMessage(p)
    ensures forall c | c in conns :: Delivery(c, StateMessage(p)) in r
  {
    set c | c in conns :: Delivery(c, StateMessage(p))
  }

  /** The result of one step: the new state, the frames written, and whether
      the handling connection's read loop goes on. */
  datatype Outcome = Outcome(next: DaemonState, sent: set<Delivery>, open: bool)

  /** A new connection is registered and greeted with the current state. */
  function Connect(d: DaemonState, c: ConnId): (r: Outcome)
    ensures r.open && c in r.next.conns && d.conns <= r.next.conns
    ensures Snapshot(r.next) == Snapshot(d) && r.next.session == d.session
    ensures forall dl | dl in r.sent :: dl.to == c
  {
    Outcome(d.(conns := d.conns + {c}), {Delivery(c, StateMessage(Snapshot(d)))}, true)
  }

  /** Set an error state and tell every connection. */
  function Fail(d: DaemonState, error: string): (r: Outcome)
    ensures r.open && r.next.state == Error && r.next.error == error
    ensures r.next.session == d.session && r.next.config == d.config && r.next.conns == d.conns
    ensures forall c | c in d.conns :: Delivery(c, StateMessage(Snapshot(r.next))) in r.sent
  {
    var e := d.(state := Error, error := error);
    Outcome(e, Broadcast(e.conns, Snapshot(e)), true)
  }

  /** `mic-listen` from connection `c`; `startOk` is whether starting the
      capture process succeeds. A config whose read window is negative makes
      `make` panic inside `StartAudioStream` before anything is started; the
      HTTP server recovers the handler's panic, and the deferred clean-up
      removes the connection. */
  function Listen(d: DaemonState, c: ConnId, payload: CommandPayload, startOk: bool): (r: Outcome)
    ensures d.session.Some? ==> r.next.session == d.session
    ensures r.next.session.Some? && d.session.None? ==>
      r.next.session.value.owner == c && r.next.session.value.config == r.next.config
    ensures r.next.conns == if r.open then d.conns else d.conns - {c}
    ensures !r.open ==> r.sent == {}
  {
    if payload.Undecodable? then Fail(d, ErrInvalidConfig)
    else
      var d1 := if payload.Decoded? then d.(config := payload.cfg) else d;
      if d1.session.None? && ReadWindowSize(d1.config) < 0 then
        Outcome(d1.(conns := d1.conns - {c}), {}, false)
      else if d1.session.None? then
        var d2 :=
          if startOk then d1.(session := Some(AudioSession(c, d1.config)), state := Listening, error := "")
          else d1.(session := None, state := Error, error := ErrAudioStart);
        Outcome(d2, Broadcast(d2.conns, Snapshot(d2)), true)
      else
        Outcome(d1, {}, true)
  }

  /** `mic-stop`. */
  function Stop(d: DaemonState): (r: Outcome)
    ensures r.open && r.next.session.None? && r.next.config == d.config && r.next.conns == d.conns
    ensures d.session.Some? ==> r.next.state == Idle && r.next.error == ""
  {
    if d.session.Some? then
      var d1 := d.(session := None, state := Idle, error := "");
      Outcome(d1, Broadcast(d1.conns, Snapshot(d1)), true)
    else
      Outcome(d, {}, true)
  }

  /** `mic-config`. An absent payload fails to unmarshal like a malformed one. */
  function Configure(d: DaemonState, payload: CommandPayload): (r: Outcome)
    ensures r.open && r.next.session == d.session && r.next.conns == d.conns
    ensures r.next.config != d.config ==> d.session.None? && payload == Decoded(r.next.config)
  {
    if d.session.Some? then Outcome(d, {}, true)
    else if !payload.Decoded? then Fail(d, ErrInvalidConfig)
    else
      var d1 := d.(config := payload.cfg);
      Outcome(d1, Broadcast(d1.conns, Snapshot(d1)), true)
  }

  /** One iteration of the read loop of connection `c`. */
  function Step(d: DaemonState, c: ConnId, msg: Inbound, startOk: bool): (r: Outcome)
    ensures r.next.conns == if r.open then d.conns else d.conns - {c}
    ensures msg.ReadError? ==> !r.open
    ensures r.next.session != d.session ==> msg.Command? && msg.kind == "control"
  {
    match msg
    case ReadError =>
      var e := d.(state := Error, error := ErrReadError);
      Outcome(e.(conns := e.conns - {c}), Broadcast(e.conns, Snapshot(e)), false)
    case NonText => Outcome(d, {}, true)
    case BadJson => Fail(d, ErrInvalidCommand)
    case Command(kind, request, payload) =>
      if kind == "control" then
        if request == "mic-listen" then Listen(d, c, payload, startOk)
        else if request == "mic-stop" then Stop(d)
        else if request == "mic-config" then Configure(d, payload)
        else if request == "mic-state" then Outcome(d, {Delivery(c, StateMessage(Snapshot(d)))}, true)
        else Outcome(d, {}, true)
      else if kind == "ping" then Outcome(d, {Delivery(c, PongMessage)}, true)
      else Outcome(d, {}, true)
  }

  // ---------------------------------------------------------------------------
  // The package state, updated in place
  // ---------------------------------------------------------------------------

  /** The package-level variables of server.go and the code that updates them. */
  class Daemon {
    var audioSession: Option<AudioSession>
    var currentConfig: MicConfig
    var micState: MicState
    var micError: string
    var connections: set<ConnId>

    constructor ()
      ensures State() == Initial
    {
      audioSession := None;
      currentConfig := ZeroConfig;
      micState := Idle;
      micError := "";
      connections := {};
    }

    function State(): DaemonState
      reads this
    {
      DaemonState(audioSession, currentConfig, micState, micError, connections)
    }

    function CurrentPayload(): (p: StatePayload)
      reads this
      ensures p == Snapshot(State())
    {
      StatePayload(micState, currentConfig, micError)
    }

    /** `broadcastState`: write the current state to every open connection,
        one connection at a time; nothing is changed. */
    method BroadcastState() returns (sent: set<Delivery>)
      ensures sent == Broadcast(connections, Snapshot(State()))
      ensures forall dl | dl in sent :: dl.to in connections
      ensures forall c | c in connections :: Delivery(c, StateMessage(Snapshot(State()))) in sent
    {
      var msg := StateMessage(CurrentPayload());
      sent := {};
      var pending := connections;
      while pending != {}
        invariant pending <= connections
        invariant sent == set c | c in connections - pending :: Delivery(c, msg)
        decreases pending
      {
        var conn :| conn in pending;
        sent := sent + {Delivery(conn, msg)};
        pending := pending - {conn};
      }
    }

    /** The start of `handleWebSocket`: register the connection and greet it. */
    method Accept(c: ConnId) returns (sent: set<Delivery>)
      requires c !in connections
      modifies this
      ensures Outcome(State(), sent, true) == Connect(old(State()), c)
    {
      connections := connections + {c};
      sent := {Delivery(c, StateMessage(CurrentPayload()))};
    }

    /** One iteration of `handleWebSocket`'s read loop for connection `c`;
        `startOk` stands for the outcome of `StartAudioStream` when it returns.
        When `open` is false the handler has ended (its loop broke, or it
        panicked) and the deferred clean-up has removed `c`. */
    method HandleMessage(c: ConnId, msg: Inbound, startOk: bool) returns (sent: set<Delivery>, open: bool)
      requires c in connections
      modifies this
      ensures Outcome(State(), sent, open) == Step(old(State()), c, msg, startOk)
    {
      sent, open := {}, true;
      match msg {
        case ReadError =>
          micState := Error;
          micError := ErrReadError;
          sent := BroadcastState();
          open := false;
          connections := connections - {c};
        case NonText =>
        case BadJson =>
          micState := Error;
          micError := ErrInvalidCommand;
          sent := BroadcastState();
        case Command(kind, request, payload) =>
          if kind == "control" {
            if request == "mic-listen" {
              if payload.Undecodable? {
                micState := Error;
                micError := ErrInvalidConfig;
                sent := BroadcastState();
              } else {
                if payload.Decoded? {
                  currentConfig := payload.cfg;
                }
                if audioSession.None? && ReadWindowSize(currentConfig) < 0 {
                  open := false;
                  connections := connections - {c};
                } else if audioSession.None? {
                  if startOk {
                    audioSession := Some(AudioSession(c, currentConfig));
                    micState := Listening;
                    micError := "";
                  } else {
                    audioSession := None;
                    micState := Error;
                    micError := ErrAudioStart;
                  }
                  sent := BroadcastState();
                }
              }
            } else if request == "mic-stop" {
              if audioSession.Some? {
                audioSession := None;
                micState := Idle;
                micError := "";
                sent := BroadcastState();
              }
            } else if request == "mic-config" {
              if audioSession.None? {
                if payload.Decoded? {
                  currentConfig := payload.cfg;
                  sent := BroadcastState();
                } else {
                  micState := Error;
                  micError := ErrInvalidConfig;
                  sent := BroadcastState();
                }
              }
            } else if request == "mic-state" {
              sent := {Delivery(c, StateMessage(CurrentPayload()))};
            }
          } else if kind == "ping" {
            sent := {Delivery(c, PongMessage)};
          }
      }
    }
  }

  // ---------------------------------------------------------------------------
  // Properties of the transition table
  // ---------------------------------------------------------------------------

  /** A new connection joins the set and is first sent the current state. */
  lemma ConnectGreets(d: DaemonState, c: ConnId)
    ensures Connect(d, c).next.conns == d.conns + {c}
    ensures Connect(d, c).sent == {Delivery(c, StateMessage(StatePayload(d.state, d.config, d.error)))}
    ensures Connect(d, c).next.(conns := d.conns) == d
  {
  }

  /** `mic-listen` with no running session: a decoded payload replaces the
      current config and an absent one keeps it. If that config's read window
      is negative, the handler panics: the connection is dropped and nothing
      else changes or is sent. Otherwise the start either succeeds (a session
      bound to the requesting connection, "listening", no error) or fails (no
      session, "error", "Audio start error"), and either way exactly one state
      broadcast goes to every open connection. */
  lemma ListenWithoutSession(d: DaemonState, c: ConnId, p: CommandPayload, startOk: bool)
    requires d.session.None? && !p.Undecodable?
    ensures var o := Step(d, c, Command("control", "mic-listen", p), startOk);
      o.next.config == (if p.Decoded? then p.cfg else d.config)
    ensures var o := Step(d, c, Command("control", "mic-listen", p), startOk);
      ReadWindowSize(o.next.config) < 0 ==>
        o.next == d.(config := o.next.config, conns := d.conns - {c}) && o.sent == {} && !o.open
    ensures var o := Step(d, c, Command("control", "mic-listen", p), startOk);
      ReadWindowSize(o.next.config) >= 0 ==>
        (startOk ==> o.next.session == Some(AudioSession(c, o.next.config)) &&
                     o.next.state == Listening && o.next.error == "") &&
        (!startOk ==> o.next.session.None? && o.next.state == Error && o.next.error == ErrAudioStart) &&
        o.next.conns == d.conns && o.open &&
        o.sent == Broadcast(d.conns, Snapshot(o.next))
  {
  }

  /** A negative sample rate with no session running: the config is stored,
      the handler panics before starting anything, and the connection goes
      without any state message. */
  lemma NegativeRateDropsConnection(d: DaemonState, c: ConnId, startOk: bool)
    requires d.session.None?
    ensures var cfg := AudioConfig(-8000, 1, 2, 1.0);
      var o := Step(d, c, Command("control", "mic-listen", Decoded(cfg)), startOk);
      o.next == d.(config := cfg, conns := d.conns - {c}) && o.sent == {} && !o.open
  {
    ReadWindowWholeSeconds(AudioConfig(-8000, 1, 2, 1.0), 1);
  }

  /** `mic-listen` while a session runs starts nothing, keeps the session, the
      state and the error, and broadcasts nothing, whatever a start would do;
      a decoded payload still replaces the current config. */
  lemma ListenWithSession(d: DaemonState, c: ConnId, p: CommandPayload, startOk: bool)
    requires d.session.Some? && !p.Undecodable?
    ensures var o := Step(d, c, Command("control", "mic-listen", p), startOk);
      o.next == d.(config := if p.Decoded? then p.cfg else d.config) &&
      o.sent == {} && o.open
  {
  }

  /** A `mic-listen` payload that does not unmarshal reports "Invalid config"
      to everyone and leaves the config and the session alone. */
  lemma ListenBadPayload(d: DaemonState, c: ConnId, startOk: bool)
    ensures var o := Step(d, c, Command("control", "mic-listen", Undecodable), startOk);
      o.next == d.(state := Error, error := ErrInvalidConfig) &&
      o.sent == Broadcast(d.conns, StatePayload(Error, d.config, ErrInvalidConfig)) && o.open
  {
  }

  /** `mic-stop` ends a running session and reports "idle" to everyone;
      without a session it does nothing at all. */
  lemma StopSemantics(d: DaemonState, c: ConnId, p: CommandPayload, startOk: bool)
    ensures var o := Step(d, c, Command("control", "mic-stop", p), startOk);
      (d.session.Some? ==>
        o.next == d.(session := None, state := Idle, error := "") &&
        o.sent == Broadcast(d.conns, StatePayload(Idle, d.config, ""))) &&
      (d.session.None? ==> o.next == d && o.sent == {}) &&
      o.open
  {
  }

  /** `mic-config` is ignored while a session runs; otherwise a decoded payload
      replaces the config (state and error untouched) and anything else
      reports "Invalid config"; both are broadcast. */
  lemma ConfigureSemantics(d: DaemonState, c: ConnId, p: CommandPayload, startOk: bool)
    ensures var o := Step(d, c, Command("control", "mic-config", p), startOk);
      (d.session.Some? ==> o.next == d && o.sent == {}) &&
      (d.session.None? && p.Decoded? ==>
        o.next == d.(config := p.cfg) &&
        o.sent == Broadcast(d.conns, StatePayload(d.state, p.cfg, d.error))) &&
      (d.session.None? && !p.Decoded? ==>
        o.next == d.(state := Error, error := ErrInvalidConfig) &&
        o.sent == Broadcast(d.conns, StatePayload(Error, d.config, ErrInvalidConfig))) &&
      o.open
  {
  }

  /** `mic-state` and `ping` answer the sender alone; a non-text frame, an
      unknown type and an unknown control request produce nothing; none of
      them changes the state. */
  lemma RepliesChangeNothing(d: DaemonState, c: ConnId, msg: Inbound, startOk: bool)
    requires msg.NonText? ||
             (msg.Command? && msg.kind != "control") ||
             (msg.Command? && msg.kind == "control" &&
              msg.request !in {"mic-listen", "mic-stop", "mic-config"})
    ensures var o := Step(d, c, msg, startOk);
      o.next == d && o.open &&
      o.sent == (if msg.NonText? then {}
                 else if msg.kind == "ping" then {Delivery(c, PongMessage)}
                 else if msg.kind == "control" && msg.request == "mic-state"
                 then {Delivery(c, StateMessage(StatePayload(d.state, d.config, d.error)))}
                 else {})
  {
  }

  /** Unparseable JSON reports "Invalid command" to everyone and keeps the
      connection; a failed read reports "WebSocket read error" to everyone,
      the failing connection included, and then drops that connection. The
      session, if any, is left running. */
  lemma ErrorExits(d: DaemonState, c: ConnId, startOk: bool)
    ensures var o := Step(d, c, BadJson, startOk);
      o.next == d.(state := Error, error := ErrInvalidCommand) && o.open &&
      o.sent == Broadcast(d.conns, StatePayload(Error, d.config, ErrInvalidCommand))
    ensures var o := Step(d, c, ReadError, startOk);
      o.next == d.(state := Error, error := ErrReadError, conns := d.conns - {c}) && !o.open &&
      o.sent == Broadcast(d.conns, StatePayload(Error, d.config, ErrReadError))
  {
  }

  /** Every frame of a step goes to a connection that was open when the step began. */
  lemma RecipientsAreOpen(d: DaemonState, c: ConnId, msg: Inbound, startOk: bool)
    requires c in d.conns
    ensures forall dl | dl in Step(d, c, msg, startOk).sent :: dl.to in d.conns
  {
  }

  /** Whenever a step changes the reported state or the session, every open
      connection is told the new state, with one exception: `mic-listen` with
      a decoded payload changes the reported config silently while a session
      runs, or when the new config's negative read window makes the handler
      panic. */
  lemma ChangesAreBroadcast(d: DaemonState, c: ConnId, msg: Inbound, startOk: bool)
    ensures var o := Step(d, c, msg, startOk);
      (Snapshot(o.next) != Snapshot(d) || o.next.session != d.session) ==>
        o.sent == Broadcast(d.conns, Snapshot(o.next)) ||
        (msg.Command? && msg.kind == "control" && msg.request == "mic-listen" && msg.payload.Decoded? &&
         (d.session.Some? || ReadWindowSize(msg.payload.cfg) < 0))
  {
  }

  /** The config a running session frames its chunks with and the config the
      daemon reports can drift apart: a `mic-listen` with a new config while a
      session runs updates the reported config, not the session. */
  lemma ReportedConfigDrifts(d: DaemonState, c: ConnId, cfg: MicConfig, startOk: bool)
    requires d.session.Some? && d.session.value.config != cfg
    ensures var o := Step(d, c, Command("control", "mic-listen", Decoded(cfg)), startOk);
      o.next.session == d.session && o.next.config == cfg &&
      o.next.session.value.config != o.next.config && o.sent == {}
  {
  }

  // ---------------------------------------------------------------------------
  // Invariants over runs
  // ---------------------------------------------------------------------------

  /** The error text is one of the source's messages, non-empty exactly in the
      "error" state, and "listening" is only reported while a session exists. */
  predicate Consistent(d: DaemonState)
  {
    (d.state == Listening ==> d.session.Some?) &&
    (d.state == Error <==> d.error != "") &&
    d.error in {"", ErrInvalidCommand, ErrInvalidConfig, ErrAudioStart, ErrReadError}
  }

  /** What can happen to the daemon: a connection is accepted, or one message
      is handled on an open connection (`startOk`: whether a start would succeed). */
  datatype Event = Connected(conn: ConnId) | Received(conn: ConnId, msg: Inbound, startOk: bool)

  function Apply(d: DaemonState, e: Event): DaemonState
  {
    match e
    case Connected(c) => Connect(d, c).next
    case Received(c, msg, ok) => Step(d, c, msg, ok).next
  }

  /** The state after handling `events` in order. */
  function Run(d: DaemonState, events: seq<Event>): DaemonState
    decreases |events|
  {
    if events == [] then d else Run(Apply(d, events[0]), events[1..])
  }

  predicate IsStop(e: Event)
  {
    e.Received? && e.msg.Command? && e.msg.kind == "control" && e.msg.request == "mic-stop"
  }

  lemma InitialConsistent()
    ensures Consistent(Initial)
  {
  }

  /** Every single step keeps the daemon consistent. */
  lemma ApplyConsistent(d: DaemonState, e: Event)
    requires Consistent(d)
    ensures Consistent(Apply(d, e))
  {
  }

  /** Any run from a consistent state ends in a consistent state. */
  lemma {:induction false} RunConsistent(d: DaemonState, events: seq<Event>)
    requires Consistent(d)
    ensures Consistent(Run(d, events))
    decreases |events|
  {
    if events != [] {
      ApplyConsistent(d, events[0]);
      RunConsistent(Apply(d, events[0]), events[1..]);
    }
  }

  /** Only `mic-stop` ends or replaces a running session: no other event,
      from any connection, touches it. */
  lemma {:induction false} SessionSurvivesUntilStop(d: DaemonState, events: seq<Event>)
    requires d.session.Some?
    requires forall i | 0 <= i < |events| :: !IsStop(events[i])
    ensures Run(d, events).session == d.session
    decreases |events|
  {
    if events != [] {
      var d1 := Apply(d, events[0]);
      assert !IsStop(events[0]);
      assert d1.session == d.session;
      SessionSurvivesUntilStop(d1, events[1..]);
    }
  }
}
