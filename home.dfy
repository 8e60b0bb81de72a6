/** The controller page itself (src/pages/index.tsx, component `Home`):
    the startup check of the shared secret, the guarded `send`, `moveHead`,
    `drive`, `fire`, the keyboard listeners and the socket's `open` handler,
    over one object that holds the page's state.

    The socket is modelled by its readyState and the log of frames handed to
    it; the error toast by a returned `unavailable` flag.

    In the page, the keyboard listeners are installed by an effect that
    re-runs only when `socket` changes, so they call the `moveHead` of the
    render that set the socket. That `moveHead` is memoised on `headAngle`
    alone, so it is still the first render's, whose `send` sees no socket.
    In the page, therefore, the `t` and `g` keys never transmit a frame,
    always show the "not available" error, and always set the angle to 1020
    or 980; the first head-button click after load sends nothing either.
    This model keeps one coherent state instead: every operation reads the
    current angle and socket, so a head key on an open socket sends a head
    frame here. */
module Home {
  import opened Options
  import opened Commands
  import opened HeadAngle
  import opened Keyboard

  /** The fatal startup error: the secret is not configured. */
  datatype ConfigError = SecretNotSet

  /** The module-load check: a missing secret aborts startup; any string,
      the empty one included, is accepted. */
  function LoadSecret(env: Option<string>): (r: Result<string, ConfigError>)
    ensures r.Failure? <==> env.None?
    ensures r.Success? ==> r.value == env.value
  {
    match env
    case None => Failure(SecretNotSet)
    case Some(s) => Success(s)
  }

  /** The WebSocket readyState values. */
  datatype ReadyState = Connecting | Open | Closing | Closed

  /** The numbers the browser reports for them; `send` compares with 1. */
  function ReadyStateCode(s: ReadyState): (code: int)
    ensures 0 <= code <= 3
    ensures code == 1 <==> s == Open
  {
    match s
    case Connecting => 0
    case Open => 1
    case Closing => 2
    case Closed => 3
  }

  /** A frame handed to the socket: the raw secret string, or a serialised
      payload. */
  datatype Frame = Text(text: string) | Json(fields: Record)

  /** The command an action sends when the head angle before it is `angle`
      (the encoder's `(action, angle) -> command` mapping). */
  function ActionCommand(action: Action, angle: int): (c: Command)
  {
    match action
    case DriveAction(dir) => DriveCommand(dir)
    case FireAction => FIRE_COMMAND
    case HeadAction(offset) => Head(NewAngle(angle, offset))
  }

  /** The head angle after an action. */
  function AngleAfter(action: Action, angle: int): (r: int)
  {
    if action.HeadAction? then NewAngle(angle, action.offset) else angle
  }

  /** Only head actions depend on, or change, the head angle; a head command
      carries exactly the angle the tracker stores, which is in range; and
      every command an action produces reads back from its payload. */
  lemma ActionCommandFacts(action: Action, angle1: int, angle2: int)
    ensures !action.HeadAction? ==>
      ActionCommand(action, angle1) == ActionCommand(action, angle2) && AngleAfter(action, angle1) == angle1
    ensures action.HeadAction? ==>
      ActionCommand(action, angle1) == Head(AngleAfter(action, angle1))
      && 0 <= AngleAfter(action, angle1) < ANGLE_RANGE
    ensures FromRecord(ToRecord(ActionCommand(action, angle1))) == Some(ActionCommand(action, angle1))
  {
    RecordRoundTrip(ActionCommand(action, angle1));
  }

  /** The frame log of one socket: if anything was sent, the secret went
      first, and every later frame is a payload the vehicle can read as a
      command. */
  predicate AuthenticatedLog(sent: seq<Frame>, secret: string)
  {
    (sent != [] ==> sent[0] == Text(secret))
    && forall i :: 0 < i < |sent| ==> sent[i].Json? && FromRecord(sent[i].fields).Some?
  }

  /** Appending a command's payload to an authenticated, non-empty log
      keeps it authenticated. */
  lemma AppendCommandKeepsLog(sent: seq<Frame>, secret: string, c: Command)
    requires AuthenticatedLog(sent, secret) && sent != []
    ensures AuthenticatedLog(sent + [Json(ToRecord(c))], secret)
  {
    RecordRoundTrip(c);
  }

  class Controller {
    /** The shared secret, validated once at startup. */
    const secret: string
    /** The page's `socket`: None until the mount effect creates it, then
        its readyState. */
    var socket: Option<ReadyState>
    /** The page's `headAngle` state. */
    var headAngle: int
    /** The `keyDown` latch of the keyboard listeners currently installed. */
    var keyDown: bool
    /** Every frame handed to the socket, in order. */
    var sent: seq<Frame>

    /** The state invariant: the angle is in range, nothing goes out before
        the secret, and nothing at all goes out before the socket opens. */
    ghost predicate Valid()
      reads this
    {
      && 0 <= headAngle < ANGLE_RANGE
      && AuthenticatedLog(sent, secret)
      && (socket == None || socket == Some(Connecting) ==> sent == [])
      && (socket == Some(Open) ==> sent != [])
    }

    /** The guard of `send`: a socket exists and its readyState is 1. */
    predicate Writable()
      reads this
    {
      socket.Some? && ReadyStateCode(socket.value) == 1
    }

    /** The first render: no socket, angle 1000, latch released. */
    constructor (secret: string)
      ensures Valid()
      ensures this.secret == secret && socket == None
      ensures headAngle == INITIAL_ANGLE && !keyDown && sent == []
    {
      this.secret := secret;
      socket := None;
      headAngle := INITIAL_ANGLE;
      keyDown := false;
      sent := [];
    }

    /** The mount effect: a new socket starts connecting. Setting it
        re-runs the keyboard effect, which installs listeners with a fresh,
        released latch. */
    method Mount()
      requires Valid() && socket == None
      modifies this`socket, this`keyDown
      ensures Valid()
      ensures socket == Some(Connecting) && !keyDown
    {
      socket := Some(Connecting);
      keyDown := false;
    }

    /** The socket's `open` event: the socket becomes writable and the raw
        secret is sent, as the first frame and only this once. */
    method TransportOpen()
      requires Valid()
      modifies this`socket, this`sent
      ensures Valid()
      ensures old(socket) == Some(Connecting) ==> socket == Some(Open) && sent == [Text(secret)]
      ensures old(socket) != Some(Connecting) ==> socket == old(socket) && sent == old(sent)
    {
      if socket == Some(Connecting) {
        socket := Some(Open);
        sent := sent + [Text(secret)];
      }
    }

    /** The transport closes (the browser sets readyState to CLOSED); the
        page has no handler for it and never reconnects. */
    method TransportClose()
      requires Valid()
      modifies this`socket
      ensures Valid()
      ensures socket == if old(socket).Some? then Some(Closed) else None
    {
      if socket.Some? {
        socket := Some(Closed);
      }
    }

    /** `send(payload)`: transmits one serialised payload when the socket
        is writable; otherwise transmits nothing and reports the error. Two
        sends of one payload are two frames. */
    method Send(cmd: Command) returns (unavailable: bool)
      requires Valid()
      modifies this`sent
      ensures Valid()
      ensures unavailable <==> !Writable()
      ensures sent == if unavailable then old(sent) else old(sent) + [Json(ToRecord(cmd))]
    {
      if socket.None? || ReadyStateCode(socket.value) != 1 {
        unavailable := true;
        return;
      }
      AppendCommandKeepsLog(sent, secret, cmd);
      sent := sent + [Json(ToRecord(cmd))];
      unavailable := false;
    }

    /** `moveHead(offset)`: stores the new angle, even when the send is
        then rejected, and sends one head command carrying that angle. */
    method MoveHead(offset: int) returns (unavailable: bool)
      requires Valid()
      modifies this`headAngle, this`sent
      ensures Valid()
      ensures headAngle == NewAngle(old(headAngle), offset)
      ensures unavailable <==> !Writable()
      ensures sent == old(sent) + (if unavailable then [] else [Json(ToRecord(Head(headAngle)))])
    {
      var angle := NewAngle(headAngle, offset);
      headAngle := angle;
      unavailable := Send(Head(angle));
    }

    /** `drive(direction)`: sends the direction's drive command. */
    method Drive(dir: Direction) returns (unavailable: bool)
      requires Valid()
      modifies this`sent
      ensures Valid()
      ensures unavailable <==> !Writable()
      ensures sent == old(sent) + (if unavailable then [] else [Json(ToRecord(DriveCommand(dir)))])
    {
      unavailable := Send(DriveCommand(dir));
    }

    /** `fire()`: sends the fire command. */
    method Fire() returns (unavailable: bool)
      requires Valid()
      modifies this`sent
      ensures Valid()
      ensures unavailable <==> !Writable()
      ensures sent == old(sent) + (if unavailable then [] else [Json(ToRecord(FIRE_COMMAND))])
    {
      unavailable := Send(FIRE_COMMAND);
    }

    /** Runs one action, as a button click or a case of the key switch does. */
    method Dispatch(action: Action) returns (unavailable: bool)
      requires Valid()
      modifies this`headAngle, this`sent
      ensures Valid()
      ensures headAngle == AngleAfter(action, old(headAngle))
      ensures unavailable <==> !Writable()
      ensures sent == old(sent) + (if unavailable then [] else [Json(ToRecord(ActionCommand(action, old(headAngle))))])
    {
      match action
      case DriveAction(dir) =>
        unavailable := Drive(dir);
      case FireAction =>
        unavailable := Fire();
      case HeadAction(offset) =>
        unavailable := MoveHead(offset);
    }

    /** The `keydown` listener: ignored while latched; otherwise sets the
        latch, even for an unbound key, and runs the key's action if any. */
    method OnKeyDown(key: string) returns (dispatched: Option<Action>, unavailable: bool)
      requires Valid()
      modifies this`keyDown, this`headAngle, this`sent
      ensures Valid()
      ensures (keyDown, dispatched) == LatchStep(old(keyDown), KeyDown(key))
      ensures dispatched.None? ==> !unavailable && headAngle == old(headAngle) && sent == old(sent)
      ensures dispatched.Some? ==>
        && headAngle == AngleAfter(dispatched.value, old(headAngle))
        && (unavailable <==> !Writable())
        && sent == old(sent) + (if unavailable then [] else [Json(ToRecord(ActionCommand(dispatched.value, old(headAngle))))])
    {
      unavailable := false;
      if keyDown {
        dispatched := None;
        return;
      }
      keyDown := true;
      dispatched := KeyAction(key);
      if dispatched.Some? {
        unavailable := Dispatch(dispatched.value);
      }
    }

    /** The `keyup` listener: any release clears the latch. */
    method OnKeyUp(key: string)
      requires Valid()
      modifies this`keyDown
      ensures Valid()
      ensures (keyDown, None) == LatchStep(old(keyDown), KeyUp(key))
    {
      keyDown := false;
    }
  }

  /** Startup: a missing secret refuses to start; otherwise the first render. */
  method Start(env: Option<string>) returns (r: Result<Controller, ConfigError>)
    ensures r.Failure? <==> env.None?
    ensures r.Success? ==>
      && fresh(r.value) && r.value.Valid() && r.value.secret == env.value
      && r.value.socket == None && r.value.sent == []
      && r.value.headAngle == INITIAL_ANGLE && !r.value.keyDown
  {
    match LoadSecret(env)
    case Failure(e) =>
      r := Failure(e);
    case Success(secret) =>
      var c := new Controller(secret);
      r := Success(c);
  }

  /** A whole session: mount, open, press `w`. The secret is the first
      frame, sent once, before the drive command. */
  method OpenThenForward(secret: string) returns (c: Controller)
    ensures fresh(c) && c.Valid()
    ensures c.sent == [Text(secret), Json(ToRecord(DriveCommand(Forward)))]
  {
    c := new Controller(secret);
    c.Mount();
    c.TransportOpen();
    var dispatched, unavailable := c.OnKeyDown("w");
  }

  /** Pressing forward, releasing, then pressing fire on an open link sends
      exactly two frames, in that order. */
  method ForwardThenFire(c: Controller)
    requires c.Valid() && c.Writable() && !c.keyDown
    modifies c
    ensures c.sent == old(c.sent) + [Json(ToRecord(DriveCommand(Forward))), Json(ToRecord(FIRE_COMMAND))]
  {
    var d1, u1 := c.OnKeyDown("w");
    c.OnKeyUp("w");
    var d2, u2 := c.OnKeyDown("f");
  }

  /** Before the socket opens, a key press changes nothing on the wire and
      is reported as unavailable. */
  method PressBeforeOpen(c: Controller, key: string) returns (unavailable: bool)
    requires c.Valid() && c.socket == Some(Connecting) && !c.keyDown && key in BOUND_KEYS
    modifies c
    ensures unavailable
    ensures c.sent == [] && c.keyDown
  {
    var dispatched;
    dispatched, unavailable := c.OnKeyDown(key);
  }
}
