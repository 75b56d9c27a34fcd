/** An SSH terminal session (`SshSession`): the authentication strategy with its keyboard-interactive exchange
    (section 3 of RFC 4256), the channel task that turns channel traffic into terminal events, and the control
    queue through which writes and resizes reach that task. Network steps are outcomes passed in as parameters. */
module SshSession {
  import opened Common
  import opened Models
  import opened Events
  import opened Mfa

  // ---------------------------------------------------------------- keyboard-interactive exchange

  /** One prompt of a server InfoRequest. */
  datatype ServerPrompt = ServerPrompt(prompt: string, echo: bool)

  /** What the user does with a prompt shown to them: submit responses, cancel, or nothing until the timeout. */
  datatype Answer = Respond(responses: seq<string>) | Cancel | NoAnswer

  /** The server's side of one keyboard-interactive exchange, as the replies it gives in turn. For an InfoRequest
      with prompts, `answer` is what the user does; `next` is the server's reply to the responses sent. `Error` is a
      failed start or respond call. */
  datatype Exchange =
    | Success
    | Failure
    | Error(message: string)
    | InfoRequest(name: string, instructions: string, prompts: seq<ServerPrompt>, answer: Answer, next: Exchange)

  /** What the authentication task does, in order. */
  datatype KbiStep =
    | Registered(terminalId: string)
    | Prompted(payload: MfaPromptPayload)
    | Responded(responses: seq<string>)

  const CancelledMessage := "MFA authentication cancelled by user"
  const TimeoutMessage := "MFA authentication timeout"

  /** The prompts as sent to the UI: same number, same order, text and echo flag copied. */
  function ToMfaPrompts(prompts: seq<ServerPrompt>): (r: seq<MfaPrompt>)
    ensures |r| == |prompts|
    ensures forall i :: 0 <= i < |r| ==> r[i].prompt == prompts[i].prompt && r[i].echo == prompts[i].echo
  {
    seq(|prompts|, i requires 0 <= i < |prompts| => MfaPrompt(prompts[i].prompt, prompts[i].echo))
  }

  /** The `ssh-mfa-prompt` payload for one InfoRequest. */
  function PromptPayload(terminalId: string, name: string, instructions: string, prompts: seq<ServerPrompt>)
    : (p: MfaPromptPayload)
    ensures p.terminalId == terminalId && p.name == name && p.instructions == instructions
    ensures |p.prompts| == |prompts|
    ensures forall i :: 0 <= i < |prompts| ==> p.prompts[i] == MfaPrompt(prompts[i].prompt, prompts[i].echo)
  {
    MfaPromptPayload(terminalId, name, instructions, ToMfaPrompts(prompts))
  }

  /** How the exchange ends: Ok(true) on Success, Ok(false) on Failure, an error otherwise. */
  function KbiResult(x: Exchange): Result<bool>
  {
    match x
    case Success => Ok(true)
    case Failure => Ok(false)
    case Error(e) => Err(e)
    case InfoRequest(_, _, prompts, answer, next) =>
      if prompts == [] then KbiResult(next)
      else match answer
        case Respond(_) => KbiResult(next)
        case Cancel => Err(CancelledMessage)
        case NoAnswer => Err(TimeoutMessage)
  }

  /** The steps the task takes: an empty InfoRequest is answered with no responses; one with prompts registers a
      responder, emits the prompt, and on a submission forwards the responses. */
  function KbiTrace(terminalId: string, x: Exchange): seq<KbiStep>
  {
    match x
    case InfoRequest(name, instructions, prompts, answer, next) =>
      if prompts == [] then [Responded([])] + KbiTrace(terminalId, next)
      else [Registered(terminalId), Prompted(PromptPayload(terminalId, name, instructions, prompts))] +
           (if answer.Respond? then [Responded(answer.responses)] + KbiTrace(terminalId, next) else [])
    case _ => []
  }

  /** Whether the exchange reaches an InfoRequest with prompts (and so registers a responder). */
  predicate Prompts(x: Exchange)
  {
    x.InfoRequest? && (x.prompts != [] || Prompts(x.next))
  }

  /** `perform_keyboard_interactive_auth`, over the server's replies and the user's answers. */
  method KeyboardInteractive(terminalId: string, exchange: Exchange, mfa: MfaChannels)
    returns (r: Result<bool>, trace: seq<KbiStep>)
    requires mfa.Valid()
    modifies mfa
    ensures mfa.Valid()
    ensures r == KbiResult(exchange) && trace == KbiTrace(terminalId, exchange)
    ensures mfa.pending == if Prompts(exchange) then old(mfa.pending) - {terminalId} else old(mfa.pending)
    ensures mfa.delivered == old(mfa.delivered)
  {
    var x := exchange;
    trace := [];
    ghost var registered := false;
    while true
      invariant mfa.Valid()
      invariant KbiResult(x) == KbiResult(exchange)
      invariant trace + KbiTrace(terminalId, x) == KbiTrace(terminalId, exchange)
      invariant Prompts(exchange) == (registered || Prompts(x))
      invariant mfa.pending == if registered then old(mfa.pending) - {terminalId} else old(mfa.pending)
      invariant mfa.delivered == old(mfa.delivered)
      decreases x
    {
      match x {
        case Success =>
          return Ok(true), trace;
        case Failure =>
          return Ok(false), trace;
        case Error(e) =>
          return Err(e), trace;
        case InfoRequest(name, instructions, prompts, answer, next) =>
          if prompts == [] {
            trace := trace + [Responded([])];
            x := next;
            continue;
          }
          var ch := mfa.Register(terminalId);
          trace := trace + [Registered(terminalId), Prompted(PromptPayload(terminalId, name, instructions, prompts))];
          ghost var before := mfa.pending;
          match answer {
            case Respond(responses) =>
              var _ := mfa.Submit(terminalId, responses);
            case Cancel =>
              var _ := mfa.Cancel(terminalId);
            case NoAnswer =>
          }
          var reception := mfa.Await(terminalId, ch);
          registered := true;
          assert mfa.pending == old(mfa.pending) - {terminalId};
          match reception {
            case Received(responses) =>
              assert answer.Respond? && responses == answer.responses;
              trace := trace + [Responded(responses)];
              x := next;
            case Dropped =>
              assert answer.Cancel?;
              return Err(CancelledMessage), trace;
            case TimedOut =>
              assert answer.NoAnswer?;
              return Err(TimeoutMessage), trace;
          }
      }
    }
  }

  /** Every prompt in `t` comes right after the registration of a responder for `terminalId`, and is for that
      terminal. */
  predicate PromptsFollowRegistration(terminalId: string, t: seq<KbiStep>)
  {
    forall i :: 0 <= i < |t| && t[i].Prompted? ==>
      0 < i && t[i - 1] == Registered(terminalId) && t[i].payload.terminalId == terminalId
  }

  /** The responder for a terminal is always registered before its prompt event is emitted. */
  lemma {:induction false} PromptAfterRegistration(terminalId: string, x: Exchange)
    ensures PromptsFollowRegistration(terminalId, KbiTrace(terminalId, x))
  {
    match x
    case InfoRequest(name, instructions, prompts, answer, next) =>
      PromptAfterRegistration(terminalId, next);
      var t := KbiTrace(terminalId, x);
      var rest := KbiTrace(terminalId, next);
      var head := if prompts == [] then [Responded([])]
                  else if answer.Respond? then [Registered(terminalId), Prompted(PromptPayload(terminalId, name, instructions, prompts)), Responded(answer.responses)]
                  else [Registered(terminalId), Prompted(PromptPayload(terminalId, name, instructions, prompts))];
      assert PromptsFollowRegistration(terminalId, head);
      if prompts == [] || answer.Respond? {
        assert t == head + rest;
        forall i | 0 <= i < |t| && t[i].Prompted?
          ensures 0 < i && t[i - 1] == Registered(terminalId) && t[i].payload.terminalId == terminalId
        {
          if i > |head| {
            assert t[i] == rest[i - |head|] && t[i - 1] == rest[i - |head| - 1];
          } else if i == |head| {
            assert false;
          } else {
            assert t[i] == head[i] && t[i - 1] == head[i - 1];
          }
        }
      } else {
        assert t == head;
      }
    case _ =>
  }

  /** An exchange with no prompts never touches the responder table nor emits a prompt: each InfoRequest is
      answered with an empty response. */
  lemma {:induction false} NoPromptsNoRegistration(terminalId: string, x: Exchange)
    requires !Prompts(x)
    ensures forall s :: s in KbiTrace(terminalId, x) ==> s == Responded([])
  {
    match x
    case InfoRequest(_, _, prompts, _, next) =>
      NoPromptsNoRegistration(terminalId, next);
    case _ =>
  }

  // ---------------------------------------------------------------- session creation

  /** The PTY `request_pty` asks for: as written, the terminal type sent is the user name; 80 x 24 cells. */
  datatype PtyRequest = PtyRequest(term: string, cols: u32, rows: u32, pixelWidth: u32, pixelHeight: u32)

  /** Commands the channel task receives from `write` and `resize`. */
  datatype SshControl = Write(data: seq<byte>) | Resize(rows: u16, cols: u16)

  /** A live SSH session, as owned by the session table: `control` is every command queued to its channel task. */
  datatype SshSession = SshSession(id: string, pty: PtyRequest, control: seq<SshControl>)

  /** The outcome of every network step of `SshSession::new`, in the order they are taken. `keyLoad` covers reading
      and decoding the private key and choosing its hash (public-key profiles only); `firstAuth` is the server's
      verdict on the configured method. */
  datatype ConnectScript = ConnectScript(
    connect: Result<()>,
    keyLoad: Result<()>,
    firstAuth: Result<bool>,
    kbi: Exchange,
    openChannel: Result<()>,
    requestPty: Result<()>,
    requestShell: Result<()>)

  /** The verdict of the configured method (password or public key), or the error that ends the attempt. */
  function FirstAuth(auth: SshAuth, s: ConnectScript): (r: Result<bool>)
    ensures auth.Password? ==> r == Context(s.firstAuth, "Authentication error: ")
    ensures auth.PublicKey? && s.keyLoad.Err? ==> r == Err(s.keyLoad.error)
    ensures auth.PublicKey? && s.keyLoad.Ok? ==> r == Context(s.firstAuth, "Authentication error: ")
  {
    match auth
    case Password(_) => Context(s.firstAuth, "Authentication error: ")
    case PublicKey(_, _) =>
      if s.keyLoad.Err? then Err(s.keyLoad.error) else Context(s.firstAuth, "Authentication error: ")
  }

  /** Whether the keyboard-interactive exchange is run: the connection is up and the configured method returned
      false without an error. */
  predicate TriesKeyboardInteractive(config: SshConfig, s: ConnectScript)
  {
    s.connect.Ok? && FirstAuth(config.auth, s) == Ok(false)
  }

  /** The result of `SshSession::new`. */
  function ConnectResult(config: SshConfig, terminalId: string, s: ConnectScript): Result<SshSession>
  {
    if s.connect.Err? then Err("Connection failed: " + s.connect.error)
    else if FirstAuth(config.auth, s).Err? then Err(FirstAuth(config.auth, s).error)
    else if FirstAuth(config.auth, s) == Ok(false) && KbiResult(s.kbi) == Ok(false) then Err("SSH MFA authentication failed")
    else if FirstAuth(config.auth, s) == Ok(false) && KbiResult(s.kbi).Err? then Err("MFA authentication error: " + KbiResult(s.kbi).error)
    else if s.openChannel.Err? then Err("Failed to open channel: " + s.openChannel.error)
    else if s.requestPty.Err? then Err("PTY request failed: " + s.requestPty.error)
    else if s.requestShell.Err? then Err("Shell request failed: " + s.requestShell.error)
    else Ok(SshSession(terminalId, PtyRequest(config.username, 80, 24, 0, 0), []))
  }

  /** `SshSession::new`: connect, try the configured method, fall back to keyboard-interactive only when it
      returned false, then open the channel, request the PTY and the shell. */
  method Connect(config: SshConfig, terminalId: string, mfa: MfaChannels, s: ConnectScript)
    returns (r: Result<SshSession>, kbi: seq<KbiStep>)
    requires mfa.Valid()
    modifies mfa
    ensures mfa.Valid()
    ensures r == ConnectResult(config, terminalId, s)
    ensures kbi == if TriesKeyboardInteractive(config, s) then KbiTrace(terminalId, s.kbi) else []
    ensures mfa.pending == if TriesKeyboardInteractive(config, s) && Prompts(s.kbi) then old(mfa.pending) - {terminalId} else old(mfa.pending)
    ensures mfa.delivered == old(mfa.delivered)
    ensures r.Ok? ==> r.value.id == terminalId && r.value.control == []
    ensures s.connect.Ok? && FirstAuth(config.auth, s) == Ok(true) ==> kbi == [] && mfa.pending == old(mfa.pending)
    ensures TriesKeyboardInteractive(config, s) && KbiResult(s.kbi) == Ok(false) ==> r == Err("SSH MFA authentication failed")
  {
    kbi := [];
    if s.connect.Err? {
      return Err("Connection failed: " + s.connect.error), kbi;
    }
    var first := FirstAuth(config.auth, s);
    if first.Err? {
      return Err(first.error), kbi;
    }
    if !first.value {
      var kbiResult;
      kbiResult, kbi := KeyboardInteractive(terminalId, s.kbi, mfa);
      match kbiResult {
        case Ok(true) =>
        case Ok(false) =>
          return Err("SSH MFA authentication failed"), kbi;
        case Err(e) =>
          return Err("MFA authentication error: " + e), kbi;
      }
    }
    if s.openChannel.Err? {
      return Err("Failed to open channel: " + s.openChannel.error), kbi;
    }
    if s.requestPty.Err? {
      return Err("PTY request failed: " + s.requestPty.error), kbi;
    }
    if s.requestShell.Err? {
      return Err("Shell request failed: " + s.requestShell.error), kbi;
    }
    r := Ok(SshSession(terminalId, PtyRequest(config.username, 80, 24, 0, 0), []));
  }

  // ---------------------------------------------------------------- control queue

  /** `SshSession::write`: the bytes are queued, unchanged, for the channel task. `send` is the outcome of the
      queue send (it fails once the task has ended). */
  function SendWrite(s: SshSession, data: seq<byte>, send: Result<()>): (r: Result<SshSession>)
    ensures r.Ok? <==> send.Ok?
    ensures r.Ok? ==> r.value.id == s.id && r.value.pty == s.pty && |r.value.control| == |s.control| + 1
    ensures r.Ok? ==> r.value.control[..|s.control|] == s.control && r.value.control[|s.control|] == Write(data)
    ensures r.Err? ==> r.error == send.error
  {
    if send.Ok? then Ok(s.(control := s.control + [Write(data)])) else Err(send.error)
  }

  /** `SshSession::resize`: the new geometry is queued for the channel task. */
  function SendResize(s: SshSession, rows: u16, cols: u16, send: Result<()>): (r: Result<SshSession>)
    ensures r.Ok? <==> send.Ok?
    ensures r.Ok? ==> r.value.id == s.id && r.value.pty == s.pty && |r.value.control| == |s.control| + 1
    ensures r.Ok? ==> r.value.control[..|s.control|] == s.control && r.value.control[|s.control|] == Resize(rows, cols)
    ensures r.Err? ==> r.error == send.error
  {
    if send.Ok? then Ok(s.(control := s.control + [Resize(rows, cols)])) else Err(send.error)
  }

  // ---------------------------------------------------------------- channel task

  /** Channel messages the task tells apart; every other kind is `OtherMessage`. */
  datatype ChannelMsg = Data(bytes: seq<byte>) | Eof | ExitStatus(status: u32) | OtherMessage

  /** What the task's `select!` picks next: a queued command, or what `channel.wait()` returns (None once the
      channel is closed). */
  datatype TaskInput = Control(command: SshControl) | Channel(msg: Option<ChannelMsg>)

  /** What the task does: send data on the channel, change the window, or emit an event. */
  datatype TaskEffect =
    | SendData(data: seq<byte>)
    | WindowChange(cols: u32, rows: u32, pixelWidth: u32, pixelHeight: u32)
    | Emit(event: Event)

  /** The channel request a control command becomes; a resize swaps to (cols, rows) order. */
  function Dispatch(c: SshControl): (e: TaskEffect)
    ensures c.Write? ==> e == SendData(c.data)
    ensures c.Resize? ==> e.WindowChange? && e.cols as int == c.cols as int && e.rows as int == c.rows as int
                          && e.pixelWidth == 0 && e.pixelHeight == 0
  {
    match c
    case Write(data) => SendData(data)
    case Resize(rows, cols) => WindowChange(cols as int as u32, rows as int as u32, 0, 0)
  }

  /** Whether a channel message ends the task. */
  predicate EndsChannel(m: Option<ChannelMsg>)
  {
    m.None? || m.value.Eof? || m.value.ExitStatus?
  }

  /** The effects of an input that does not end the channel. */
  function StepEffects(id: string, x: TaskInput): (es: seq<TaskEffect>)
    requires !(x.Channel? && EndsChannel(x.msg))
    ensures Emit(ExitEvent(id)) !in es
  {
    if x.Control? then [Dispatch(x.command)]
    else if x.msg.value.Data? then [Emit(OutputEvent(id, x.msg.value.bytes))]
    else []
  }

  /** The effects of the task loop over its inputs, up to and including the first message that ends it. */
  function TaskEffects(id: string, inputs: seq<TaskInput>): seq<TaskEffect>
  {
    if inputs == [] then []
    else if inputs[0].Channel? && EndsChannel(inputs[0].msg) then [Emit(ExitEvent(id))]
    else StepEffects(id, inputs[0]) + TaskEffects(id, inputs[1..])
  }

  /** The channel task spawned by `SshSession::new`. */
  method ChannelTask(id: string, inputs: seq<TaskInput>) returns (effects: seq<TaskEffect>)
    ensures effects == TaskEffects(id, inputs)
  {
    effects := [];
    var i := 0;
    while i < |inputs|
      invariant 0 <= i <= |inputs|
      invariant effects + TaskEffects(id, inputs[i..]) == TaskEffects(id, inputs)
      invariant Emit(ExitEvent(id)) !in effects
    {
      assert inputs[i..][1..] == inputs[i + 1..];
      var step: seq<TaskEffect>;
      match inputs[i] {
        case Control(c) =>
          step := [Dispatch(c)];
        case Channel(m) =>
          if EndsChannel(m) {
            effects := effects + [Emit(ExitEvent(id))];
            break;
          }
          step := if m.value.Data? then [Emit(OutputEvent(id, m.value.bytes))] else [];
      }
      assert step == StepEffects(id, inputs[i]);
      assert TaskEffects(id, inputs[i..]) == step + TaskEffects(id, inputs[i + 1..]);
      assert (effects + step) + TaskEffects(id, inputs[i + 1..]) == effects + (step + TaskEffects(id, inputs[i + 1..]));
      effects := effects + step;
      i := i + 1;
    }
    if i == |inputs| {
      assert inputs[i..] == [];
    }
  }

  /** Some input ends the channel. */
  predicate EndsSomewhere(inputs: seq<TaskInput>)
  {
    exists k :: 0 <= k < |inputs| && inputs[k].Channel? && EndsChannel(inputs[k].msg)
  }

  /** Past an input that does not end the channel, the channel ends somewhere iff it ends in the rest. */
  lemma EndsSomewhereTail(inputs: seq<TaskInput>)
    requires inputs != [] && !(inputs[0].Channel? && EndsChannel(inputs[0].msg))
    ensures EndsSomewhere(inputs) <==> EndsSomewhere(inputs[1..])
  {
    if EndsSomewhere(inputs) {
      var k :| 0 <= k < |inputs| && inputs[k].Channel? && EndsChannel(inputs[k].msg);
      assert inputs[1..][k - 1] == inputs[k];
    }
    if EndsSomewhere(inputs[1..]) {
      var k :| 0 <= k < |inputs[1..]| && inputs[1..][k].Channel? && EndsChannel(inputs[1..][k].msg);
      assert inputs[k + 1] == inputs[1..][k];
    }
  }

  /** No effect but the last one is the exit event. */
  predicate ExitOnlyLast(id: string, es: seq<TaskEffect>)
  {
    forall i :: 0 <= i < |es| && es[i] == Emit(ExitEvent(id)) ==> i == |es| - 1
  }

  /** The exit event is emitted at most once and is the task's last effect. */
  lemma {:induction false} ExitIsLast(id: string, inputs: seq<TaskInput>)
    ensures ExitOnlyLast(id, TaskEffects(id, inputs))
  {
    if inputs != [] && !(inputs[0].Channel? && EndsChannel(inputs[0].msg)) {
      var es := TaskEffects(id, inputs);
      var rest := TaskEffects(id, inputs[1..]);
      var head := StepEffects(id, inputs[0]);
      ExitIsLast(id, inputs[1..]);
      assert es == head + rest;
      forall i | 0 <= i < |es| && es[i] == Emit(ExitEvent(id)) ensures i == |es| - 1 {
        if i < |head| {
          assert false;
        } else {
          assert es[i] == rest[i - |head|];
        }
      }
    }
  }

  /** The exit event is emitted exactly when some input ends the channel. */
  lemma {:induction false} ExitIffChannelEnds(id: string, inputs: seq<TaskInput>)
    ensures Emit(ExitEvent(id)) in TaskEffects(id, inputs) <==> EndsSomewhere(inputs)
  {
    if inputs != [] {
      if inputs[0].Channel? && EndsChannel(inputs[0].msg) {
        assert TaskEffects(id, inputs) == [Emit(ExitEvent(id))];
      } else {
        var rest := TaskEffects(id, inputs[1..]);
        var head := StepEffects(id, inputs[0]);
        ExitIffChannelEnds(id, inputs[1..]);
        EndsSomewhereTail(inputs);
        assert TaskEffects(id, inputs) == head + rest;
      }
    }
  }

  /** The effects sent on the channel (data and window changes), in order: every effect but the emitted events. */
  function Sent(es: seq<TaskEffect>): (r: seq<TaskEffect>)
    ensures forall e :: e in r ==> e in es && !e.Emit?
  {
    if es == [] then [] else (if es[0].Emit? then [] else [es[0]]) + Sent(es[1..])
  }

  lemma {:induction false} SentConcat(a: seq<TaskEffect>, b: seq<TaskEffect>)
    ensures Sent(a + b) == Sent(a) + Sent(b)
  {
    if a == [] {
      assert a + b == b;
    } else {
      assert (a + b)[1..] == a[1..] + b;
      SentConcat(a[1..], b);
    }
  }

  /** The commands the task takes from its queue before the channel ends, in the order it takes them. */
  function ControlsBeforeEnd(inputs: seq<TaskInput>): (cs: seq<SshControl>)
    ensures |cs| <= |inputs|
  {
    if inputs == [] then []
    else match inputs[0]
      case Control(c) => [c] + ControlsBeforeEnd(inputs[1..])
      case Channel(m) => if EndsChannel(m) then [] else ControlsBeforeEnd(inputs[1..])
  }

  /** The channel requests for a run of queued commands, one per command and in the same order. */
  function DispatchAll(cs: seq<SshControl>): (es: seq<TaskEffect>)
    ensures |es| == |cs| && forall i :: 0 <= i < |cs| ==> es[i] == Dispatch(cs[i])
  {
    if cs == [] then [] else [Dispatch(cs[0])] + DispatchAll(cs[1..])
  }

  /** Whatever channel messages come in between, what the task sends on the channel is exactly the queued commands
      it took before the channel ended, each dispatched unchanged and in queue order. */
  lemma {:induction false} ControlInOrder(id: string, inputs: seq<TaskInput>)
    ensures Sent(TaskEffects(id, inputs)) == DispatchAll(ControlsBeforeEnd(inputs))
  {
    if inputs != [] && !(inputs[0].Channel? && EndsChannel(inputs[0].msg)) {
      ControlInOrder(id, inputs[1..]);
      SentConcat(StepEffects(id, inputs[0]), TaskEffects(id, inputs[1..]));
      if inputs[0].Control? {
        var cs := [inputs[0].command] + ControlsBeforeEnd(inputs[1..]);
        assert cs[1..] == ControlsBeforeEnd(inputs[1..]);
      }
    }
  }

  /** The events the task emits, in order. */
  function Emitted(es: seq<TaskEffect>): (r: seq<Event>)
    ensures |r| <= |es|
  {
    if es == [] then [] else (if es[0].Emit? then [es[0].event] else []) + Emitted(es[1..])
  }

  lemma {:induction false} EmittedConcat(a: seq<TaskEffect>, b: seq<TaskEffect>)
    ensures Emitted(a + b) == Emitted(a) + Emitted(b)
  {
    if a == [] {
      assert a + b == b;
    } else {
      var head := if a[0].Emit? then [a[0].event] else [];
      assert (a + b)[0] == a[0] && (a + b)[1..] == a[1..] + b;
      assert Emitted(a + b) == head + Emitted(a[1..] + b);
      EmittedConcat(a[1..], b);
    }
  }

  /** The bytes of the `Data` messages the task takes before the channel ends, in the order they arrive. */
  function DataBeforeEnd(inputs: seq<TaskInput>): (ds: seq<seq<byte>>)
    ensures |ds| <= |inputs|
  {
    if inputs == [] then []
    else match inputs[0]
      case Control(_) => DataBeforeEnd(inputs[1..])
      case Channel(m) =>
        if EndsChannel(m) then []
        else if m.value.Data? then [m.value.bytes] + DataBeforeEnd(inputs[1..])
        else DataBeforeEnd(inputs[1..])
  }

  /** One `terminal-output-<id>` event per chunk of bytes, in the same order. */
  function OutputEvents(id: string, ds: seq<seq<byte>>): (es: seq<Event>)
    ensures |es| == |ds| && forall i :: 0 <= i < |ds| ==> es[i] == OutputEvent(id, ds[i])
  {
    if ds == [] then [] else [OutputEvent(id, ds[0])] + OutputEvents(id, ds[1..])
  }

  /** The UI sees one output event per `Data` message before the end, carrying its bytes, in arrival order,
      followed by the exit event exactly when some message ends the channel. */
  lemma {:induction false} OutputInOrder(id: string, inputs: seq<TaskInput>)
    ensures Emitted(TaskEffects(id, inputs))
         == OutputEvents(id, DataBeforeEnd(inputs)) + (if EndsSomewhere(inputs) then [ExitEvent(id)] else [])
  {
    if inputs == [] {
    } else if inputs[0].Channel? && EndsChannel(inputs[0].msg) {
      assert EndsSomewhere(inputs) by {
        assert inputs[0].Channel? && EndsChannel(inputs[0].msg);
      }
    } else {
      OutputInOrder(id, inputs[1..]);
      EndsSomewhereTail(inputs);
      EmittedConcat(StepEffects(id, inputs[0]), TaskEffects(id, inputs[1..]));
      if inputs[0].Channel? && inputs[0].msg.value.Data? {
        var ds := [inputs[0].msg.value.bytes] + DataBeforeEnd(inputs[1..]);
        assert ds[1..] == DataBeforeEnd(inputs[1..]);
      }
    }
  }
}
