/** A local shell session (`PtySession`): the command that is spawned, the PTY geometry, the bytes written to the
    PTY, and the events the reader thread produces. Creating the native PTY and spawning the child are backend
    outcomes passed in as parameters. */
module PtyManager {
  import opened Common
  import opened Events

  datatype PtyConfig = PtyConfig(id: string, shell: string, cols: u16, rows: u16)

  datatype PtySize = PtySize(rows: u16, cols: u16, pixelWidth: u16, pixelHeight: u16)

  /** What the `CommandBuilder` holds when the child is spawned. */
  datatype Command = Command(program: string, args: seq<string>, env: map<string, string>)

  /** The parent-environment variables the child inherits. TERM is not among them. */
  const Inherited: set<string> := {"HOME", "PATH", "USER", "SHELL", "LANG", "LC_ALL"}

  /** The environment before the parent's variables are copied: the builder's own starting environment
      `inherited` (portable_pty's `CommandBuilder::new` starts from a copy of the parent's environment), with
      TERM set to xterm-256color. */
  function BaseEnv(inherited: map<string, string>): map<string, string>
  {
    inherited["TERM" := "xterm-256color"]
  }

  /** Size of the reader thread's buffer: no read returns more. */
  const BufferSize := 8192

  /** The environment after copying, in order, every allowlisted variable of `vars` into `env`
      (a later `cmd.env` of the same key overrides an earlier one). */
  function CopyInherited(env: map<string, string>, vars: seq<(string, string)>): map<string, string>
    decreases vars
  {
    if vars == [] then env
    else CopyInherited(if vars[0].0 in Inherited then env[vars[0].0 := vars[0].1] else env, vars[1..])
  }

  /** The copy adds exactly the allowlisted keys present in `vars` and leaves every other key as it was. */
  lemma {:induction false} CopyInheritedKeys(env: map<string, string>, vars: seq<(string, string)>)
    decreases vars
    ensures CopyInherited(env, vars).Keys == env.Keys + (set i | 0 <= i < |vars| && vars[i].0 in Inherited :: vars[i].0)
    ensures forall k :: k !in Inherited && k in env ==> CopyInherited(env, vars)[k] == env[k]
  {
    if vars != [] {
      var env' := if vars[0].0 in Inherited then env[vars[0].0 := vars[0].1] else env;
      CopyInheritedKeys(env', vars[1..]);
      var tail := set i | 0 <= i < |vars[1..]| && vars[1..][i].0 in Inherited :: vars[1..][i].0;
      var all := set i | 0 <= i < |vars| && vars[i].0 in Inherited :: vars[i].0;
      assert all == (if vars[0].0 in Inherited then {vars[0].0} else {}) + tail by {
        forall k | k in all ensures k in (if vars[0].0 in Inherited then {vars[0].0} else {}) + tail {
          var i :| 0 <= i < |vars| && vars[i].0 in Inherited && vars[i].0 == k;
          if i > 0 { assert vars[1..][i - 1] == vars[i]; }
        }
        forall k | k in tail ensures k in all {
          var i :| 0 <= i < |vars[1..]| && vars[1..][i].0 in Inherited && vars[1..][i].0 == k;
          assert vars[i + 1] == vars[1..][i];
        }
      }
    }
  }

  /** An allowlisted variable takes the value of its last occurrence in `vars`. */
  lemma {:induction false} CopyInheritedValue(env: map<string, string>, vars: seq<(string, string)>, i: nat)
    decreases vars
    requires i < |vars| && vars[i].0 in Inherited
    requires forall j :: i < j < |vars| ==> vars[j].0 != vars[i].0
    ensures vars[i].0 in CopyInherited(env, vars) && CopyInherited(env, vars)[vars[i].0] == vars[i].1
  {
    var env' := if vars[0].0 in Inherited then env[vars[0].0 := vars[0].1] else env;
    if i == 0 {
      CopyUntouched(env', vars[1..], vars[0].0);
    } else {
      forall j | i - 1 < j < |vars[1..]| ensures vars[1..][j].0 != vars[1..][i - 1].0 {
        assert vars[1..][j] == vars[j + 1];
      }
      CopyInheritedValue(env', vars[1..], i - 1);
    }
  }

  /** A key that no later variable mentions keeps its value through the copy. */
  lemma {:induction false} CopyUntouched(env: map<string, string>, vars: seq<(string, string)>, k: string)
    decreases vars
    requires k in env
    requires forall j :: 0 <= j < |vars| ==> vars[j].0 != k
    ensures k in CopyInherited(env, vars) && CopyInherited(env, vars)[k] == env[k]
  {
    if vars != [] {
      var env' := if vars[0].0 in Inherited then env[vars[0].0 := vars[0].1] else env;
      CopyUntouched(env', vars[1..], k);
    }
  }

  /** The child's command: the configured shell with the single argument `-i`, on top of the builder's starting
      environment `inherited`: TERM=xterm-256color, then the allowlisted variables of the parent environment `vars`
      (given in `std::env::vars` order). Only TERM and the allowlisted keys are set explicitly; every other key
      keeps the value the builder started with. */
  method BuildCommand(shell: string, inherited: map<string, string>, vars: seq<(string, string)>) returns (cmd: Command)
    ensures cmd.program == shell && cmd.args == ["-i"]
    ensures cmd.env == CopyInherited(BaseEnv(inherited), vars)
    ensures "TERM" in cmd.env && cmd.env["TERM"] == "xterm-256color"
    ensures cmd.env.Keys == inherited.Keys + {"TERM"} + (set i | 0 <= i < |vars| && vars[i].0 in Inherited :: vars[i].0)
    ensures forall k :: k in cmd.env && k != "TERM" && k !in Inherited ==> k in inherited && cmd.env[k] == inherited[k]
  {
    var env := BaseEnv(inherited);
    var i := 0;
    while i < |vars|
      invariant 0 <= i <= |vars|
      invariant CopyInherited(env, vars[i..]) == CopyInherited(BaseEnv(inherited), vars)
    {
      var (key, value) := vars[i];
      if key in Inherited {
        env := env[key := value];
      }
      assert vars[i..][1..] == vars[i + 1..];
      i := i + 1;
    }
    assert vars[i..] == [];
    cmd := Command(shell, ["-i"], env);
    CopyInheritedKeys(BaseEnv(inherited), vars);
  }

  /** A live local session, as owned by the session table. `written` is every byte delivered to the PTY. */
  datatype PtySession = PtySession(id: string, command: Command, size: PtySize, written: seq<byte>)

  /** What `PtySession::new` builds for `config` when every backend step succeeds. */
  ghost predicate SpawnedFor(config: PtyConfig, inherited: map<string, string>, vars: seq<(string, string)>, s: PtySession)
  {
    && s.id == config.id
    && s.size == PtySize(config.rows, config.cols, 0, 0)
    && s.command == Command(config.shell, ["-i"], CopyInherited(BaseEnv(inherited), vars))
    && s.written == []
  }

  /** `PtySession::new`. `backend` is the outcome of opening the PTY, spawning the child and taking its
      reader and writer; its error is passed on unchanged. */
  method NewSession(config: PtyConfig, inherited: map<string, string>, vars: seq<(string, string)>, backend: Result<()>)
    returns (r: Result<PtySession>)
    ensures r.Ok? <==> backend.Ok?
    ensures r.Ok? ==> SpawnedFor(config, inherited, vars, r.value)
    ensures r.Ok? ==> "TERM" in r.value.command.env && r.value.command.env["TERM"] == "xterm-256color" && r.value.command.args == ["-i"]
    ensures r.Err? ==> r.error == backend.error
  {
    var size := PtySize(config.rows, config.cols, 0, 0);
    var cmd := BuildCommand(config.shell, inherited, vars);
    if backend.Err? {
      return Err(backend.error);
    }
    r := Ok(PtySession(config.id, cmd, size, []));
  }

  /** `PtySession::write`: `write_all` then `flush`. `io` is their outcome and `sent` is how many bytes of `data`
      `write_all` delivered: all of them unless `write_all` failed part way (a `flush` error comes after every byte
      was delivered). The delivered prefix reaches the PTY whatever the outcome. */
  function Write(s: PtySession, data: seq<byte>, io: Result<()>, sent: nat): (r: (PtySession, Result<()>))
    requires sent <= |data|
    requires io.Ok? ==> sent == |data|
    ensures r.1 == io
    ensures |r.0.written| == |s.written| + sent
    ensures r.0.written[..|s.written|] == s.written && r.0.written[|s.written|..] == data[..sent]
    ensures io.Ok? ==> r.0.written == s.written + data
    ensures r.0.id == s.id && r.0.size == s.size && r.0.command == s.command
  {
    (s.(written := s.written + data[..sent]), io)
  }

  /** `PtySession::resize`: rows and columns pass through unchanged, pixel sizes are zero. */
  function Resize(s: PtySession, rows: u16, cols: u16, io: Result<()>): (r: Result<PtySession>)
    ensures r.Ok? <==> io.Ok?
    ensures r.Ok? ==> r.value.size.rows == rows && r.value.size.cols == cols && r.value.size.pixelWidth == 0 && r.value.size.pixelHeight == 0
    ensures r.Ok? ==> r.value.id == s.id && r.value.written == s.written && r.value.command == s.command
    ensures r.Err? ==> r.error == io.error
  {
    if io.Ok? then Ok(s.(size := PtySize(rows, cols, 0, 0))) else Err(io.error)
  }

  /** One `reader.read(&mut buf)`: `Read([])` is end of stream (0 bytes). */
  datatype ReadResult = Read(bytes: seq<byte>) | ReadError(message: string)

  predicate EndsStream(r: ReadResult)
  {
    r.ReadError? || r.bytes == []
  }

  /** The events the reader thread emits for a script of results, stopping at the first read that ends the stream. */
  function ReaderEvents(id: string, results: seq<ReadResult>): seq<Event>
  {
    if results == [] then []
    else if EndsStream(results[0]) then [ExitEvent(id)]
    else [OutputEvent(id, results[0].bytes)] + ReaderEvents(id, results[1..])
  }

  /** The reader thread's loop over the results it performs. */
  method ReaderLoop(id: string, results: seq<ReadResult>) returns (events: seq<Event>)
    requires forall k :: 0 <= k < |results| ==> results[k].Read? ==> |results[k].bytes| <= BufferSize
    ensures events == ReaderEvents(id, results)
    ensures forall k :: 0 <= k < |events| ==> events[k].payload.Bytes? ==> |events[k].payload.data| <= BufferSize
  {
    events := [];
    var i := 0;
    while i < |results|
      invariant 0 <= i <= |results|
      invariant events + ReaderEvents(id, results[i..]) == ReaderEvents(id, results)
      invariant |events| == i
      invariant forall k :: 0 <= k < i ==> results[k].Read? && events[k] == OutputEvent(id, results[k].bytes)
    {
      match results[i] {
        case Read(bytes) =>
          if |bytes| == 0 {
            events := events + [ExitEvent(id)];
            break;
          }
          assert results[i..][1..] == results[i + 1..];
          events := events + [OutputEvent(id, bytes)];
        case ReadError(_) =>
          events := events + [ExitEvent(id)];
          break;
      }
      i := i + 1;
    }
    if i == |results| {
      assert results[i..] == [];
    }
  }

  /** Event k answers read k: an output event with exactly its bytes, or the single exit event, after which
      nothing follows; the exit event appears exactly when some read ends the stream. */
  lemma {:induction false} ReaderEventsMatchReads(id: string, results: seq<ReadResult>)
    ensures var es := ReaderEvents(id, results);
            && |es| <= |results|
            && (forall k :: 0 <= k < |es| ==>
                  es[k] == (if EndsStream(results[k]) then ExitEvent(id) else OutputEvent(id, results[k].bytes)))
            && (forall k :: 0 <= k < |es| - 1 ==> !EndsStream(results[k]))
            && (ExitEvent(id) in es <==> exists k :: 0 <= k < |results| && EndsStream(results[k]))
            && ((forall k :: 0 <= k < |results| ==> !EndsStream(results[k])) ==> |es| == |results|)
            && WellFormedStream(id, es)
  {
    if results != [] && !EndsStream(results[0]) {
      ReaderEventsMatchReads(id, results[1..]);
      var es := ReaderEvents(id, results);
      var tail := ReaderEvents(id, results[1..]);
      assert es == [OutputEvent(id, results[0].bytes)] + tail;
      forall k | 1 <= k < |es| ensures es[k] == tail[k - 1] && results[k] == results[1..][k - 1] {}
      if exists k :: 0 <= k < |results| && EndsStream(results[k]) {
        var k :| 0 <= k < |results| && EndsStream(results[k]);
        assert results[1..][k - 1] == results[k];
      }
      if ExitEvent(id) in es {
        assert ExitEvent(id) in tail;
        var k :| 0 <= k < |results[1..]| && EndsStream(results[1..][k]);
        assert results[k + 1] == results[1..][k];
      }
    }
  }
}
