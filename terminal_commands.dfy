/** The local terminal commands over the process-wide table of PTY sessions (`SessionMap`). */
module TerminalCommands {
  import opened Common
  import opened PtyManager

  class Terminals {
    /** terminal id -> its live session; a map holds at most one session per id. */
    var sessions: map<string, PtySession>
    /** Every id for which a backend session creation was started, in order. */
    ghost var attempts: seq<string>

    /** Each session is filed under its own id. */
    ghost predicate Valid()
      reads this
    {
      forall id :: id in sessions ==> sessions[id].id == id
    }

    constructor ()
      ensures Valid() && sessions == map[] && attempts == []
    {
      sessions := map[];
      attempts := [];
    }

    /** `create_terminal`. An id already present succeeds at once, spawning nothing; otherwise the backend is
        asked once and the session is inserted only when it succeeds. */
    method CreateTerminal(config: PtyConfig, inherited: map<string, string>, vars: seq<(string, string)>, backend: Result<()>)
      returns (r: Result<()>)
      requires Valid()
      modifies this
      ensures Valid()
      ensures config.id in old(sessions) ==>
                r == Ok(()) && sessions == old(sessions) && attempts == old(attempts)
      ensures config.id !in old(sessions) ==> attempts == old(attempts) + [config.id]
      ensures config.id !in old(sessions) && backend.Err? ==>
                r == Err("Failed to create terminal: " + backend.error) && sessions == old(sessions)
      ensures config.id !in old(sessions) && backend.Ok? ==>
                && r == Ok(())
                && config.id in sessions
                && sessions == old(sessions)[config.id := sessions[config.id]]
                && SpawnedFor(config, inherited, vars, sessions[config.id])
    {
      if config.id in sessions {
        return Ok(());
      }
      attempts := attempts + [config.id];
      var session := NewSession(config, inherited, vars, backend);
      if session.Err? {
        return Err("Failed to create terminal: " + session.error);
      }
      sessions := sessions[config.id := session.value];
      r := Ok(());
    }

    /** `write_to_terminal`: an unknown id succeeds silently and changes nothing. A failed write still delivers
        the `sent` bytes that reached the PTY before it failed. */
    method WriteToTerminal(id: string, data: seq<byte>, io: Result<()>, sent: nat) returns (r: Result<()>)
      requires Valid()
      requires sent <= |data| && (io.Ok? ==> sent == |data|)
      modifies this
      ensures Valid() && attempts == old(attempts)
      ensures id !in old(sessions) ==> r == Ok(()) && sessions == old(sessions)
      ensures id in old(sessions) ==>
                sessions == old(sessions)[id := old(sessions)[id].(written := old(sessions)[id].written + data[..sent])]
      ensures id in old(sessions) && io.Err? ==> r == Err("Write failed: " + io.error)
      ensures id in old(sessions) && io.Ok? ==>
                r == Ok(()) && sessions == old(sessions)[id := old(sessions)[id].(written := old(sessions)[id].written + data)]
    {
      if id in sessions {
        var (session, outcome) := Write(sessions[id], data, io, sent);
        sessions := sessions[id := session];
        if outcome.Err? {
          return Err("Write failed: " + outcome.error);
        }
      }
      r := Ok(());
    }

    /** `resize_terminal`: an unknown id succeeds silently and changes nothing. */
    method ResizeTerminal(id: string, rows: u16, cols: u16, io: Result<()>) returns (r: Result<()>)
      requires Valid()
      modifies this
      ensures Valid() && attempts == old(attempts)
      ensures id !in old(sessions) ==> r == Ok(()) && sessions == old(sessions)
      ensures id in old(sessions) && io.Err? ==> r == Err("Resize failed: " + io.error) && sessions == old(sessions)
      ensures id in old(sessions) && io.Ok? ==>
                r == Ok(()) && sessions == old(sessions)[id := old(sessions)[id].(size := PtySize(rows, cols, 0, 0))]
    {
      if id in sessions {
        var resized := Resize(sessions[id], rows, cols, io);
        if resized.Err? {
          return Err("Resize failed: " + resized.error);
        }
        sessions := sessions[id := resized.value];
      }
      r := Ok(());
    }

    /** `close_terminal`: the id is removed (if present) and the call always succeeds. */
    method CloseTerminal(id: string) returns (r: Result<()>)
      requires Valid()
      modifies this
      ensures Valid() && attempts == old(attempts)
      ensures r == Ok(()) && sessions == old(sessions) - {id}
      ensures id !in sessions && forall other :: other != id ==> (other in sessions <==> other in old(sessions))
    {
      sessions := sessions - {id};
      r := Ok(());
    }
  }

  /** Two creations in a row for the same id, the first of them successful, reach the backend at most once (never when the id was already present). */
  method CreateTwice(t: Terminals, config: PtyConfig, inherited: map<string, string>, vars: seq<(string, string)>,
                     first: Result<()>, second: Result<()>)
    returns (r1: Result<()>, r2: Result<()>)
    requires t.Valid() && first.Ok?
    modifies t
    ensures t.Valid() && r1 == Ok(()) && r2 == Ok(())
    ensures t.attempts == old(t.attempts) + (if config.id in old(t.sessions) then [] else [config.id])
    ensures config.id in t.sessions && t.sessions.Keys == old(t.sessions).Keys + {config.id}
  {
    r1 := t.CreateTerminal(config, inherited, vars, first);
    r2 := t.CreateTerminal(config, inherited, vars, second);
  }

  /** Closing twice is the same as closing once. */
  method CloseTwice(t: Terminals, id: string) returns (r1: Result<()>, r2: Result<()>)
    requires t.Valid()
    modifies t
    ensures t.Valid() && r1 == Ok(()) && r2 == Ok(())
    ensures t.sessions == old(t.sessions) - {id}
  {
    r1 := t.CloseTerminal(id);
    r2 := t.CloseTerminal(id);
  }
}
