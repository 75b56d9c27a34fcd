/** The SSH terminal commands over the process-wide table of SSH sessions (`SshSessionMap`). The multi-factor
    commands `submit_ssh_mfa_response` and `cancel_ssh_mfa` are `Mfa.MfaChannels.Submit` and `Cancel`. */
module SshCommands {
  import opened Common
  import opened Models
  import opened Mfa
  import opened SshSession

  class SshTerminals {
    /** terminal id -> its live SSH session; a map holds at most one session per id. */
    var sessions: map<string, SshSession>
    /** Every id for which a session was connected, in order. */
    ghost var attempts: seq<string>

    /** Each session is filed under its own id. */
    ghost predicate Valid()
      reads this
    {
      forall id :: id in sessions ==> sessions[id].id == id
    }

    constructor ()
      ensures Valid() && sessions == map[] && attempts == []
    {
      sessions := map[];
      attempts := [];
    }

    /** `create_ssh_terminal`. An id already present succeeds without connecting; a profile with no SSH settings
        is refused; otherwise `SshSession::new` runs once (possibly with a keyboard-interactive exchange through
        `mfa`) and the session is inserted only when it succeeds. */
    method CreateSshTerminal(config: Connection, mfa: MfaChannels, script: ConnectScript)
      returns (r: Result<()>, kbi: seq<KbiStep>)
      requires Valid() && mfa.Valid()
      modifies this, mfa
      ensures Valid() && mfa.Valid()
      ensures config.id in old(sessions) ==>
                && r == Ok(()) && kbi == [] && sessions == old(sessions) && attempts == old(attempts)
                && mfa.pending == old(mfa.pending) && mfa.delivered == old(mfa.delivered)
      ensures config.id !in old(sessions) && config.sshConfig.None? ==>
                && r == Err("SSH config is required for SSH connection") && kbi == []
                && sessions == old(sessions) && attempts == old(attempts)
                && mfa.pending == old(mfa.pending) && mfa.delivered == old(mfa.delivered)
      ensures config.id !in old(sessions) && config.sshConfig.Some? ==>
                var connected := ConnectResult(config.sshConfig.value, config.id, script);
                && attempts == old(attempts) + [config.id]
                && (connected.Err? ==> r == Err("Failed to create SSH session: " + connected.error) && sessions == old(sessions))
                && (connected.Ok? ==> r == Ok(()) && sessions == old(sessions)[config.id := connected.value])
                && kbi == (if TriesKeyboardInteractive(config.sshConfig.value, script) then KbiTrace(config.id, script.kbi) else [])
                && mfa.pending == (if TriesKeyboardInteractive(config.sshConfig.value, script) && Prompts(script.kbi)
                                   then old(mfa.pending) - {config.id} else old(mfa.pending))
                && mfa.delivered == old(mfa.delivered)
    {
      kbi := [];
      if config.id in sessions {
        return Ok(()), kbi;
      }
      if config.sshConfig.None? {
        return Err("SSH config is required for SSH connection"), kbi;
      }
      attempts := attempts + [config.id];
      var connected;
      connected, kbi := Connect(config.sshConfig.value, config.id, mfa, script);
      if connected.Err? {
        return Err("Failed to create SSH session: " + connected.error), kbi;
      }
      sessions := sessions[config.id := connected.value];
      r := Ok(());
    }

    /** `write_to_ssh_terminal`: unlike the local terminal, an unknown id is an error. */
    method WriteToSshTerminal(id: string, data: seq<byte>, send: Result<()>) returns (r: Result<()>)
      requires Valid()
      modifies this
      ensures Valid() && attempts == old(attempts)
      ensures id !in old(sessions) ==> r == Err("Session " + id + " not found") && sessions == old(sessions)
      ensures id in old(sessions) && send.Err? ==> r == Err("Write failed: " + send.error) && sessions == old(sessions)
      ensures id in old(sessions) && send.Ok? ==>
                r == Ok(()) && sessions == old(sessions)[id := old(sessions)[id].(control := old(sessions)[id].control + [Write(data)])]
    {
      if id !in sessions {
        return Err("Session " + id + " not found");
      }
      var sent := SendWrite(sessions[id], data, send);
      if sent.Err? {
        return Err("Write failed: " + sent.error);
      }
      sessions := sessions[id := sent.value];
      r := Ok(());
    }

    /** `resize_ssh_terminal`: an unknown id succeeds silently and changes nothing. */
    method ResizeSshTerminal(id: string, rows: u16, cols: u16, send: Result<()>) returns (r: Result<()>)
      requires Valid()
      modifies this
      ensures Valid() && attempts == old(attempts)
      ensures id !in old(sessions) ==> r == Ok(()) && sessions == old(sessions)
      ensures id in old(sessions) && send.Err? ==> r == Err("Resize failed: " + send.error) && sessions == old(sessions)
      ensures id in old(sessions) && send.Ok? ==>
                r == Ok(()) && sessions == old(sessions)[id := old(sessions)[id].(control := old(sessions)[id].control + [Resize(rows, cols)])]
    {
      if id in sessions {
        var sent := SendResize(sessions[id], rows, cols, send);
        if sent.Err? {
          return Err("Resize failed: " + sent.error);
        }
        sessions := sessions[id := sent.value];
      }
      r := Ok(());
    }

    /** `close_ssh_terminal`: the id is removed (if present) and the call always succeeds. */
    method CloseSshTerminal(id: string) returns (r: Result<()>)
      requires Valid()
      modifies this
      ensures Valid() && attempts == old(attempts)
      ensures r == Ok(()) && sessions == old(sessions) - {id}
    {
      sessions := sessions - {id};
      r := Ok(());
    }
  }

  /** A second creation for an id whose first creation succeeded connects nothing and touches no responder: the
      responder table is as the first creation left it. */
  method CreateSshTwice(t: SshTerminals, mfa: MfaChannels, config: Connection, first: ConnectScript, second: ConnectScript)
    returns (r1: Result<()>, r2: Result<()>)
    requires t.Valid() && mfa.Valid() && config.id !in t.sessions
    requires config.sshConfig.Some? && ConnectResult(config.sshConfig.value, config.id, first).Ok?
    modifies t, mfa
    ensures t.Valid() && mfa.Valid() && r1 == Ok(()) && r2 == Ok(())
    ensures t.attempts == old(t.attempts) + [config.id]
    ensures t.sessions == old(t.sessions)[config.id := ConnectResult(config.sshConfig.value, config.id, first).value]
    ensures mfa.pending == (if TriesKeyboardInteractive(config.sshConfig.value, first) && Prompts(first.kbi)
                            then old(mfa.pending) - {config.id} else old(mfa.pending))
    ensures mfa.delivered == old(mfa.delivered)
  {
    var kbi;
    r1, kbi := t.CreateSshTerminal(config, mfa, first);
    r2, kbi := t.CreateSshTerminal(config, mfa, second);
  }
}
