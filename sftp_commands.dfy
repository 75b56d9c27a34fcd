/** The SFTP commands over the process-wide table of SFTP sessions (`SftpSessionMap`). Only `sftp_connect` and
    `sftp_disconnect` change the table; every other command looks its session up and sends requests through it. */
module SftpCommands {
  import opened Common
  import opened Models
  import opened SftpSession

  /** The error every file command reports for an id with no session. */
  function NotFound(id: string): (e: string)
    ensures |e| == |"SFTP session "| + |id| + |" not found"|
    ensures e[..|"SFTP session "|] == "SFTP session " && e[|"SFTP session "|..|"SFTP session "| + |id|] == id
    ensures e[|"SFTP session "| + |id|..] == " not found"
  {
    "SFTP session " + id + " not found"
  }

  class SftpSessions {
    /** connection id -> its live SFTP session; a map holds at most one session per id. */
    var sessions: map<string, SftpSession>
    /** Every id for which a session was opened, in order. */
    ghost var attempts: seq<string>

    /** Each session is filed under its own id. */
    ghost predicate Valid()
      reads this
    {
      forall id :: id in sessions ==> sessions[id].id == id
    }

    constructor ()
      ensures Valid() && sessions == map[] && attempts == []
    {
      sessions := map[];
      attempts := [];
    }

    /** `sftp_connect`. An id already present succeeds without connecting; a profile with no SSH settings is
        refused; otherwise a session is opened once and inserted only when that succeeds. */
    method Connect(config: Connection, script: OpenScript) returns (r: Result<()>)
      requires Valid()
      modifies this
      ensures Valid()
      ensures config.id in old(sessions) ==> r == Ok(()) && sessions == old(sessions) && attempts == old(attempts)
      ensures config.id !in old(sessions) && config.sshConfig.None? ==>
                r == Err("SSH config is required for SFTP connection") && sessions == old(sessions) && attempts == old(attempts)
      ensures config.id !in old(sessions) && config.sshConfig.Some? ==>
                var outcome := Open(config.sshConfig.value, config.id, script);
                && attempts == old(attempts) + [config.id]
                && (outcome.Err? ==> r == Err("Failed to create SFTP session: " + outcome.error) && sessions == old(sessions))
                && (outcome.Ok? ==> r == Ok(()) && sessions == old(sessions)[config.id := SftpSession(config.id)])
    {
      if config.id in sessions {
        return Ok(());
      }
      if config.sshConfig.None? {
        return Err("SSH config is required for SFTP connection");
      }
      attempts := attempts + [config.id];
      var outcome := Open(config.sshConfig.value, config.id, script);
      if outcome.Err? {
        return Err("Failed to create SFTP session: " + outcome.error);
      }
      sessions := sessions[config.id := outcome.value];
      r := Ok(());
    }

    /** `sftp_list_dir`: the session's listing of `path`, with the error of `list_dir` prefixed once more. */
    method ListDirectory(id: string, path: string, listing: Result<seq<DirEntry>>)
      returns (r: Result<seq<FileEntry>>, issued: seq<SftpRequest>)
      ensures id !in sessions ==> r == Err(NotFound(id)) && issued == []
      ensures id in sessions ==> issued == [ReadDir(path)]
      ensures id in sessions && listing.Err? ==>
                r == Err("Failed to list directory: " + "Failed to read directory: " + listing.error)
      ensures id in sessions && listing.Ok? ==>
                r.Ok? && |r.value| == |listing.value|
                && forall i :: 0 <= i < |r.value| ==> r.value[i] == ToFileEntry(listing.value[i])
    {
      if id !in sessions {
        return Err(NotFound(id)), [];
      }
      issued := [ReadDir(path)];
      var entries := ListDir(listing);
      if entries.Err? {
        return Err("Failed to list directory: " + entries.error), issued;
      }
      r := entries;
    }

    /** `sftp_download_file`: read the remote file through the session, then write it to the local path.
        `written` is the data handed to the local write, if it is reached. */
    method DownloadFile(id: string, remotePath: string, localPath: string, remote: Result<seq<byte>>, local: Result<()>)
      returns (r: Result<()>, issued: seq<SftpRequest>, written: Option<seq<byte>>)
      ensures id !in sessions ==> r == Err(NotFound(id)) && issued == [] && written == None
      ensures id in sessions ==> issued == [Read(remotePath)]
      ensures id in sessions && remote.Err? ==>
                r == Err("Failed to read remote file: " + "Failed to read file: " + remote.error) && written == None
      ensures id in sessions && remote.Ok? ==>
                written == Some(remote.value) && (r.Ok? <==> local.Ok?)
      ensures id in sessions && remote.Ok? && local.Err? ==> r.error == "Failed to write local file: " + local.error
      ensures r.Ok? ==> written.Some?
    {
      if id !in sessions {
        return Err(NotFound(id)), [], None;
      }
      issued := [Read(remotePath)];
      var data := Context(remote, "Failed to read file: ");
      if data.Err? {
        return Err("Failed to read remote file: " + data.error), issued, None;
      }
      written := Some(data.value);
      if local.Err? {
        return Err("Failed to write local file: " + local.error), issued, written;
      }
      r := Ok(());
    }

    /** `sftp_upload_file`: the local file is read BEFORE the session is looked up, so a local read error wins
        over an unknown id; then the remote file is created and written. */
    method UploadFile(id: string, localPath: string, remotePath: string, local: Result<seq<byte>>,
                      create: Result<()>, write: Result<()>)
      returns (r: Result<()>, issued: seq<SftpRequest>)
      ensures local.Err? ==> r == Err("Failed to read local file: " + local.error) && issued == []
      ensures local.Ok? && id !in sessions ==> r == Err(NotFound(id)) && issued == []
      ensures local.Ok? && id in sessions ==>
                && issued == WriteRequests(remotePath, local.value, create)
                && r == Context(WriteFile(create, write), "Failed to write remote file: ")
      ensures r.Ok? <==> local.Ok? && id in sessions && create.Ok? && write.Ok?
    {
      if local.Err? {
        return Err("Failed to read local file: " + local.error), [];
      }
      if id !in sessions {
        return Err(NotFound(id)), [];
      }
      issued := WriteRequests(remotePath, local.value, create);
      var written := WriteFile(create, write);
      if written.Err? {
        return Err("Failed to write remote file: " + written.error), issued;
      }
      r := Ok(());
    }

    /** `sftp_remove`: a directory is removed with `remove_dir`, anything else with `remove_file`. */
    method Remove(id: string, path: string, isDir: bool, outcome: Result<()>)
      returns (r: Result<()>, issued: seq<SftpRequest>)
      ensures id !in sessions ==> r == Err(NotFound(id)) && issued == []
      ensures id in sessions ==> issued == [if isDir then RemoveDir(path) else RemoveFile(path)]
      ensures id in sessions ==> (r.Ok? <==> outcome.Ok?)
      ensures id in sessions && isDir && outcome.Err? ==>
                r.error == "Failed to remove directory: " + "Failed to remove directory: " + outcome.error
      ensures id in sessions && !isDir && outcome.Err? ==>
                r.error == "Failed to remove file: " + "Failed to remove file: " + outcome.error
    {
      if id !in sessions {
        return Err(NotFound(id)), [];
      }
      if isDir {
        issued := [RemoveDir(path)];
        var removed := Context(outcome, "Failed to remove directory: ");
        r := Context(removed, "Failed to remove directory: ");
      } else {
        issued := [RemoveFile(path)];
        var removed := Context(outcome, "Failed to remove file: ");
        r := Context(removed, "Failed to remove file: ");
      }
    }

    /** `sftp_create_dir`. */
    method CreateDirectory(id: string, path: string, outcome: Result<()>)
      returns (r: Result<()>, issued: seq<SftpRequest>)
      ensures id !in sessions ==> r == Err(NotFound(id)) && issued == []
      ensures id in sessions ==> issued == [MakeDir(path)] && (r.Ok? <==> outcome.Ok?)
      ensures id in sessions && outcome.Err? ==>
                r.error == "Failed to create directory: " + "Failed to create directory: " + outcome.error
    {
      if id !in sessions {
        return Err(NotFound(id)), [];
      }
      issued := [MakeDir(path)];
      var made := Context(outcome, "Failed to create directory: ");
      r := Context(made, "Failed to create directory: ");
    }

    /** `sftp_disconnect`: the id is removed (if present) and the call always succeeds. */
    method Disconnect(id: string) returns (r: Result<()>)
      requires Valid()
      modifies this
      ensures Valid() && attempts == old(attempts)
      ensures r == Ok(()) && sessions == old(sessions) - {id}
    {
      sessions := sessions - {id};
      r := Ok(());
    }
  }

  /** Disconnecting twice is the same as disconnecting once. */
  method DisconnectTwice(t: SftpSessions, id: string) returns (r1: Result<()>, r2: Result<()>)
    requires t.Valid()
    modifies t
    ensures t.Valid() && r1 == Ok(()) && r2 == Ok(())
    ensures t.sessions == old(t.sessions) - {id}
  {
    r1 := t.Disconnect(id);
    r2 := t.Disconnect(id);
  }

  /** A second connect for an id whose first connect succeeded opens nothing. */
  method ConnectTwice(t: SftpSessions, config: Connection, first: OpenScript, second: OpenScript)
    returns (r1: Result<()>, r2: Result<()>)
    requires t.Valid()
    requires config.sshConfig.Some? && Open(config.sshConfig.value, config.id, first).Ok?
    modifies t
    ensures t.Valid() && r1 == Ok(()) && r2 == Ok(())
    ensures t.attempts == old(t.attempts) + (if config.id in old(t.sessions) then [] else [config.id])
    ensures config.id in t.sessions && t.sessions.Keys == old(t.sessions).Keys + {config.id}
  {
    r1 := t.Connect(config, first);
    r2 := t.Connect(config, second);
  }
}
