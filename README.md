# konnect backend — a verified model

konnect is a desktop terminal client. Its Rust backend keeps three process-wide session tables: local shells
on a pseudo-terminal, SSH terminals and SFTP sessions. It also keeps a table of pending multi-factor responders
and a file of saved connection profiles. This project models that backend in Dafny and proves what its
commands promise:

- **Session tables** (`TerminalCommands.Terminals`, `SshCommands.SshTerminals`, `SftpCommands.SftpSessions`)
  are classes whose `sessions` map is updated in place.
  - Creating a session for an id that is already present changes nothing and reaches no backend. A ghost
    `attempts` log makes this checkable.
  - A failed creation inserts nothing.
  - Writes, resizes and closes follow each table's own policy for unknown ids.
- **Multi-factor authentication** (`Mfa.MfaChannels`) holds at most one pending responder per terminal. A
  responder is a one-shot channel, numbered so that a replaced one is never confused with its successor.
  - Submit consumes the responder and cancel drops it.
  - The authentication task's wait ends in received, dropped (cancelled) or timed out. A timeout removes the
    entry.
  - The keyboard-interactive exchange (section 3 of RFC 4256) is a loop over the server's replies and the
    user's answers (`SshSession.KeyboardInteractive`). It is proved to register a responder before every prompt
    it emits.
- **Event streams**:
  - The PTY reader thread (`PtyManager.ReaderLoop`) emits one `terminal-output-<id>` event per non-empty read.
  - The SSH channel task (`SshSession.ChannelTask`) emits one such event per `Data` message, and dispatches
    queued writes and resizes in order.
  - Both end with exactly one `terminal-exit-<id>` event.
- **Connection profiles** (`Storage.ConnectionStorage`) are stored in order. Adding appends. Removing drops every
  profile with the id. Updating replaces the first match. Lookup finds the first match.
- **Pure pieces**:
  - the profile constructors;
  - the environment the spawned shell's command builder is given: TERM, then the allowlisted parent variables, set
    over the builder's own starting environment;
  - the mapping of SFTP directory entries to `FileEntry`, whose permissions are rendered in base 8. The
    rendering is proved to round-trip (`SftpSession.OctalRoundTrip`, `SftpSession.OctalOfValue`).

Everything outside the process is a parameter. This covers native PTY creation, the SSH and SFTP network
steps, server replies, what the user types into the prompt, local file reads and writes, and the parent
environment. Each is passed as the outcome the call returns (a `Result`), or as the script of replies the
server gives.

Files: `common.dfy` (Option, Result, integer widths, error prefixing), `models.dfy`, `storage.dfy`,
`events.dfy`, `pty_manager.dfy`, `terminal_commands.dfy`, `mfa.dfy`, `ssh_session.dfy`, `ssh_commands.dfy`,
`sftp_session.dfy`, `sftp_commands.dfy`.

## Model

| member | source | states |
|---|---|---|
| `Common.Context` | src-tauri/src/terminal/commands.rs:21-26 | `map_err` with a `format!` prefix: success passes the value through; an error becomes prefix followed by the original message |
| `Models.NewLocal` | src-tauri/src/models/connection.rs:40-47 | a Local profile with no SSH settings, the given name, and the generated id (a parameter) |
| `Models.NewSsh` | src-tauri/src/models/connection.rs:49-56 | an Ssh profile carrying exactly the given SSH settings and name; neither constructor yields Telnet or Serial |
| `Storage.RemoveAll` | src-tauri/src/config/storage.rs:57 | `retain(c.id != id)`: no survivor has the id, and a profile survives iff it was there and has another id |
| `Storage.Position` | src-tauri/src/config/storage.rs:63 | the index of the first profile with the id; None iff no profile has it |
| `Storage.Find` | src-tauri/src/config/storage.rs:72 | the first profile with the id; None iff no profile has it |
| `Storage.RemoveAllKeepsOrder` | src-tauri/src/config/storage.rs:55-59 | removal distributes over concatenation, so survivors keep their relative order |
| `Storage.RemoveAbsentIsIdentity` | src-tauri/src/config/storage.rs:55-59 | removing an id no profile carries leaves the list unchanged |
| `Storage.RemovedIsNotFound` | src-tauri/src/config/storage.rs:57 | after removing an id, looking it up finds nothing |
| `Storage.AppendKeepsFirstMatch` | src-tauri/src/config/storage.rs:49-53 | appending never deduplicates or shadows: lookups still find the earlier profile, else the appended one |
| `Storage.ReplaceFirstMatch` | src-tauri/src/config/storage.rs:63-65 | replacing the first match keeps the length, changes only that slot, and the replacement is found afterwards |
| `Storage.ConnectionStorage.constructor` | src-tauri/src/config/storage.rs:29-32 | a store over a file that exists with the given contents, or does not exist yet |
| `Storage.ConnectionStorage.LoadConnections` | src-tauri/src/config/storage.rs:29-37 | the empty list when there is no file; the saved list otherwise |
| `Storage.ConnectionStorage.SaveConnections` | src-tauri/src/config/storage.rs:39-47 | the file exists afterwards and holds exactly the given list |
| `Storage.ConnectionStorage.AddConnection` | src-tauri/src/config/storage.rs:49-53 | the stored list becomes the old list with the profile appended at the end |
| `Storage.ConnectionStorage.RemoveConnection` | src-tauri/src/config/storage.rs:55-59 | the stored list becomes `RemoveAll(old, id)`, and afterwards the id is not found |
| `Storage.ConnectionStorage.UpdateConnection` | src-tauri/src/config/storage.rs:61-68 | with a match, only the first matching slot is replaced; with none, nothing is written (not even the file); the length never changes |
| `Storage.ConnectionStorage.GetConnection` | src-tauri/src/config/storage.rs:70-73 | the first stored profile with the id; None iff no stored profile has it |
| `Events.AtMostOneExit` | src-tauri/src/terminal/pty_manager.rs:82-103 | a well-formed event stream holds at most one exit event, and holds one iff it ends with it |
| `PtyManager.CopyInheritedKeys` | src-tauri/src/terminal/pty_manager.rs:49-53 | the env loop adds exactly the allowlisted keys found in the parent environment and leaves all other keys alone |
| `PtyManager.CopyInheritedValue` | src-tauri/src/terminal/pty_manager.rs:49-53 | an allowlisted variable gets the value of its last occurrence |
| `PtyManager.CopyUntouched` | src-tauri/src/terminal/pty_manager.rs:46-53 | a key that no later variable names keeps its value (TERM stays `xterm-256color` for another reason: it is not allowlisted, see `CopyInheritedKeys`) |
| `PtyManager.BuildCommand` | src-tauri/src/terminal/pty_manager.rs:42-53 | the configured shell with the single argument `-i`, over the builder's starting environment: TERM=xterm-256color; the keys are the starting ones, TERM and the allowlisted names present in the parent environment; every key other than TERM and HOME, PATH, USER, SHELL, LANG, LC_ALL keeps its starting value |
| `PtyManager.NewSession` | src-tauri/src/terminal/pty_manager.rs:24-115 | on success, a session for the config id, with the config's rows and cols, zero pixel sizes, the command built over the given starting environment and nothing written; on failure, the backend error unchanged |
| `PtyManager.Write` | src-tauri/src/terminal/pty_manager.rs:117-128 | the prefix of `data` that `write_all` delivered is appended to the bytes delivered, whatever the outcome: all of `data` on success, a possibly shorter prefix when `write_all` fails part way, all of it when only `flush` fails; the outcome is returned and id, size and command are kept |
| `PtyManager.Resize` | src-tauri/src/terminal/pty_manager.rs:130-139 | on success, rows and cols pass through unchanged with zero pixel sizes; on failure, the I/O error |
| `PtyManager.ReaderLoop` | src-tauri/src/terminal/pty_manager.rs:82-103 | emits `ReaderEvents` of the reads performed, and no payload exceeds the 8192-byte buffer |
| `PtyManager.ReaderEventsMatchReads` | src-tauri/src/terminal/pty_manager.rs:84-101 | event k answers read k: the output event carries exactly those bytes, or the exit event is last; an exit event is present iff some read returned 0 bytes or failed; when no read ends the stream, every read has its event; the stream is well formed |
| `TerminalCommands.Terminals.constructor` | src-tauri/src/terminal/pty_manager.rs:142-146 | an empty session table |
| `TerminalCommands.Terminals.CreateTerminal` | src-tauri/src/terminal/commands.rs:5-31 | an existing id: Ok, nothing spawned, table unchanged; otherwise one backend attempt, Err "Failed to create terminal: …" with table unchanged, or exactly one entry added under the id |
| `TerminalCommands.Terminals.WriteToTerminal` | src-tauri/src/terminal/commands.rs:34-45 | an unknown id: Ok, nothing changes; otherwise that session's written bytes grow by the delivered prefix of `data` (all of it on success), and a write or flush error gives Err "Write failed: …" |
| `TerminalCommands.Terminals.ResizeTerminal` | src-tauri/src/terminal/commands.rs:48-60 | an unknown id: Ok, nothing changes; an error: Err "Resize failed: …"; success: only that session's size changes |
| `TerminalCommands.Terminals.CloseTerminal` | src-tauri/src/terminal/commands.rs:63-69 | always Ok; the id is removed and every other id is untouched |
| `TerminalCommands.CreateTwice` | src-tauri/src/terminal/commands.rs:12-28 | two creates for one id, the first successful, reach the backend at most once |
| `TerminalCommands.CloseTwice` | src-tauri/src/terminal/commands.rs:63-69 | closing twice is the same as closing once |
| `Mfa.MfaChannels.constructor` | src-tauri/src/ssh/commands.rs:14-16 | no responder pending |
| `Mfa.MfaChannels.Register` | src-tauri/src/ssh/session.rs:373-379 | a fresh channel is filed under the terminal id, replacing any pending one |
| `Mfa.MfaChannels.Submit` | src-tauri/src/ssh/commands.rs:124-140 | a pending responder is removed and receives the responses unchanged; without one: Err "No pending MFA request for terminal: <id>" and nothing changes |
| `Mfa.MfaChannels.Cancel` | src-tauri/src/ssh/commands.rs:145-154 | always Ok; only that id's responder is dropped |
| `Mfa.MfaChannels.Await` | src-tauri/src/ssh/session.rs:403-425 | delivered responses are received; a dropped sender means cancelled; a sender still pending means timeout, and that terminal's entry is removed |
| `Mfa.SubmitTwice` | src-tauri/src/ssh/commands.rs:131-138 | a second submit for the same id fails, and only the first responses are delivered |
| `Mfa.CancelTwice` | src-tauri/src/ssh/commands.rs:151-153 | cancel is idempotent and leaves other terminals' entries alone |
| `SshSession.ToMfaPrompts` | src-tauri/src/ssh/session.rs:382-388 | the prompts sent to the UI: same count and order, with text and echo flag copied |
| `SshSession.KeyboardInteractive` | src-tauri/src/ssh/session.rs:316-435 | returns `KbiResult` (Success → Ok(true), Failure → Ok(false), cancel → "MFA authentication cancelled by user", timeout → "MFA authentication timeout"); takes the steps of `KbiTrace`; leaves the terminal's entry gone iff it prompted |
| `SshSession.PromptAfterRegistration` | src-tauri/src/ssh/session.rs:376-399 | every prompt event comes right after its terminal's responder is registered, and carries that terminal id |
| `SshSession.NoPromptsNoRegistration` | src-tauri/src/ssh/session.rs:364-370 | an exchange without prompts registers nothing and emits nothing; every step sends an empty response |
| `SshSession.FirstAuth` | src-tauri/src/ssh/session.rs:107-145 | the configured method's verdict; password and public-key errors get "Authentication error: "; key-file errors pass unchanged |
| `SshSession.PromptPayload` | src-tauri/src/ssh/session.rs:381-395 | the `ssh-mfa-prompt` payload carries the terminal id, the request's name and instructions unchanged, and one prompt per server prompt in order, with text and echo flag copied |
| `SshSession.Connect` | src-tauri/src/ssh/session.rs:43-292 | returns `ConnectResult`; keyboard-interactive runs only when the first method returned false; its Ok(false) gives "SSH MFA authentication failed"; a new session has an empty control queue |
| `SshSession.SendWrite` | src-tauri/src/ssh/session.rs:294-302 | on success, exactly one `Write(data)` is appended to the control queue; on failure, the send error |
| `SshSession.SendResize` | src-tauri/src/ssh/session.rs:304-307 | on success, exactly one `Resize(rows, cols)` is appended to the control queue; on failure, the send error |
| `SshSession.Dispatch` | src-tauri/src/ssh/session.rs:248-257 | a write sends its bytes unchanged; a resize becomes `window_change(cols, rows, 0, 0)` |
| `SshSession.ChannelTask` | src-tauri/src/ssh/session.rs:244-283 | produces `TaskEffects` of its inputs |
| `SshSession.StepEffects` | src-tauri/src/ssh/session.rs:247-279 | the effects of one loop iteration that does not end the channel (`TaskEffects` is defined through it); they never include the exit event |
| `SshSession.ExitIsLast` | src-tauri/src/ssh/session.rs:274-277 | the exit event is emitted at most once and is the last effect: the loop breaks right after it |
| `SshSession.ExitIffChannelEnds` | src-tauri/src/ssh/session.rs:260-281 | the exit event is emitted iff some input is Eof, ExitStatus or a closed channel |
| `SshSession.ControlInOrder` | src-tauri/src/ssh/session.rs:245-281 | for any interleaving of queued commands and channel messages, what the task sends on the channel is exactly the commands it took before the channel ended, each dispatched unchanged and in queue order |
| `SshSession.OutputInOrder` | src-tauri/src/ssh/session.rs:260-281 | the events emitted are one `terminal-output-<id>` event per `Data` message before the end, carrying its bytes, in arrival order, followed by the exit event exactly when some message ends the channel |
| `SshCommands.SshTerminals.constructor` | src-tauri/src/ssh/commands.rs:8 | an empty session table |
| `SshCommands.SshTerminals.CreateSshTerminal` | src-tauri/src/ssh/commands.rs:19-54 | an existing id: Ok, no connect, no responder touched; no SSH settings: Err "SSH config is required for SSH connection"; otherwise one connect, and either Err "Failed to create SSH session: …" with nothing inserted, or the new session inserted under the id; the responder table loses the id's entry exactly when keyboard-interactive ran and prompted, and no other entry changes |
| `SshCommands.SshTerminals.WriteToSshTerminal` | src-tauri/src/ssh/commands.rs:66-93 | an unknown id: Err "Session <id> not found"; otherwise the bytes are queued, or Err "Write failed: …" |
| `SshCommands.SshTerminals.ResizeSshTerminal` | src-tauri/src/ssh/commands.rs:96-110 | an unknown id: Ok, nothing changes; otherwise the resize is queued, or Err "Resize failed: …" |
| `SshCommands.SshTerminals.CloseSshTerminal` | src-tauri/src/ssh/commands.rs:113-119 | always Ok; the id is removed |
| `SshCommands.CreateSshTwice` | src-tauri/src/ssh/commands.rs:28-48 | after a successful create, a second create for the id connects nothing and leaves the responder table as the first left it |
| `SftpSession.DigitChar` | src-tauri/src/sftp/session.rs:116 | the character of an octal digit, and its digit value |
| `SftpSession.Octal` | src-tauri/src/sftp/session.rs:116 | `{:o}` rendering: at least one digit, all in 0-7, no prefix, a leading 0 only for zero itself |
| `SftpSession.OctalRoundTrip` | src-tauri/src/sftp/session.rs:116 | reading the rendered digits back gives the number |
| `SftpSession.LeadingDigitPositive` | src-tauri/src/sftp/session.rs:116 | a digit string with a nonzero leading digit denotes a positive number |
| `SftpSession.OctalOfValue` | src-tauri/src/sftp/session.rs:116 | every canonical octal string is the rendering of its value, so the rendering is a bijection onto canonical strings |
| `SftpSession.ToFileEntry` | src-tauri/src/sftp/session.rs:110-118 | name and is_dir copied; size, or 0 when absent; permissions None when absent, else canonical octal digits denoting the mode; mtime widened when present |
| `SftpSession.ListDir` | src-tauri/src/sftp/session.rs:103-122 | one entry per directory entry, in order, each `ToFileEntry` of it; a read_dir failure gives "Failed to read directory: …" and no entries |
| `SftpSession.Authenticate` | src-tauri/src/sftp/session.rs:55-72 | password errors get "Authentication error: "; the public-key path passes key-file and server errors unchanged |
| `SftpSession.Open` | src-tauri/src/sftp/session.rs:18-100 | a session for the id iff connect, authentication (verdict true), channel, subsystem and init all succeed; otherwise the first failing step's error, including "SSH authentication failed" |
| `SftpSession.WriteFile` | src-tauri/src/sftp/session.rs:133-143 | success iff both create and write succeed; otherwise "Failed to create file: …" or "Failed to write data: …" |
| `SftpSession.WriteRequests` | src-tauri/src/sftp/session.rs:136-140 | the file is created first, and data is written iff the create succeeded |
| `SftpCommands.NotFound` | src-tauri/src/sftp/commands.rs:58-59 | exactly "SFTP session ", then the id, then " not found" |
| `SftpCommands.SftpSessions.constructor` | src-tauri/src/sftp/commands.rs:11-13 | an empty session table |
| `SftpCommands.SftpSessions.Connect` | src-tauri/src/sftp/commands.rs:17-46 | an existing id: Ok, no connect; no SSH settings: Err with the table unchanged; otherwise one open attempt, and either Err "Failed to create SFTP session: …" with nothing inserted, or a session inserted under the id |
| `SftpCommands.SftpSessions.ListDirectory` | src-tauri/src/sftp/commands.rs:50-66 | an unknown id: not found and no request; otherwise one ReadDir, with the listing mapped entry by entry or the doubly prefixed error; the table is not modified |
| `SftpCommands.SftpSessions.DownloadFile` | src-tauri/src/sftp/commands.rs:70-90 | an unknown id: not found; a remote read error: nothing written locally; otherwise exactly the remote bytes go to the local write |
| `SftpCommands.SftpSessions.UploadFile` | src-tauri/src/sftp/commands.rs:94-114 | a local read error wins even over an unknown id; otherwise the session is looked up, then the remote create and write run; success iff every step succeeds |
| `SftpCommands.SftpSessions.Remove` | src-tauri/src/sftp/commands.rs:118-140 | an unknown id: not found; `remove_dir` is issued iff is_dir, else `remove_file`, with that operation's error messages |
| `SftpCommands.SftpSessions.CreateDirectory` | src-tauri/src/sftp/commands.rs:144-160 | an unknown id: not found; otherwise one MakeDir request, with its error prefixed twice |
| `SftpCommands.SftpSessions.Disconnect` | src-tauri/src/sftp/commands.rs:164-171 | always Ok; the id is removed |
| `SftpCommands.DisconnectTwice` | src-tauri/src/sftp/commands.rs:164-171 | disconnecting twice is the same as disconnecting once |
| `SftpCommands.ConnectTwice` | src-tauri/src/sftp/commands.rs:24-42 | after a successful connect, a second connect for the id opens nothing |

## Left out

- Locking and concurrency are not modelled. Each command runs atomically. The window between a create command's existence check and its insert matters only under parallel calls.
  - The same holds for the tokio `select!` in the channel task, the reader thread, and the 100-slot control queue. The queue's back-pressure is not modelled.
- The native PTY, child spawning, the russh and russh-sftp clients, key-file decoding and local file I/O are outcomes passed in as parameters:
  - PTY creation, spawning and taking the reader and writer are one `Result`;
  - each SSH/SFTP step is one `Result`;
  - server replies are an `Exchange` script.
- The 120-second timer is an abstract outcome. A wait times out when no answer was given.
- Output payloads stay bytes. The lossy UTF-8 decoding of PTY and SSH output is not modelled, nor are debug previews, `read_count` and logging.
- A payload-emit failure is not modelled. If emitting `ssh-mfa-prompt` fails, the loop returns early and the registered responder stays in the table.
- A failed start or respond call of keyboard-interactive is modelled as `Exchange.Error`, with the library's message passed on unchanged.
- SshSession.KeyboardInteractive: models only finite exchanges. An infinite sequence of server InfoRequests is not represented.
- Mfa.MfaChannels.Submit: does not model the "Failed to send MFA response: channel closed" error. That error needs a pending sender whose receiver is gone, which happens when emitting `ssh-mfa-prompt` fails and the exchange returns early. Emit failures are not modelled (see above), and without them a pending sender's receiver is still waiting.
- SshSession.Connect: does not model the channel task's failure to take sole ownership of the channel (`Arc::try_unwrap`). That silent early exit of the task cannot happen when the task is the only holder.
- SshSession.ChannelTask: does not model the results of `channel.data` and `window_change` sent to the server. The task ignores them as well.
- Storage.ConnectionStorage: does not model file read, TOML parse or write errors, nor config-directory resolution. The file is a flag plus a list.
- The `is_dir` flag of a directory entry is taken as given; the SFTP library derives it from the permission bits.
- `test_ssh_connection` always returns a fixed "not implemented" error and is not modelled.
- The Tauri wiring, the logging macro, the module re-exports and the front-end are not part of this model.
- portable_pty is not part of this model. The environment its `CommandBuilder::new` starts from (a copy of the parent's) is a parameter of `PtyManager.BuildCommand`, so the model promises nothing about which keys that copy holds.
- Writes carry the bytes of the given string (`as_bytes`); the model takes those bytes directly.
- `request_pty` sends the user name as the terminal type. This is modelled as written (`SshSession.PtyRequest.term`).
