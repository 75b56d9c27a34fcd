/** An SFTP session (`SftpSessionWrapper`): opening it over SSH, the requests it sends to the server, and the
    mapping of a directory listing to the entries shown to the user, with permissions rendered in base 8. Network
    steps are outcomes passed in as parameters. */
module SftpSession {
  import opened Common
  import opened Models

  // ---------------------------------------------------------------- octal rendering

  /** The character of one octal digit. */
  function DigitChar(d: nat): (c: char)
    requires d < 8
    ensures '0' <= c <= '7' && c as int - '0' as int == d
  {
    ('0' as int + d) as char
  }

  /** Every character is an octal digit. */
  predicate IsOctal(s: string)
  {
    forall i :: 0 <= i < |s| ==> '0' <= s[i] <= '7'
  }

  /** How `format!("{:o}", n)` writes a number: at least one digit, no leading zero and no `0o` prefix. */
  predicate Canonical(s: string)
  {
    |s| > 0 && IsOctal(s) && (s[0] == '0' ==> |s| == 1)
  }

  /** The number an octal digit string denotes. */
  function OctalValue(s: string): nat
    requires IsOctal(s)
  {
    if s == [] then 0 else OctalValue(s[..|s| - 1]) * 8 + (s[|s| - 1] as int - '0' as int)
  }

  /** `format!("{:o}", n)`: the base-8 digits of `n`, most significant first. */
  function Octal(n: nat): (s: string)
    ensures Canonical(s)
    ensures s[0] == '0' <==> n == 0
    decreases n
  {
    if n < 8 then [DigitChar(n)] else Octal(n / 8) + [DigitChar(n % 8)]
  }

  /** Reading the rendered digits back gives the number: the rendering loses nothing. */
  lemma {:induction false} OctalRoundTrip(n: nat)
    ensures OctalValue(Octal(n)) == n
    decreases n
  {
    if n >= 8 {
      var s := Octal(n);
      OctalRoundTrip(n / 8);
      assert s[..|s| - 1] == Octal(n / 8);
    }
  }

  /** A canonical digit string that does not start with 0 denotes a positive number. */
  lemma {:induction false} LeadingDigitPositive(s: string)
    requires IsOctal(s) && |s| > 0 && s[0] != '0'
    ensures OctalValue(s) > 0
    decreases |s|
  {
    if |s| > 1 {
      var p := s[..|s| - 1];
      assert p[0] == s[0];
      LeadingDigitPositive(p);
    }
  }

  /** Every canonical digit string is the rendering of its value: the rendering is onto the canonical strings,
      so two permission values render alike only when they are equal. */
  lemma {:induction false} OctalOfValue(s: string)
    requires Canonical(s)
    ensures Octal(OctalValue(s)) == s
    decreases |s|
  {
    var n := OctalValue(s);
    var d := s[|s| - 1] as int - '0' as int;
    if |s| == 1 {
      assert s == [DigitChar(d)];
    } else {
      var p := s[..|s| - 1];
      assert p[0] == s[0];
      assert IsOctal(p);
      LeadingDigitPositive(p);
      OctalOfValue(p);
      assert n == OctalValue(p) * 8 + d;
      assert n / 8 == OctalValue(p) && n % 8 == d;
      assert s == p + [DigitChar(d)];
    }
  }

  // ---------------------------------------------------------------- directory entries

  /** The attributes a directory entry carries; `isDir` is what the SFTP library derives from the file type. */
  datatype FileAttributes = FileAttributes(isDir: bool, size: Option<u64>, permissions: Option<u32>, mtime: Option<u32>)

  /** One entry of a `read_dir` reply. */
  datatype DirEntry = DirEntry(fileName: string, attrs: FileAttributes)

  /** `FileEntry`, the entry sent to the UI. */
  datatype FileEntry = FileEntry(name: string, isDir: bool, size: u64, permissions: Option<string>, modified: Option<u64>)

  /** The `FileEntry` built for one directory entry. */
  function ToFileEntry(e: DirEntry): (r: FileEntry)
    ensures r.name == e.fileName && r.isDir == e.attrs.isDir
    ensures e.attrs.size.Some? ==> r.size == e.attrs.size.value
    ensures e.attrs.size.None? ==> r.size == 0
    ensures r.permissions.Some? <==> e.attrs.permissions.Some?
    ensures r.permissions.Some? ==>
              Canonical(r.permissions.value) && OctalValue(r.permissions.value) == e.attrs.permissions.value as int
    ensures r.modified.Some? <==> e.attrs.mtime.Some?
    ensures r.modified.Some? ==> r.modified.value as int == e.attrs.mtime.value as int
  {
    var permissions :=
      if e.attrs.permissions.None? then None
      else (OctalRoundTrip(e.attrs.permissions.value as int); Some(Octal(e.attrs.permissions.value as int)));
    FileEntry(
      e.fileName,
      e.attrs.isDir,
      match e.attrs.size case Some(n) => n case None => 0,
      permissions,
      match e.attrs.mtime case Some(t) => Some(t as int as u64) case None => None)
  }

  /** `list_dir`: one `FileEntry` per directory entry, in the order the server listed them; a `read_dir` failure
      is reported with no entries. */
  method ListDir(listing: Result<seq<DirEntry>>) returns (r: Result<seq<FileEntry>>)
    ensures r.Ok? <==> listing.Ok?
    ensures r.Err? ==> r.error == "Failed to read directory: " + listing.error
    ensures r.Ok? ==> |r.value| == |listing.value|
    ensures r.Ok? ==> forall i :: 0 <= i < |r.value| ==> r.value[i] == ToFileEntry(listing.value[i])
  {
    if listing.Err? {
      return Err("Failed to read directory: " + listing.error);
    }
    var dir := listing.value;
    var entries: seq<FileEntry> := [];
    for i := 0 to |dir|
      invariant |entries| == i
      invariant forall k :: 0 <= k < i ==> entries[k] == ToFileEntry(dir[k])
    {
      entries := entries + [ToFileEntry(dir[i])];
    }
    r := Ok(entries);
  }

  // ---------------------------------------------------------------- opening and requests

  /** A live SFTP session, as owned by the session table. */
  datatype SftpSession = SftpSession(id: string)

  /** The outcome of every network step of `SftpSessionWrapper::new`, in order. `keyLoad` covers reading and
      decoding the private key and choosing its hash (public-key profiles only); `auth` is the server's verdict. */
  datatype OpenScript = OpenScript(
    connect: Result<()>,
    keyLoad: Result<()>,
    auth: Result<bool>,
    openChannel: Result<()>,
    subsystem: Result<()>,
    init: Result<()>)

  /** The verdict of the configured method, or the error that ends the attempt. A password error is prefixed; the
      public-key path passes its errors on unchanged. */
  function Authenticate(auth: SshAuth, s: OpenScript): (r: Result<bool>)
    ensures auth.Password? ==> r == Context(s.auth, "Authentication error: ")
    ensures auth.PublicKey? ==> r == if s.keyLoad.Err? then Err(s.keyLoad.error) else s.auth
  {
    match auth
    case Password(_) => Context(s.auth, "Authentication error: ")
    case PublicKey(_, _) => if s.keyLoad.Err? then Err(s.keyLoad.error) else s.auth
  }

  /** `SftpSessionWrapper::new`: connect, authenticate (no keyboard-interactive fallback), open a channel, request
      the `sftp` subsystem and start the session. The session exists exactly when every step succeeds and the
      server accepts the credentials; otherwise the first failing step names the error. */
  function Open(config: SshConfig, id: string, s: OpenScript): (r: Result<SftpSession>)
    ensures r.Ok? <==> s.connect.Ok? && Authenticate(config.auth, s) == Ok(true)
                       && s.openChannel.Ok? && s.subsystem.Ok? && s.init.Ok?
    ensures r.Ok? ==> r.value.id == id
    ensures s.connect.Err? ==> r == Err("Connection failed: " + s.connect.error)
    ensures s.connect.Ok? && Authenticate(config.auth, s).Err? ==> r == Err(Authenticate(config.auth, s).error)
    ensures s.connect.Ok? && Authenticate(config.auth, s) == Ok(false) ==> r == Err("SSH authentication failed")
    ensures s.connect.Ok? && Authenticate(config.auth, s) == Ok(true) && s.openChannel.Err? ==>
              r == Err("Failed to open channel: " + s.openChannel.error)
    ensures s.connect.Ok? && Authenticate(config.auth, s) == Ok(true) && s.openChannel.Ok? && s.subsystem.Err? ==>
              r == Err("Failed to request SFTP subsystem: " + s.subsystem.error)
    ensures s.connect.Ok? && Authenticate(config.auth, s) == Ok(true) && s.openChannel.Ok? && s.subsystem.Ok? && s.init.Err? ==>
              r == Err("Failed to create SFTP session: " + s.init.error)
  {
    if s.connect.Err? then Err("Connection failed: " + s.connect.error)
    else match Authenticate(config.auth, s)
      case Err(e) => Err(e)
      case Ok(false) => Err("SSH authentication failed")
      case Ok(true) =>
        if s.openChannel.Err? then Err("Failed to open channel: " + s.openChannel.error)
        else if s.subsystem.Err? then Err("Failed to request SFTP subsystem: " + s.subsystem.error)
        else if s.init.Err? then Err("Failed to create SFTP session: " + s.init.error)
        else Ok(SftpSession(id))
  }

  /** The requests a session sends to the server. */
  datatype SftpRequest =
    | ReadDir(path: string)
    | Read(path: string)
    | Create(path: string)
    | WriteData(path: string, data: seq<byte>)
    | RemoveFile(path: string)
    | RemoveDir(path: string)
    | MakeDir(path: string)

  /** `write_file`: create (or truncate) the file, then write the data; each step reports its own error. */
  function WriteFile(create: Result<()>, write: Result<()>): (r: Result<()>)
    ensures r.Ok? <==> create.Ok? && write.Ok?
    ensures create.Err? ==> r.error == "Failed to create file: " + create.error
    ensures create.Ok? && write.Err? ==> r.error == "Failed to write data: " + write.error
  {
    if create.Err? then Err("Failed to create file: " + create.error)
    else if write.Err? then Err("Failed to write data: " + write.error)
    else Ok(())
  }

  /** The requests `write_file` sends: the data is written only once the file was created. */
  function WriteRequests(path: string, data: seq<byte>, create: Result<()>): (issued: seq<SftpRequest>)
    ensures |issued| > 0 && issued[0] == Create(path)
    ensures WriteData(path, data) in issued <==> create.Ok?
  {
    [Create(path)] + if create.Ok? then [WriteData(path, data)] else []
  }
}
