/** Connection profiles: the records the UI saves and hands to the SSH and SFTP commands. */
module Models {
  import opened Common

  /** Only Local and Ssh are ever built; Telnet and Serial are declared for later protocols. */
  datatype ConnectionType = Local | Ssh | Telnet | Serial

  /** How the SSH user proves its identity: a password, or a private key file with an optional passphrase. */
  datatype SshAuth =
    | Password(secret: string)
    | PublicKey(privateKeyPath: string, passphrase: Option<string>)

  datatype SshConfig = SshConfig(host: string, port: u16, username: string, auth: SshAuth)

  datatype Connection = Connection(id: string, name: string, connectionType: ConnectionType, sshConfig: Option<SshConfig>)

  /** The shape of every profile the two constructors can build: a local shell without SSH settings,
      or an SSH profile that carries them. */
  predicate Constructed(c: Connection)
  {
    || (c.connectionType == Local && c.sshConfig.None?)
    || (c.connectionType == Ssh && c.sshConfig.Some?)
  }

  /** `Connection::new_local`; the freshly generated UUID is the parameter `id`. */
  function NewLocal(id: string, name: string): (c: Connection)
    ensures Constructed(c) && c.connectionType == Local
    ensures c.id == id && c.name == name
  {
    Connection(id, name, Local, None)
  }

  /** `Connection::new_ssh`; the freshly generated UUID is the parameter `id`. */
  function NewSsh(id: string, name: string, config: SshConfig): (c: Connection)
    ensures Constructed(c) && c.connectionType == Ssh
    ensures c.id == id && c.name == name && c.sshConfig == Some(config)
  {
    Connection(id, name, Ssh, Some(config))
  }
}
