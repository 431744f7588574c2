/**
 * The SSH helpers of backend/utils/sshUtils.js: choosing the credentials of
 * a connection, the rule that turns a finished remote command into a
 * result, and the two exec calls as objects whose callbacks update them.
 */
module SshUtils {
  import opened Wrappers
  import opened Text
  import opened Config
  import opened Events

  /** The one credential a connection offers: a password, or else a private key. */
  datatype Credential = Password(password: string) | PrivateKey(key: seq<bv8>)

  /** The connection options handed to the SSH client. */
  datatype SshConfig = SshConfig(host: Option<string>, port: Port, username: string, credential: Credential)

  const NO_CREDENTIALS_ERROR: string := "No SSH password or private key found for authentication."

  /**
   * `getSSHConfig()`: host, port and user from the settings, the password
   * when one is set, else the private key when one was loaded, else an error.
   * A loaded key counts even when the key file is empty, as a Buffer is
   * always truthy.
   */
  function GetSSHConfig(s: Settings): (r: Result<SshConfig, string>)
    ensures r.Ok? <==> Truthy(s.sshPassword) || s.sshPrivateKey.Some?
    ensures r.Ok? ==> r.value.host == s.sshHost && r.value.port == s.sshPort && r.value.username == s.sshUser
    ensures r.Ok? && r.value.credential.Password? ==> Truthy(s.sshPassword) && r.value.credential.password == s.sshPassword.value
    ensures r.Ok? && r.value.credential.PrivateKey? ==> s.sshPrivateKey == Some(r.value.credential.key)
    ensures r.Err? ==> r.error == NO_CREDENTIALS_ERROR
  {
    if Truthy(s.sshPassword) then Ok(SshConfig(s.sshHost, s.sshPort, s.sshUser, Password(s.sshPassword.value)))
    else if s.sshPrivateKey.Some? then Ok(SshConfig(s.sshHost, s.sshPort, s.sshUser, PrivateKey(s.sshPrivateKey.value)))
    else Err(NO_CREDENTIALS_ERROR)
  }

  /** A configured password wins over a configured key: the key is then not offered at all. */
  lemma PasswordPreferred(s: Settings)
    requires Truthy(s.sshPassword)
    ensures GetSSHConfig(s).Ok? && GetSSHConfig(s).value.credential == Password(s.sshPassword.value)
  {
  }

  /** Without a password, a loaded key is offered, whatever its content. */
  lemma KeyWithoutPassword(s: Settings)
    requires !Truthy(s.sshPassword) && s.sshPrivateKey.Some?
    ensures GetSSHConfig(s).Ok? && GetSSHConfig(s).value.credential == PrivateKey(s.sshPrivateKey.value)
  {
  }

  /**
   * The `code` argument of a channel's `close` event: the exit status of the
   * remote command, `null` when the command was ended by a signal, or absent
   * when the channel closed without any exit report.
   */
  datatype ExitCode = Code(status: int) | NullCode | NoCode

  /** The text `${code}` gives for each kind of close code. */
  function ExitCodeText(code: ExitCode): string {
    match code
    case Code(n) => IntToString(n)
    case NullCode => "null"
    case NoCode => "undefined"
  }

  /**
   * What `sshExec` settles with once the channel closes: the collected
   * standard output for exit code 0; otherwise the collected standard error,
   * or a message naming the code when there was none.
   */
  function ExecOutcome(stdout: string, stderr: string, code: ExitCode): (r: Result<string, string>)
    ensures r.Ok? <==> code == Code(0)
    ensures r.Ok? ==> r.value == stdout
    ensures r.Err? ==> r.error != []
    ensures r.Err? && stderr != [] ==> r.error == stderr
  {
    if code == Code(0) then Ok(stdout)
    else if stderr != "" then Err(stderr)
    else Err("SSH exited with code " + ExitCodeText(code))
  }

  /** A failing command with nothing on standard error reports its exit code. */
  lemma SilentFailureNamesCode(stdout: string, n: int)
    requires n != 0
    ensures ExecOutcome(stdout, "", Code(n)) == Err("SSH exited with code " + IntToString(n))
  {
  }

  /** Standard error never turns a zero exit code into a failure. */
  lemma StderrDoesNotFailSuccess(stdout: string, stderr: string)
    ensures ExecOutcome(stdout, stderr, Code(0)) == Ok(stdout)
  {
  }

  /**
   * A command ended by a signal closes its channel with code `null`; with
   * nothing on standard error the rejection names that code as `null`, not
   * as a number and not as `undefined`.
   */
  lemma SignalCloseNamesNull(stdout: string)
    ensures ExecOutcome(stdout, "", NullCode) == Err("SSH exited with code null")
    ensures ExecOutcome(stdout, "", NullCode) != ExecOutcome(stdout, "", NoCode)
  {
    assert ExitCodeText(NullCode) == "null";
    assert "SSH exited with code " + "null" == "SSH exited with code null";
    assert ExitCodeText(NoCode)[0] != ExitCodeText(NullCode)[0];
  }

  /** The concatenation of the chunks a stream delivered, in order. */
  function Concat(chunks: seq<string>): string {
    if chunks == [] then "" else Concat(chunks[..|chunks| - 1]) + chunks[|chunks| - 1]
  }

  /**
   * One `sshExec(command)` call: the promise it returns (`settled`, which a
   * later `resolve` or `reject` no longer changes), the text its `stdout` and
   * `stderr` variables collect, and whether it has ended the connection.
   */
  class ExecCall {
    const command: string
    var stdout: string
    var stderr: string
    var settled: Option<Result<string, string>>
    var connectionEnded: bool
    /** The chunks delivered so far on the two channels. */
    ghost var outChunks: seq<string>
    ghost var errChunks: seq<string>

    ghost predicate Valid()
      reads this
    {
      stdout == Concat(outChunks) && stderr == Concat(errChunks)
    }

    /** Starts the connection; a missing credential throws inside the promise executor and so rejects it. */
    constructor(command: string, s: Settings)
      ensures Valid() && this.command == command
      ensures outChunks == [] && errChunks == [] && !connectionEnded
      ensures settled == (if GetSSHConfig(s).Err? then Some(Err(GetSSHConfig(s).error)) else None)
    {
      this.command := command;
      stdout := "";
      stderr := "";
      outChunks := [];
      errChunks := [];
      connectionEnded := false;
      settled := if GetSSHConfig(s).Err? then Some(Err(GetSSHConfig(s).error)) else None;
    }

    /** The first settlement sticks. */
    method Settle(outcome: Result<string, string>)
      modifies this
      ensures settled == (if old(settled).None? then Some(outcome) else old(settled))
      ensures stdout == old(stdout) && stderr == old(stderr) && connectionEnded == old(connectionEnded)
      ensures outChunks == old(outChunks) && errChunks == old(errChunks)
    {
      if settled.None? {
        settled := Some(outcome);
      }
    }

    /** The `exec` callback reported an error: the promise rejects and the connection is left open. */
    method OnExecError(message: string)
      requires Valid()
      modifies this
      ensures Valid()
      ensures settled == (if old(settled).None? then Some(Err(message)) else old(settled))
      ensures stdout == old(stdout) && stderr == old(stderr) && connectionEnded == old(connectionEnded)
    {
      Settle(Err(message));
    }

    /** A chunk on standard output is appended. */
    method OnData(chunk: string)
      requires Valid()
      modifies this
      ensures Valid() && outChunks == old(outChunks) + [chunk] && errChunks == old(errChunks)
      ensures stdout == old(stdout) + chunk && stderr == old(stderr)
      ensures settled == old(settled) && connectionEnded == old(connectionEnded)
    {
      stdout := stdout + chunk;
      outChunks := outChunks + [chunk];
    }

    /** A chunk on standard error is appended. */
    method OnStderrData(chunk: string)
      requires Valid()
      modifies this
      ensures Valid() && errChunks == old(errChunks) + [chunk] && outChunks == old(outChunks)
      ensures stderr == old(stderr) + chunk && stdout == old(stdout)
      ensures settled == old(settled) && connectionEnded == old(connectionEnded)
    {
      stderr := stderr + chunk;
      errChunks := errChunks + [chunk];
    }

    /** The channel closed: the connection is ended and the promise settles by the exit code. */
    method OnClose(code: ExitCode)
      requires Valid()
      modifies this
      ensures Valid() && connectionEnded
      ensures settled == (if old(settled).None? then Some(ExecOutcome(Concat(outChunks), Concat(errChunks), code)) else old(settled))
      ensures stdout == old(stdout) && stderr == old(stderr)
      ensures outChunks == old(outChunks) && errChunks == old(errChunks)
    {
      connectionEnded := true;
      Settle(ExecOutcome(stdout, stderr, code));
    }

    /** The connection reported an error: the promise rejects with it. */
    method OnConnectionError(message: string)
      requires Valid()
      modifies this
      ensures Valid()
      ensures settled == (if old(settled).None? then Some(Err(message)) else old(settled))
      ensures stdout == old(stdout) && stderr == old(stderr) && connectionEnded == old(connectionEnded)
    {
      Settle(Err(message));
    }
  }

  /**
   * One `sshExecStream(command)` call: the promise resolves with the remote
   * stream; the connection is ended when exec fails and when the stream closes.
   */
  class ExecStreamCall {
    const command: string
    var settled: Option<Result<Handle, string>>
    var connectionEnded: bool

    constructor(command: string, s: Settings)
      ensures this.command == command && !connectionEnded
      ensures settled == (if GetSSHConfig(s).Err? then Some(Err(GetSSHConfig(s).error)) else None)
    {
      this.command := command;
      connectionEnded := false;
      settled := if GetSSHConfig(s).Err? then Some(Err(GetSSHConfig(s).error)) else None;
    }

    /** The `exec` callback: an error ends the connection and rejects, a stream resolves. */
    method OnExecResult(result: Result<Handle, string>)
      modifies this
      ensures connectionEnded == (old(connectionEnded) || result.Err?)
      ensures settled == (if old(settled).None? then Some(result) else old(settled))
    {
      if result.Err? {
        connectionEnded := true;
      }
      if settled.None? {
        settled := Some(result);
      }
    }

    /** The stream closed: the connection is ended. */
    method OnStreamClose()
      modifies this
      ensures connectionEnded && settled == old(settled)
    {
      connectionEnded := true;
    }

    method OnConnectionError(message: string)
      modifies this
      ensures connectionEnded == old(connectionEnded)
      ensures settled == (if old(settled).None? then Some(Err(message)) else old(settled))
    {
      if settled.None? {
        settled := Some(Err(message));
      }
    }
  }
}
