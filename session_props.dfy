/**
 * What the socket handlers promise, one operation at a time: the token gate,
 * the exact events each outcome emits and their order, the teardown
 * operations and their idempotence, and the fields each operation leaves
 * alone.
 */
module SessionProps {
  import opened Wrappers
  import opened Text
  import opened Config
  import opened Events
  import opened Auth
  import opened SshUtils
  import opened StreamHelpers
  import opened SessionSpec

  /** The state after a rejected token: only the invalid-token pair has been emitted. */
  predicate OnlyRejected(s: ConnState, t: ConnState, outputEvent: string, doneEvent: string) {
    t == s.(emitted := s.emitted + InvalidTokenEvents(outputEvent, doneEvent))
  }

  // ---------------------------------------------------------------- the token gate

  /** A command with a rejected token emits the invalid-token pair on its own events, and resolves, spawns and connects nothing. */
  lemma CommandStreamGate(env: SessionEnv, s: ConnState, token: Option<string>, eventType: string, commandType: string)
    requires !TokenAccepted(env.verify, token)
    ensures OnlyRejected(s, CommandStream(env, s, token, eventType, commandType), eventType + "Output", eventType + "Done")
  {
  }

  /** A terminal start with a rejected token emits the invalid-token pair and changes nothing else. */
  lemma TerminalStartGate(env: SessionEnv, s: ConnState, token: Option<string>)
    requires !TokenAccepted(env.verify, token)
    ensures OnlyRejected(s, StartLocalTerminal(env, s, token), TERMINAL_OUTPUT, TERMINAL_DONE)
    ensures OnlyRejected(s, StartRemoteTerminal(env, s, token), TERMINAL_OUTPUT, TERMINAL_DONE)
  {
  }

  /** Input, resize and stop with a rejected token emit the invalid-token pair and leave the running session alone. */
  lemma TerminalListenerGate(env: SessionEnv, s: ConnState, owner: Owner, token: Option<string>, input: string, cols: int, rows: int)
    requires !TokenAccepted(env.verify, token)
    ensures OnlyRejected(s, TerminalInputOp(env, s, owner, token, input), TERMINAL_OUTPUT, TERMINAL_DONE)
    ensures OnlyRejected(s, TerminalResizeOp(env, s, owner, token, cols, rows), TERMINAL_OUTPUT, TERMINAL_DONE)
    ensures OnlyRejected(s, StopTerminalOp(env, s, owner, token), TERMINAL_OUTPUT, TERMINAL_DONE)
  {
  }

  // ---------------------------------------------------------------- command streams

  /** The event names of an operation are its type followed by `Output` and `Done`. */
  lemma CommandEventNames(env: SessionEnv, s: ConnState, token: Option<string>, eventType: string, commandType: string)
    requires TokenAccepted(env.verify, token) && env.settings.appManageMode != "ssh"
    ensures var t := CommandStream(env, s, token, eventType, commandType);
      && Handle(s.nextHandle) in t.relays
      && t.relays[Handle(s.nextHandle)] == Relay(eventType + "Output", eventType + "Done", SeparateStream, None)
  {
  }

  /** In local mode the spawned child becomes the logs process for `logs` only; other operations leave the field as it was. */
  lemma LogsProcessRecordedForLogsOnly(env: SessionEnv, s: ConnState, token: Option<string>, eventType: string, commandType: string)
    requires TokenAccepted(env.verify, token)
    ensures var t := CommandStream(env, s, token, eventType, commandType);
      t.logsProcess == if env.settings.appManageMode != "ssh" && eventType == "logs" then Some(Handle(s.nextHandle)) else s.logsProcess
  {
  }

  /** In `ssh` mode without a credential the error is reported on the operation's events: the message, then status 1. */
  lemma SshCommandWithoutCredentials(env: SessionEnv, s: ConnState, token: Option<string>, eventType: string, commandType: string)
    requires TokenAccepted(env.verify, token) && env.settings.appManageMode == "ssh"
    requires GetSSHConfig(env.settings).Err?
    ensures CommandStream(env, s, token, eventType, commandType) ==
      s.(emitted := s.emitted + [Emit(eventType + "Output", Message("SSH error: " + NO_CREDENTIALS_ERROR + "\n")), Emit(eventType + "Done", Status(1))])
  {
  }

  /** A failed exec ends the connection and reports the error, message first, then status 1; the command is no longer pending. */
  lemma SshExecFailure(s: ConnState, conn: Handle, message: string)
    requires conn in s.pending
    ensures var p := s.pending[conn];
      OnCommandExec(s, conn, Some(message)) ==
        s.(effects := s.effects + [SshEnd(conn)],
           emitted := s.emitted + [Emit(p.outputEvent, Message("SSH error: " + message + "\n")), Emit(p.doneEvent, Status(1))],
           pending := s.pending - {conn})
  {
  }

  /** Once the stream promise has settled, a connection error reports nothing. */
  lemma SettledCommandIgnoresConnError(s: ConnState, conn: Handle, message: string)
    requires conn !in s.pending
    ensures OnCommandConnError(s, conn, message) == s
  {
  }

  /** A successful exec relays the SSH stream, hearing its own `.stderr`, over the connection it runs on. */
  lemma SshStreamRelayed(s: ConnState, conn: Handle)
    requires conn in s.pending
    ensures var t := OnCommandExec(s, conn, None);
      && Handle(s.nextHandle) in t.relays
      && t.relays[Handle(s.nextHandle)] == Relay(s.pending[conn].outputEvent, s.pending[conn].doneEvent, MainStreamStderr, Some(conn))
      && t.emitted == s.emitted && t.effects == s.effects
  {
  }

  /** The close of an SSH command stream ends its connection and emits the done event with the close code. */
  lemma SshStreamCloseEndsConnection(s: ConnState, stream: Handle, code: Option<int>)
    requires stream in s.relays && s.relays[stream].conn.Some?
    ensures var r := s.relays[stream];
      OnCommandChunk(s, stream, MainClose(code)) ==
        s.(effects := s.effects + [SshEnd(r.conn.value)], emitted := s.emitted + [Emit(r.doneEvent, CloseStatus(code))])
  {
  }

  /** A local child's stdout closes without an exit code, so its done event carries `null`. */
  lemma LocalCloseCarriesNoCode(s: ConnState, stream: Handle, code: Option<int>)
    requires stream in s.relays && s.relays[stream].conn.None?
    ensures OnCommandChunk(s, stream, MainClose(code)) == s.(emitted := s.emitted + [Emit(s.relays[stream].doneEvent, NullStatus)])
  {
  }

  /** The output of `performUpdate` is filtered. */
  lemma UpdateOutputFiltered(outputEvent: string)
    requires outputEvent == "update" + "Output"
    ensures ShouldFilterOutput(outputEvent)
  {
    assert outputEvent[..6] == "update";
    StartsWithContains(outputEvent, "update");
  }

  /** The output of `performServerUpdate` is filtered: its name holds `Update`. */
  lemma ServerUpdateOutputFiltered(outputEvent: string)
    requires outputEvent == "serverUpdate" + "Output"
    ensures ShouldFilterOutput(outputEvent)
  {
    var rest := outputEvent[6..];
    assert rest[..6] == "Update";
    StartsWithContains(rest, "Update");
    assert outputEvent == outputEvent[..6] + rest;
    ContainsAfterPrefix(outputEvent[..6], rest, "Update");
  }

  /** The output of `performLogs` is relayed unfiltered. */
  lemma LogsOutputUnfiltered(outputEvent: string)
    requires outputEvent == "logs" + "Output"
    ensures !ShouldFilterOutput(outputEvent)
  {
    assert 'd' !in outputEvent;
    MissingCharNotContained(outputEvent, "update", 'd');
    MissingCharNotContained(outputEvent, "Update", 'd');
  }

  // ---------------------------------------------------------------- logs teardown

  /** `stopPerformLogs` clears both logs fields, emits `logsDone` 0 once, and touches no terminal field or listener. */
  lemma StopPerformLogsEffect(s: ConnState)
    ensures var t := StopPerformLogs(s);
      && t.logsStream.None? && t.logsProcess.None?
      && t.emitted == s.emitted + [Emit("logsDone", Status(0))]
      && t.terminalProcess == s.terminalProcess && t.sshStream == s.sshStream && t.bindings == s.bindings
      && t.runningPtys == s.runningPtys && t.killedPtys == s.killedPtys
  {
  }

  /** A second `stopPerformLogs` only emits `logsDone` 0 again. */
  lemma StopPerformLogsTwice(s: ConnState)
    ensures StopPerformLogs(StopPerformLogs(s)) == Emitted(StopPerformLogs(s), [Emit("logsDone", Status(0))])
  {
  }

  /** `disconnect` clears both logs fields, kills a recorded logs process, emits nothing, and touches no terminal field or listener. */
  lemma DisconnectEffect(s: ConnState)
    ensures var t := Disconnect(s);
      && t.logsStream.None? && t.logsProcess.None?
      && t.emitted == s.emitted
      && (s.logsProcess.Some? ==> Kill(s.logsProcess.value) in t.effects)
      && t.terminalProcess == s.terminalProcess && t.sshStream == s.sshStream && t.bindings == s.bindings
      && t.runningPtys == s.runningPtys && t.killedPtys == s.killedPtys
  {
  }

  lemma DisconnectIdempotent(s: ConnState)
    ensures Disconnect(Disconnect(s)) == Disconnect(s)
  {
  }

  // ---------------------------------------------------------------- local terminal

  /** While a terminal is recorded, a start with a valid token changes nothing. */
  lemma LocalStartGuard(env: SessionEnv, s: ConnState, token: Option<string>)
    requires TokenAccepted(env.verify, token) && s.terminalProcess.Some?
    ensures StartLocalTerminal(env, s, token) == s
  {
  }

  /** A start spawns one 80x24 pty, records it, emits nothing, and leaves exactly one listener per terminal event. */
  lemma LocalStartSpawns(env: SessionEnv, s: ConnState, token: Option<string>)
    requires TokenAccepted(env.verify, token) && s.terminalProcess.None?
    ensures var t := StartLocalTerminal(env, s, token);
      && t.terminalProcess == Some(Handle(s.nextHandle))
      && t.effects == s.effects + [SpawnPty(Handle(s.nextHandle), 80, 24)]
      && t.emitted == s.emitted
      && t.bindings == WithoutTerminalListeners(s.bindings) + LocalTerminalListeners()
  {
  }

  /** On exit the message comes first, then `terminalDone` 0; the field is cleared when it holds the exited pty. */
  lemma PtyExitOrder(s: ConnState, pty: Handle)
    ensures var t := OnPtyExit(s, pty);
      && t.emitted == s.emitted + [Emit(TERMINAL_OUTPUT, Message("\n[Process exited]\n")), Emit(TERMINAL_DONE, Status(0))]
      && (s.terminalProcess == Some(pty) ==> t.terminalProcess.None?)
      && pty !in t.runningPtys
  {
  }

  /** Input and resize reach the pty only with a valid token and a recorded pty; otherwise nothing is written. */
  lemma LocalInputReachesPty(env: SessionEnv, s: ConnState, token: Option<string>, input: string, cols: int, rows: int)
    ensures var t := TerminalInputOp(env, s, Local, token, input);
      t.effects == if TokenAccepted(env.verify, token) && s.terminalProcess.Some? then s.effects + [PtyWrite(s.terminalProcess.value, input)] else s.effects
    ensures var t := TerminalResizeOp(env, s, Local, token, cols, rows);
      t.effects == if TokenAccepted(env.verify, token) && s.terminalProcess.Some? then s.effects + [PtyResize(s.terminalProcess.value, cols, rows)] else s.effects
  {
  }

  /** A stop kills and clears the recorded pty; a second stop changes nothing. */
  lemma LocalStopIdempotent(env: SessionEnv, s: ConnState, token: Option<string>)
    requires TokenAccepted(env.verify, token)
    ensures var t := StopTerminalOp(env, s, Local, token);
      && t.terminalProcess.None?
      && (s.terminalProcess.Some? ==> t.effects == s.effects + [Kill(s.terminalProcess.value)])
      && (s.terminalProcess.None? ==> t == s)
      && StopTerminalOp(env, t, Local, token) == t
  {
  }

  // ---------------------------------------------------------------- remote terminal

  /** There is no already-running check: with a credential, every accepted start opens a new connection. */
  lemma RemoteStartAlwaysConnects(env: SessionEnv, s: ConnState, token: Option<string>)
    requires TokenAccepted(env.verify, token) && GetSSHConfig(env.settings).Ok?
    ensures StartRemoteTerminal(env, s, token) == s.(effects := s.effects + [SshConnect(Handle(s.nextHandle))], nextHandle := s.nextHandle + 1)
  {
  }

  /**
   * Without a password or key, `getSSHConfig` throws inside an accepted start:
   * no connection is opened, nothing is emitted, and the error leaves the listener.
   */
  lemma RemoteStartWithoutCredentialsThrows(env: SessionEnv, s: ConnState, token: Option<string>)
    requires TokenAccepted(env.verify, token) && !Truthy(env.settings.sshPassword) && env.settings.sshPrivateKey.None?
    ensures StartRemoteTerminal(env, s, token)
      == s.(effects := s.effects + [ListenerThrew("Error: " + NO_CREDENTIALS_ERROR)])
  {
  }

  /** A new shell replaces any recorded stream and rebinds the terminal listeners to its connection. */
  lemma RemoteShellOverwrites(s: ConnState, conn: Handle)
    ensures var t := OnTerminalShell(s, conn, None);
      && t.sshStream == Some(Handle(s.nextHandle))
      && t.bindings == WithoutTerminalListeners(s.bindings) + RemoteTerminalListeners(conn)
      && t.emitted == s.emitted && t.effects == s.effects
  {
  }

  /** A shell error reports the message, then `terminalDone` 1, then ends the connection. */
  lemma ShellErrorOrder(s: ConnState, conn: Handle, message: string)
    ensures OnTerminalShell(s, conn, Some(message)) ==
      s.(emitted := s.emitted + [Emit(TERMINAL_OUTPUT, Message("SSH shell error: " + message + "\n")), Emit(TERMINAL_DONE, Status(1))],
         effects := s.effects + [SshEnd(conn)])
  {
  }

  /** A connection error reports the message, then `terminalDone` 1, and does not end the connection. */
  lemma ConnectionErrorOrder(s: ConnState, message: string)
    ensures OnTerminalConnError(s, message) ==
      s.(emitted := s.emitted + [Emit(TERMINAL_OUTPUT, Message("SSH connection error: " + message + "\n")), Emit(TERMINAL_DONE, Status(1))])
  {
  }

  /** On close the message comes before `terminalDone` 0; the connection is ended and the stream field cleared. */
  lemma ShellCloseOrder(s: ConnState, conn: Handle)
    ensures OnTerminalStreamClosed(s, conn) ==
      s.(emitted := s.emitted + [Emit(TERMINAL_OUTPUT, Message("\n[SSH session closed]\n")), Emit(TERMINAL_DONE, Status(0))],
         effects := s.effects + [SshEnd(conn)],
         sshStream := None)
  {
  }

  /** Input reaches the shell only with a valid token and a recorded stream; a resize passes rows before cols. */
  lemma RemoteInputAndResize(env: SessionEnv, s: ConnState, conn: Handle, token: Option<string>, input: string, cols: int, rows: int)
    ensures var t := TerminalInputOp(env, s, Remote(conn), token, input);
      t.effects == if TokenAccepted(env.verify, token) && s.sshStream.Some? then s.effects + [StreamWrite(s.sshStream.value, input)] else s.effects
    ensures var t := TerminalResizeOp(env, s, Remote(conn), token, cols, rows);
      t.effects == if TokenAccepted(env.verify, token) && s.sshStream.Some? then s.effects + [StreamSetWindow(s.sshStream.value, rows, cols, 0, 0)] else s.effects
  {
  }

  /** A remote stop ends and clears a recorded stream, and always ends its own connection last. */
  lemma RemoteStopEndsConnection(env: SessionEnv, s: ConnState, conn: Handle, token: Option<string>)
    requires TokenAccepted(env.verify, token)
    ensures var t := StopTerminalOp(env, s, Remote(conn), token);
      && t.sshStream.None?
      && t.effects == s.effects + (if s.sshStream.Some? then [StreamEnd(s.sshStream.value)] else []) + [SshEnd(conn)]
      && t.emitted == s.emitted && t.terminalProcess == s.terminalProcess
  {
  }
}
