/**
 * A connection as an object: the socket's fields, its listeners, the events
 * it emitted and the actions taken, updated in place by one method per
 * handler and callback of backend/handlers/. Each method is proved to
 * perform the transition of the same name in SessionSpec.
 */
module Session {
  import opened Wrappers
  import opened Config
  import opened Events
  import opened Auth
  import opened SshUtils
  import opened CommandUtils
  import opened StreamHelpers
  import SessionSpec
  import opened SessionInvariant

  type ConnState = SessionSpec.ConnState
  type Owner = SessionSpec.Owner
  type Handler = SessionSpec.Handler
  type Binding = SessionSpec.Binding
  type EventData = SessionSpec.EventData

  class Connection {
    const env: SessionSpec.SessionEnv
    var terminalProcess: Option<Handle>
    var sshStream: Option<Handle>
    var logsProcess: Option<Handle>
    var logsStream: Option<Handle>
    var listeners: seq<Binding>
    var emitted: seq<Emit>
    var effects: seq<Effect>
    var nextHandle: nat
    var pending: map<Handle, SessionSpec.PendingCommand>
    var relays: map<Handle, SessionSpec.Relay>
    /** Which pseudo-terminals are alive and which were sent a kill. */
    ghost var runningPtys: set<Handle>
    ghost var killedPtys: set<Handle>

    ghost function State(): ConnState
      reads this
    {
      SessionSpec.ConnState(terminalProcess, sshStream, logsProcess, logsStream, listeners, emitted, effects,
                            nextHandle, pending, relays, runningPtys, killedPtys)
    }

    /** Every live pty that was not killed is the recorded terminal. */
    ghost predicate Valid()
      reads this
    {
      SessionSpec.Invariant(State())
    }

    /** A new connection: every entry of the handler map is registered, in its order. */
    constructor(env: SessionSpec.SessionEnv)
      ensures this.env == env && State() == SessionSpec.Connected() && Valid()
    {
      this.env := env;
      terminalProcess := None;
      sshStream := None;
      logsProcess := None;
      logsStream := None;
      listeners := SessionSpec.Registrations(SessionSpec.HANDLER_NAMES);
      emitted := [];
      effects := [];
      nextHandle := 0;
      pending := map[];
      relays := map[];
      runningPtys := {};
      killedPtys := {};
      new;
      ConnectedInvariant();
    }

    method NewHandle() returns (h: Handle)
      modifies this
      ensures h == Handle(old(nextHandle)) && State() == old(State()).(nextHandle := old(nextHandle) + 1)
    {
      h := Handle(nextHandle);
      nextHandle := nextHandle + 1;
    }

    /** `isSocketValidToken`: a rejected token emits the message on the output event, then status 1 on the done event. */
    method IsSocketValidToken(token: Option<string>, outputEvent: string, doneEvent: string) returns (ok: bool)
      modifies this
      ensures ok == TokenAccepted(env.verify, token)
      ensures State() == old(State()).(emitted := SocketTokenCheck(env.verify, token, old(emitted), outputEvent, doneEvent).1)
    {
      if token.Some? && env.verify(token.value).Some? {
        return true;
      }
      emitted := emitted + [Emit(outputEvent, Message(INVALID_TOKEN_MESSAGE))];
      emitted := emitted + [Emit(doneEvent, Status(1))];
      return false;
    }

    // ------------------------------------------------------------ command streams

    method HandleCommandStream(token: Option<string>, eventType: string, commandType: string)
      modifies this
      ensures State() == SessionSpec.CommandStream(env, old(State()), token, eventType, commandType)
    {
      var outputEvent := eventType + "Output";
      var doneEvent := eventType + "Done";
      var ok := IsSocketValidToken(token, outputEvent, doneEvent);
      if !ok {
        return;
      }
      var command := GetCommand(commandType, None, env.settings);
      LaunchCommand(eventType, command);
    }

    method LaunchCommand(eventType: string, command: string)
      modifies this
      ensures State() == SessionSpec.LaunchedCommand(env, old(State()), eventType, command)
    {
      var outputEvent := eventType + "Output";
      var doneEvent := eventType + "Done";
      if env.settings.appManageMode == "ssh" {
        var config := GetSSHConfig(env.settings);
        if config.Err? {
          emitted := emitted + SessionSpec.SshErrorEvents(outputEvent, doneEvent, config.error);
          return;
        }
        var conn := NewHandle();
        effects := effects + [SshConnect(conn)];
        pending := pending[conn := SessionSpec.PendingCommand(command, outputEvent, doneEvent)];
      } else {
        var child := NewHandle();
        effects := effects + [SpawnShellCommand(child, command)];
        if eventType == "logs" {
          logsProcess := Some(child);
        }
        relays := relays[child := SessionSpec.Relay(outputEvent, doneEvent, SeparateStream, None)];
      }
    }

    method OnCommandReady(conn: Handle)
      modifies this
      ensures State() == SessionSpec.OnCommandReady(old(State()), conn)
    {
      if conn in pending {
        effects := effects + [SshExec(conn, pending[conn].command)];
      }
    }

    method OnCommandExec(conn: Handle, err: Option<string>)
      modifies this
      ensures State() == SessionSpec.OnCommandExec(old(State()), conn, err)
    {
      if conn !in pending {
        return;
      }
      var p := pending[conn];
      pending := pending - {conn};
      if err.Some? {
        effects := effects + [SshEnd(conn)];
        emitted := emitted + SessionSpec.SshErrorEvents(p.outputEvent, p.doneEvent, err.value);
      } else {
        var stream := NewHandle();
        relays := relays[stream := SessionSpec.Relay(p.outputEvent, p.doneEvent, MainStreamStderr, Some(conn))];
      }
    }

    method OnCommandConnError(conn: Handle, message: string)
      modifies this
      ensures State() == SessionSpec.OnCommandConnError(old(State()), conn, message)
    {
      if conn in pending {
        var p := pending[conn];
        emitted := emitted + SessionSpec.SshErrorEvents(p.outputEvent, p.doneEvent, message);
        pending := pending - {conn};
      }
    }

    method OnCommandChunk(stream: Handle, chunk: Chunk)
      modifies this
      ensures State() == SessionSpec.OnCommandChunk(old(State()), stream, chunk)
    {
      if stream !in relays {
        return;
      }
      var r := relays[stream];
      var heard := chunk;
      if chunk.MainClose? {
        if r.conn.Some? {
          effects := effects + [SshEnd(r.conn.value)];
        } else {
          heard := MainClose(None);
        }
      }
      emitted := emitted + RelayChunk(heard, r.outputEvent, r.doneEvent, r.stderr);
    }

    method StopPerformLogs()
      modifies this
      ensures State() == SessionSpec.StopPerformLogs(old(State()))
    {
      if logsStream.Some? {
        effects := effects + [StreamClose(logsStream.value), StreamDestroy(logsStream.value)];
        logsStream := None;
      }
      if logsProcess.Some? {
        effects := effects + [Kill(logsProcess.value)];
        logsProcess := None;
      }
      emitted := emitted + [Emit("logsDone", Status(0))];
    }

    method Disconnect()
      modifies this
      ensures State() == SessionSpec.Disconnect(old(State()))
    {
      if logsStream.Some? {
        effects := effects + [StreamDestroy(logsStream.value)];
        logsStream := None;
      }
      if logsProcess.Some? {
        effects := effects + [Kill(logsProcess.value)];
        logsProcess := None;
      }
    }

    // ------------------------------------------------------------ local terminal

    method StartLocalTerminal(token: Option<string>)
      modifies this
      ensures State() == SessionSpec.StartLocalTerminal(env, old(State()), token)
    {
      var ok := IsSocketValidToken(token, SessionSpec.TERMINAL_OUTPUT, SessionSpec.TERMINAL_DONE);
      if !ok {
        return;
      }
      if terminalProcess.Some? {
        return;
      }
      SpawnLocalTerminal();
    }

    method SpawnLocalTerminal()
      modifies this
      ensures State() == SessionSpec.SpawnedLocalTerminal(old(State()))
    {
      var pty := NewHandle();
      effects := effects + [SpawnPty(pty, 80, 24)];
      terminalProcess := Some(pty);
      runningPtys := runningPtys + {pty};
      listeners := SessionSpec.WithoutTerminalListeners(listeners) + SessionSpec.LocalTerminalListeners();
    }

    method OnPtyData(text: string)
      modifies this
      ensures State() == SessionSpec.OnPtyData(old(State()), text)
    {
      emitted := emitted + [Emit(SessionSpec.TERMINAL_OUTPUT, Message(text))];
    }

    /** The exit handler, clearing the field only when it still holds the exited pty. */
    method OnPtyExit(pty: Handle)
      modifies this
      ensures State() == SessionSpec.OnPtyExit(old(State()), pty)
    {
      emitted := emitted + [Emit(SessionSpec.TERMINAL_OUTPUT, Message("\n[Process exited]\n"))];
      if terminalProcess == Some(pty) {
        terminalProcess := None;
      }
      emitted := emitted + [Emit(SessionSpec.TERMINAL_DONE, Status(0))];
      runningPtys := runningPtys - {pty};
    }

    // ------------------------------------------------------------ terminal listeners

    method TerminalInput(owner: Owner, token: Option<string>, input: string)
      modifies this
      ensures State() == SessionSpec.TerminalInputOp(env, old(State()), owner, token, input)
    {
      var ok := IsSocketValidToken(token, SessionSpec.TERMINAL_OUTPUT, SessionSpec.TERMINAL_DONE);
      if !ok {
        return;
      }
      if owner.Local? {
        if terminalProcess.Some? {
          effects := effects + [PtyWrite(terminalProcess.value, input)];
        }
      } else if sshStream.Some? {
        effects := effects + [StreamWrite(sshStream.value, input)];
      }
    }

    method TerminalResize(owner: Owner, token: Option<string>, cols: int, rows: int)
      modifies this
      ensures State() == SessionSpec.TerminalResizeOp(env, old(State()), owner, token, cols, rows)
    {
      var ok := IsSocketValidToken(token, SessionSpec.TERMINAL_OUTPUT, SessionSpec.TERMINAL_DONE);
      if !ok {
        return;
      }
      if owner.Local? {
        if terminalProcess.Some? {
          effects := effects + [PtyResize(terminalProcess.value, cols, rows)];
        }
      } else if sshStream.Some? {
        effects := effects + [StreamSetWindow(sshStream.value, rows, cols, 0, 0)];
      }
    }

    method StopTerminal(owner: Owner, token: Option<string>)
      modifies this
      ensures State() == SessionSpec.StopTerminalOp(env, old(State()), owner, token)
    {
      var ok := IsSocketValidToken(token, SessionSpec.TERMINAL_OUTPUT, SessionSpec.TERMINAL_DONE);
      if !ok {
        return;
      }
      if owner.Local? {
        if terminalProcess.Some? {
          effects := effects + [Kill(terminalProcess.value)];
          killedPtys := killedPtys + {terminalProcess.value};
          terminalProcess := None;
        }
      } else {
        if sshStream.Some? {
          effects := effects + [StreamEnd(sshStream.value)];
          sshStream := None;
        }
        effects := effects + [SshEnd(owner.conn)];
      }
    }

    // ------------------------------------------------------------ remote terminal

    method StartRemoteTerminal(token: Option<string>)
      modifies this
      ensures State() == SessionSpec.StartRemoteTerminal(env, old(State()), token)
    {
      var ok := IsSocketValidToken(token, SessionSpec.TERMINAL_OUTPUT, SessionSpec.TERMINAL_DONE);
      if !ok {
        return;
      }
      var config := GetSSHConfig(env.settings);
      if config.Err? {
        effects := effects + [ListenerThrew("Error: " + config.error)];
        return;
      }
      var conn := NewHandle();
      effects := effects + [SshConnect(conn)];
    }

    method OnTerminalReady(conn: Handle)
      modifies this
      ensures State() == SessionSpec.OnTerminalReady(old(State()), conn)
    {
      effects := effects + [SshOpenShell(conn, 80, 24)];
    }

    method OnTerminalShell(conn: Handle, err: Option<string>)
      modifies this
      ensures State() == SessionSpec.OnTerminalShell(old(State()), conn, err)
    {
      if err.Some? {
        emitted := emitted + SessionSpec.ShellErrorEvents(err.value);
        effects := effects + [SshEnd(conn)];
        return;
      }
      var stream := NewHandle();
      sshStream := Some(stream);
      listeners := SessionSpec.WithoutTerminalListeners(listeners) + SessionSpec.RemoteTerminalListeners(conn);
    }

    method OnTerminalStreamData(text: string)
      modifies this
      ensures State() == SessionSpec.OnTerminalStreamData(old(State()), text)
    {
      emitted := emitted + [Emit(SessionSpec.TERMINAL_OUTPUT, Message(text))];
    }

    method OnTerminalStreamClosed(conn: Handle)
      modifies this
      ensures State() == SessionSpec.OnTerminalStreamClosed(old(State()), conn)
    {
      emitted := emitted + SessionSpec.SessionClosedEvents();
      effects := effects + [SshEnd(conn)];
      sshStream := None;
    }

    method OnTerminalConnError(message: string)
      modifies this
      ensures State() == SessionSpec.OnTerminalConnError(old(State()), message)
    {
      emitted := emitted + SessionSpec.ConnectionErrorEvents(message);
    }

    // ------------------------------------------------------------ dispatch

    /** One entry of the shared handler map, called as `handler(socket)` for `disconnect` and `handler(socket, data)` otherwise. */
    method RunEntry(name: string, data: EventData)
      modifies this
      ensures State() == SessionSpec.RunEntry(env, old(State()), name, data)
    {
      if name == "disconnect" {
        Disconnect();
        return;
      }
      if name == "stopPerformLogs" {
        StopPerformLogs();
        return;
      }
      if data.NullData? {
        effects := effects + [ListenerThrew(SessionSpec.NULL_DATA_ERROR)];
        return;
      }
      var token := if data.Fields? then data.token else None;
      if name == "performUpdate" {
        HandleCommandStream(token, "update", "update");
      } else if name == "performLogs" {
        HandleCommandStream(token, "logs", "realTimeLogs");
      } else if name == "performServerUpdate" {
        HandleCommandStream(token, "serverUpdate", "serverUpdate");
      } else if name == "startLocalTerminal" {
        StartLocalTerminal(token);
      } else if name == "startRemoteTerminal" {
        StartRemoteTerminal(token);
      }
    }

    method RunHandler(h: Handler, data: EventData)
      modifies this
      ensures State() == SessionSpec.RunHandler(env, old(State()), h, data)
    {
      match h
      case Entry(name) => RunEntry(name, data);
      case TerminalInput(owner) =>
        if data.Fields? {
          TerminalInput(owner, data.token, data.input);
        } else {
          effects := effects + [ListenerThrew(SessionSpec.DestructureError(data))];
        }
      case TerminalResize(owner) =>
        if data.Fields? {
          TerminalResize(owner, data.token, data.cols, data.rows);
        } else {
          effects := effects + [ListenerThrew(SessionSpec.DestructureError(data))];
        }
      case StopTerminal(owner) =>
        if data.Fields? {
          StopTerminal(owner, data.token);
        } else {
          effects := effects + [ListenerThrew(SessionSpec.DestructureError(data))];
        }
    }

    /**
     * An inbound event: the listeners registered when it arrives run in
     * registration order, even those a listener removes on the way.
     */
    method Receive(event: string, data: EventData)
      modifies this
      ensures State() == SessionSpec.Receive(env, old(State()), event, data)
      ensures old(Valid()) ==> Valid()
    {
      ghost var start := State();
      var handlers := SessionSpec.ListenersOf(listeners, event);
      var i := 0;
      while i < |handlers|
        invariant 0 <= i <= |handlers|
        invariant State() == SessionSpec.RunHandlers(env, start, handlers[..i], data)
      {
        RunHandler(handlers[i], data);
        assert handlers[..i + 1][..i] == handlers[..i];
        i := i + 1;
      }
      assert handlers[..i] == handlers;
      if SessionSpec.Invariant(start) {
        RunHandlersKeeps(env, start, handlers, data);
      }
    }
  }
}
