/**
 * One Socket.IO connection of the dashboard's backend, as the handlers in
 * backend/handlers/ see it: the fields they keep on the socket, the
 * listeners registered on it, the events it has emitted and the actions
 * taken on processes and SSH connections. Every inbound socket event and
 * every callback of a process, stream or SSH connection is one transition
 * of this state.
 */
module SessionSpec {
  import opened Wrappers
  import opened Config
  import opened Events
  import opened Auth
  import opened SshUtils
  import opened CommandUtils
  import opened StreamHelpers

  /** Whose terminal a terminal listener drives: the local pseudo-terminal, or the remote shell opened over a connection. */
  datatype Owner = Local | Remote(conn: Handle)

  /** A listener: an entry of the shared handler map, or one of the listeners a terminal start installs. */
  datatype Handler =
    | Entry(name: string)
    | TerminalInput(owner: Owner)
    | TerminalResize(owner: Owner)
    | StopTerminal(owner: Owner)

  datatype Binding = Binding(event: string, handler: Handler)

  /** A stream being relayed to the socket: its two event names, where its stderr comes from, and the SSH connection it runs over. */
  datatype Relay = Relay(outputEvent: string, doneEvent: string, stderr: StderrSource, conn: Option<Handle>)

  /** An SSH command waiting for its connection and exec channel. */
  datatype PendingCommand = PendingCommand(command: string, outputEvent: string, doneEvent: string)

  /**
   * The state of a connection. `terminalProcess`, `sshStream`, `logsProcess`
   * and `logsStream` are the socket's `_terminalProcess`, `_sshStream`,
   * `_logsProcess` and `_logsStream`. `runningPtys` and `killedPtys` record
   * which pseudo-terminals are alive and which were sent a kill.
   */
  datatype ConnState = ConnState(
    terminalProcess: Option<Handle>,
    sshStream: Option<Handle>,
    logsProcess: Option<Handle>,
    logsStream: Option<Handle>,
    bindings: seq<Binding>,
    emitted: seq<Emit>,
    effects: seq<Effect>,
    nextHandle: nat,
    pending: map<Handle, PendingCommand>,
    relays: map<Handle, Relay>,
    runningPtys: set<Handle>,
    killedPtys: set<Handle>)

  /** What every connection shares: the configuration and the token verifier. */
  datatype SessionEnv = SessionEnv(settings: Settings, verify: Verifier)

  /** The data of an inbound event: none, `null`, or an object with the fields the handlers read. */
  datatype EventData = NoData | NullData | Fields(token: Option<string>, input: string, cols: int, rows: int)

  const TERMINAL_OUTPUT: string := "terminalOutput"
  const TERMINAL_DONE: string := "terminalDone"
  const TERMINAL_INPUT: string := "terminalInput"
  const TERMINAL_RESIZE: string := "terminalResize"
  const STOP_TERMINAL: string := "stopTerminal"

  /** The keys of the handler map, in the order it lists them. */
  const HANDLER_NAMES: seq<string> :=
    ["performUpdate", "performLogs", "performServerUpdate", "stopPerformLogs",
     "startLocalTerminal", "startRemoteTerminal", "disconnect"]

  /** One listener per entry of the handler map, registered in its order. */
  function Registrations(names: seq<string>): (bs: seq<Binding>)
    ensures |bs| == |names|
    ensures forall i :: 0 <= i < |names| ==> bs[i] == Binding(names[i], Entry(names[i]))
  {
    seq(|names|, i requires 0 <= i < |names| => Binding(names[i], Entry(names[i])))
  }

  /** A new connection: the handler map registered, nothing recorded, nothing emitted. */
  function Connected(): ConnState {
    ConnState(None, None, None, None, Registrations(HANDLER_NAMES), [], [], 0, map[], map[], {}, {})
  }

  function Emitted(s: ConnState, events: seq<Emit>): ConnState {
    s.(emitted := s.emitted + events)
  }

  function Performed(s: ConnState, actions: seq<Effect>): ConnState {
    s.(effects := s.effects + actions)
  }

  /** A listener threw: nothing else it would have done happens, and the exception leaves the listener. */
  function Threw(s: ConnState, error: string): ConnState {
    Performed(s, [ListenerThrew(error)])
  }

  /** Reading `data.token` of a `null` payload. */
  const NULL_DATA_ERROR := "TypeError: Cannot read properties of null (reading 'token')"

  /** Destructuring `{ token, ... }` out of a payload that is `null` or absent. */
  function DestructureError(data: EventData): string {
    var what := if data.NullData? then "'object null' as it is null." else "'undefined' as it is undefined.";
    "TypeError: Cannot destructure property 'token' of " + what
  }

  /** The listeners of an event, in registration order. */
  function ListenersOf(bs: seq<Binding>, event: string): seq<Handler> {
    if bs == [] then []
    else ListenersOf(bs[..|bs| - 1], event) + (if bs[|bs| - 1].event == event then [bs[|bs| - 1].handler] else [])
  }

  predicate IsTerminalEvent(event: string) {
    event == TERMINAL_INPUT || event == STOP_TERMINAL || event == TERMINAL_RESIZE
  }

  /** `removeAllListeners` for the three terminal events. */
  function WithoutTerminalListeners(bs: seq<Binding>): (r: seq<Binding>)
    ensures forall b :: b in r ==> b in bs && !IsTerminalEvent(b.event)
    ensures forall b :: b in bs && !IsTerminalEvent(b.event) ==> b in r
  {
    if bs == [] then []
    else
      var last := bs[|bs| - 1];
      WithoutTerminalListeners(bs[..|bs| - 1]) + (if IsTerminalEvent(last.event) then [] else [last])
  }

  /** The listeners the local terminal installs, in its order: input, resize, stop. */
  function LocalTerminalListeners(): seq<Binding> {
    [ Binding(TERMINAL_INPUT, TerminalInput(Local)), Binding(TERMINAL_RESIZE, TerminalResize(Local)),
      Binding(STOP_TERMINAL, StopTerminal(Local)) ]
  }

  /** The listeners the remote terminal installs, in its order: input, stop, resize. */
  function RemoteTerminalListeners(conn: Handle): seq<Binding> {
    [ Binding(TERMINAL_INPUT, TerminalInput(Remote(conn))), Binding(STOP_TERMINAL, StopTerminal(Remote(conn))),
      Binding(TERMINAL_RESIZE, TerminalResize(Remote(conn))) ]
  }

  function Rebound(s: ConnState, listeners: seq<Binding>): ConnState {
    s.(bindings := WithoutTerminalListeners(s.bindings) + listeners)
  }

  /** The events of a failed SSH command: the error on the output event, then status 1. */
  function SshErrorEvents(outputEvent: string, doneEvent: string, message: string): seq<Emit> {
    [Emit(outputEvent, Message("SSH error: " + message + "\n")), Emit(doneEvent, Status(1))]
  }

  // ---------------------------------------------------------------- command streams

  /**
   * `handleCommandStream`: after the token gate, the command is resolved;
   * in `ssh` mode an SSH connection is opened (a missing credential rejects
   * the stream promise at once, reported as an SSH error), otherwise a shell
   * child is spawned and relayed, and recorded as the logs process for
   * `logs` only.
   */
  function CommandStream(env: SessionEnv, s: ConnState, token: Option<string>, eventType: string, commandType: string): ConnState {
    var outputEvent := eventType + "Output";
    var doneEvent := eventType + "Done";
    var check := SocketTokenCheck(env.verify, token, s.emitted, outputEvent, doneEvent);
    if !check.0 then s.(emitted := check.1)
    else LaunchedCommand(env, s, eventType, GetCommand(commandType, None, env.settings))
  }

  /**
   * The command of an accepted request: in ssh mode a connection is opened
   * and the command waits for it; otherwise a child shell runs it locally
   * and its output is relayed.
   */
  function LaunchedCommand(env: SessionEnv, s: ConnState, eventType: string, command: string): ConnState {
    var outputEvent := eventType + "Output";
    var doneEvent := eventType + "Done";
    if env.settings.appManageMode == "ssh" then
      var config := GetSSHConfig(env.settings);
      if config.Err? then Emitted(s, SshErrorEvents(outputEvent, doneEvent, config.error))
      else
        var conn := Handle(s.nextHandle);
        Performed(s, [SshConnect(conn)]).(
          nextHandle := s.nextHandle + 1,
          pending := s.pending[conn := PendingCommand(command, outputEvent, doneEvent)])
    else
      var child := Handle(s.nextHandle);
      Performed(s, [SpawnShellCommand(child, command)]).(
        nextHandle := s.nextHandle + 1,
        relays := s.relays[child := Relay(outputEvent, doneEvent, SeparateStream, None)],
        logsProcess := if eventType == "logs" then Some(child) else s.logsProcess)
  }

  /** The SSH connection of a command is ready: the command is executed on it. */
  function OnCommandReady(s: ConnState, conn: Handle): ConnState {
    if conn in s.pending then Performed(s, [SshExec(conn, s.pending[conn].command)]) else s
  }

  /**
   * The exec callback: an error ends the connection and is reported; a
   * stream is relayed with `null` for stderr, so its own `.stderr` is heard.
   */
  function OnCommandExec(s: ConnState, conn: Handle, err: Option<string>): ConnState {
    if conn !in s.pending then s
    else
      var p := s.pending[conn];
      if err.Some? then
        Emitted(Performed(s, [SshEnd(conn)]), SshErrorEvents(p.outputEvent, p.doneEvent, err.value)).(pending := s.pending - {conn})
      else
        var stream := Handle(s.nextHandle);
        s.(nextHandle := s.nextHandle + 1,
           pending := s.pending - {conn},
           relays := s.relays[stream := Relay(p.outputEvent, p.doneEvent, MainStreamStderr, Some(conn))])
  }

  /** A connection error rejects the stream promise, unless it has already settled. */
  function OnCommandConnError(s: ConnState, conn: Handle, message: string): ConnState {
    if conn !in s.pending then s
    else
      var p := s.pending[conn];
      Emitted(s, SshErrorEvents(p.outputEvent, p.doneEvent, message)).(pending := s.pending - {conn})
  }

  /**
   * A chunk of a relayed stream. A local child's stdout closes without an
   * exit code; an SSH stream's close also ends its connection, before the
   * done event is sent.
   */
  function OnCommandChunk(s: ConnState, stream: Handle, chunk: Chunk): ConnState {
    if stream !in s.relays then s
    else
      var r := s.relays[stream];
      var heard := if chunk.MainClose? && r.conn.None? then MainClose(None) else chunk;
      var s1 := if chunk.MainClose? && r.conn.Some? then Performed(s, [SshEnd(r.conn.value)]) else s;
      Emitted(s1, RelayChunk(heard, r.outputEvent, r.doneEvent, r.stderr))
  }

  /** `stopPerformLogs`: close and destroy the logs stream, kill the logs process, clear both, and report `logsDone` 0. */
  function StopPerformLogs(s: ConnState): ConnState {
    var s1 := if s.logsStream.Some? then Performed(s, [StreamClose(s.logsStream.value), StreamDestroy(s.logsStream.value)]).(logsStream := None) else s;
    var s2 := if s1.logsProcess.Some? then Performed(s1, [Kill(s1.logsProcess.value)]).(logsProcess := None) else s1;
    Emitted(s2, [Emit("logsDone", Status(0))])
  }

  /** `disconnect`: destroy the logs stream and kill the logs process, silently. */
  function Disconnect(s: ConnState): ConnState {
    var s1 := if s.logsStream.Some? then Performed(s, [StreamDestroy(s.logsStream.value)]).(logsStream := None) else s;
    if s1.logsProcess.Some? then Performed(s1, [Kill(s1.logsProcess.value)]).(logsProcess := None) else s1
  }

  // ---------------------------------------------------------------- local terminal

  /** `handleLocalTerminalSession`: after the token gate, a no-op while a terminal is recorded; otherwise an 80x24 pty is spawned, recorded, and the terminal listeners replaced. */
  function StartLocalTerminal(env: SessionEnv, s: ConnState, token: Option<string>): ConnState {
    var check := SocketTokenCheck(env.verify, token, s.emitted, TERMINAL_OUTPUT, TERMINAL_DONE);
    if !check.0 then s.(emitted := check.1)
    else if s.terminalProcess.Some? then s
    else SpawnedLocalTerminal(s)
  }

  /** A pty of 80 columns and 24 rows is spawned, recorded, and its listeners replace the terminal listeners. */
  function SpawnedLocalTerminal(s: ConnState): ConnState {
    var pty := Handle(s.nextHandle);
    Rebound(Performed(s, [SpawnPty(pty, 80, 24)]), LocalTerminalListeners()).(
      nextHandle := s.nextHandle + 1,
      terminalProcess := Some(pty),
      runningPtys := s.runningPtys + {pty})
  }

  /** A pty's output goes to `terminalOutput`. */
  function OnPtyData(s: ConnState, text: string): ConnState {
    Emitted(s, [Emit(TERMINAL_OUTPUT, Message(text))])
  }

  function ExitEvents(): seq<Emit> {
    [Emit(TERMINAL_OUTPUT, Message("\n[Process exited]\n")), Emit(TERMINAL_DONE, Status(0))]
  }

  /**
   * A pty exited, as the handler at localTerminalHandler.js:37-41 is written:
   * the exit is reported and the terminal field cleared, whichever pty the
   * field holds by then.
   */
  function OnPtyExitAsWritten(s: ConnState, pty: Handle): ConnState {
    Emitted(s, ExitEvents()).(terminalProcess := None, runningPtys := s.runningPtys - {pty})
  }

  /** A pty exited: the exit is reported, and the field cleared only when it still holds that pty. */
  function OnPtyExit(s: ConnState, pty: Handle): ConnState {
    Emitted(s, ExitEvents()).(
      terminalProcess := if s.terminalProcess == Some(pty) then None else s.terminalProcess,
      runningPtys := s.runningPtys - {pty})
  }

  // ---------------------------------------------------------------- terminal listeners

  /** `terminalInput`: after the token gate, the input goes to the current terminal of the owner, if any. */
  function TerminalInputOp(env: SessionEnv, s: ConnState, owner: Owner, token: Option<string>, input: string): ConnState {
    var check := SocketTokenCheck(env.verify, token, s.emitted, TERMINAL_OUTPUT, TERMINAL_DONE);
    if !check.0 then s.(emitted := check.1)
    else if owner.Local? then
      if s.terminalProcess.Some? then Performed(s, [PtyWrite(s.terminalProcess.value, input)]) else s
    else
      if s.sshStream.Some? then Performed(s, [StreamWrite(s.sshStream.value, input)]) else s
  }

  /** `terminalResize`: the pty takes (cols, rows); the SSH stream takes (rows, cols, 0, 0). */
  function TerminalResizeOp(env: SessionEnv, s: ConnState, owner: Owner, token: Option<string>, cols: int, rows: int): ConnState {
    var check := SocketTokenCheck(env.verify, token, s.emitted, TERMINAL_OUTPUT, TERMINAL_DONE);
    if !check.0 then s.(emitted := check.1)
    else if owner.Local? then
      if s.terminalProcess.Some? then Performed(s, [PtyResize(s.terminalProcess.value, cols, rows)]) else s
    else
      if s.sshStream.Some? then Performed(s, [StreamSetWindow(s.sshStream.value, rows, cols, 0, 0)]) else s
  }

  /**
   * `stopTerminal`: the local listener kills and clears the pty if one is
   * recorded; the remote one ends and clears the stream if one is recorded,
   * and always ends its own connection.
   */
  function StopTerminalOp(env: SessionEnv, s: ConnState, owner: Owner, token: Option<string>): ConnState {
    var check := SocketTokenCheck(env.verify, token, s.emitted, TERMINAL_OUTPUT, TERMINAL_DONE);
    if !check.0 then s.(emitted := check.1)
    else if owner.Local? then
      if s.terminalProcess.Some? then
        var pty := s.terminalProcess.value;
        Performed(s, [Kill(pty)]).(terminalProcess := None, killedPtys := s.killedPtys + {pty})
      else s
    else
      var s1 := if s.sshStream.Some? then Performed(s, [StreamEnd(s.sshStream.value)]).(sshStream := None) else s;
      Performed(s1, [SshEnd(owner.conn)])
  }

  // ---------------------------------------------------------------- remote terminal

  /**
   * `handleRemoteTerminalSession`: after the token gate, an SSH connection
   * is opened, with no check for a session already running. A missing
   * credential throws out of the listener before anything is done.
   */
  function StartRemoteTerminal(env: SessionEnv, s: ConnState, token: Option<string>): ConnState {
    var check := SocketTokenCheck(env.verify, token, s.emitted, TERMINAL_OUTPUT, TERMINAL_DONE);
    if !check.0 then s.(emitted := check.1)
    else if GetSSHConfig(env.settings).Err? then Threw(s, "Error: " + GetSSHConfig(env.settings).error)
    else
      var conn := Handle(s.nextHandle);
      Performed(s, [SshConnect(conn)]).(nextHandle := s.nextHandle + 1)
  }

  /** The terminal's connection is ready: an 80x24 shell is requested. */
  function OnTerminalReady(s: ConnState, conn: Handle): ConnState {
    Performed(s, [SshOpenShell(conn, 80, 24)])
  }

  function ShellErrorEvents(message: string): seq<Emit> {
    [Emit(TERMINAL_OUTPUT, Message("SSH shell error: " + message + "\n")), Emit(TERMINAL_DONE, Status(1))]
  }

  /**
   * The shell callback: an error is reported and the connection ended; a
   * stream is recorded, replacing any recorded one, and the terminal
   * listeners are replaced by ones bound to this connection.
   */
  function OnTerminalShell(s: ConnState, conn: Handle, err: Option<string>): ConnState {
    if err.Some? then Performed(Emitted(s, ShellErrorEvents(err.value)), [SshEnd(conn)])
    else
      var stream := Handle(s.nextHandle);
      Rebound(s, RemoteTerminalListeners(conn)).(nextHandle := s.nextHandle + 1, sshStream := Some(stream))
  }

  /** Shell output goes to `terminalOutput`. */
  function OnTerminalStreamData(s: ConnState, text: string): ConnState {
    Emitted(s, [Emit(TERMINAL_OUTPUT, Message(text))])
  }

  function SessionClosedEvents(): seq<Emit> {
    [Emit(TERMINAL_OUTPUT, Message("\n[SSH session closed]\n")), Emit(TERMINAL_DONE, Status(0))]
  }

  /** The shell stream closed: the close is reported, the connection ended and the stream field cleared. */
  function OnTerminalStreamClosed(s: ConnState, conn: Handle): ConnState {
    Performed(Emitted(s, SessionClosedEvents()), [SshEnd(conn)]).(sshStream := None)
  }

  function ConnectionErrorEvents(message: string): seq<Emit> {
    [Emit(TERMINAL_OUTPUT, Message("SSH connection error: " + message + "\n")), Emit(TERMINAL_DONE, Status(1))]
  }

  /** A connection error is reported; the connection is not ended. */
  function OnTerminalConnError(s: ConnState, message: string): ConnState {
    Emitted(s, ConnectionErrorEvents(message))
  }

  // ---------------------------------------------------------------- dispatch

  /** The token of a handler with `data = {}`: absent data reads as an empty object; `null` data throws. */
  function DefaultedToken(data: EventData): Option<Option<string>> {
    match data
    case NoData => Some(None)
    case NullData => None
    case Fields(token, _, _, _) => Some(token)
  }

  /** The handler map entry `name` called with the socket and the event's data. */
  function RunEntry(env: SessionEnv, s: ConnState, name: string, data: EventData): ConnState {
    if name == "disconnect" then Disconnect(s)
    else if name == "stopPerformLogs" then StopPerformLogs(s)
    else if DefaultedToken(data).None? then Threw(s, NULL_DATA_ERROR)
    else
      var token := DefaultedToken(data).value;
      if name == "performUpdate" then CommandStream(env, s, token, "update", "update")
      else if name == "performLogs" then CommandStream(env, s, token, "logs", "realTimeLogs")
      else if name == "performServerUpdate" then CommandStream(env, s, token, "serverUpdate", "serverUpdate")
      else if name == "startLocalTerminal" then StartLocalTerminal(env, s, token)
      else if name == "startRemoteTerminal" then StartRemoteTerminal(env, s, token)
      else s
  }

  /** One listener called with the event's data; a terminal listener destructures it, which throws unless it is an object. */
  function RunHandler(env: SessionEnv, s: ConnState, h: Handler, data: EventData): ConnState {
    match h
    case Entry(name) => RunEntry(env, s, name, data)
    case TerminalInput(owner) =>
      if data.Fields? then TerminalInputOp(env, s, owner, data.token, data.input) else Threw(s, DestructureError(data))
    case TerminalResize(owner) =>
      if data.Fields? then TerminalResizeOp(env, s, owner, data.token, data.cols, data.rows) else Threw(s, DestructureError(data))
    case StopTerminal(owner) =>
      if data.Fields? then StopTerminalOp(env, s, owner, data.token) else Threw(s, DestructureError(data))
  }

  /** The listeners of an event called one after the other, each on the state the previous one left. */
  function RunHandlers(env: SessionEnv, s: ConnState, hs: seq<Handler>, data: EventData): ConnState {
    if hs == [] then s
    else RunHandler(env, RunHandlers(env, s, hs[..|hs| - 1], data), hs[|hs| - 1], data)
  }

  /** An inbound socket event: every listener registered for it when it arrives runs. */
  function Receive(env: SessionEnv, s: ConnState, event: string, data: EventData): ConnState {
    RunHandlers(env, s, ListenersOf(s.bindings, event), data)
  }

  /** Everything that can happen to a connection. */
  datatype Input =
    | SocketEvent(event: string, data: EventData)
    | CommandReady(conn: Handle)
    | CommandExec(conn: Handle, err: Option<string>)
    | CommandConnFailed(conn: Handle, message: string)
    | CommandOutput(stream: Handle, chunk: Chunk)
    | PtyOutput(text: string)
    | PtyExited(pty: Handle)
    | TerminalReady(conn: Handle)
    | TerminalShell(conn: Handle, err: Option<string>)
    | TerminalStreamData(text: string)
    | TerminalStreamClosed(conn: Handle)
    | TerminalConnFailed(message: string)

  function Step(env: SessionEnv, s: ConnState, i: Input): ConnState {
    match i
    case SocketEvent(event, data) => Receive(env, s, event, data)
    case CommandReady(conn) => OnCommandReady(s, conn)
    case CommandExec(conn, err) => OnCommandExec(s, conn, err)
    case CommandConnFailed(conn, message) => OnCommandConnError(s, conn, message)
    case CommandOutput(stream, chunk) => OnCommandChunk(s, stream, chunk)
    case PtyOutput(text) => OnPtyData(s, text)
    case PtyExited(pty) => OnPtyExit(s, pty)
    case TerminalReady(conn) => OnTerminalReady(s, conn)
    case TerminalShell(conn, err) => OnTerminalShell(s, conn, err)
    case TerminalStreamData(text) => OnTerminalStreamData(s, text)
    case TerminalStreamClosed(conn) => OnTerminalStreamClosed(s, conn)
    case TerminalConnFailed(message) => OnTerminalConnError(s, message)
  }

  /** A sequence of inputs, applied in order. */
  function Run(env: SessionEnv, s: ConnState, inputs: seq<Input>): ConnState {
    if inputs == [] then s
    else Step(env, Run(env, s, inputs[..|inputs| - 1]), inputs[|inputs| - 1])
  }

  // ---------------------------------------------------------------- invariant

  /** Every handle in use was handed out before `nextHandle`. */
  predicate HandlesIssued(s: ConnState) {
    && (forall p :: p in s.runningPtys ==> p.id < s.nextHandle)
    && (forall p :: p in s.killedPtys ==> p.id < s.nextHandle)
    && (s.terminalProcess.Some? ==> s.terminalProcess.value.id < s.nextHandle)
  }

  /** Every live pty that was not sent a kill is the recorded terminal: no pty runs out of reach of `stopTerminal`. */
  predicate NoOrphanPty(s: ConnState) {
    forall p :: p in s.runningPtys && p !in s.killedPtys ==> s.terminalProcess == Some(p)
  }

  predicate Invariant(s: ConnState) {
    HandlesIssued(s) && NoOrphanPty(s)
  }
}
