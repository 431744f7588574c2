/**
 * The vocabulary shared by the socket handlers: opaque handles to processes
 * and transports, the events emitted on a socket, and the actions performed
 * on processes and SSH connections.
 */
module Events {

  /** An opaque reference to a child process, pseudo-terminal, SSH connection or SSH stream. */
  datatype Handle = Handle(id: nat)

  /** What an outbound socket event carries: a text chunk, a numeric status, or `null` (a close without exit code). */
  datatype Payload = Message(text: string) | Status(code: int) | NullStatus

  /** One `socket.emit(event, payload)`. */
  datatype Emit = Emit(event: string, payload: Payload)

  /** An action on a process or transport, in the order the handlers perform them. */
  datatype Effect =
    | SpawnShellCommand(child: Handle, command: string)
    | SpawnPty(pty: Handle, cols: int, rows: int)
    | PtyWrite(pty: Handle, data: string)
    | PtyResize(pty: Handle, cols: int, rows: int)
    | Kill(process: Handle)
    | SshConnect(conn: Handle)
    | SshExec(conn: Handle, command: string)
    | SshOpenShell(conn: Handle, cols: int, rows: int)
    | SshEnd(conn: Handle)
    | StreamWrite(stream: Handle, data: string)
    | StreamSetWindow(stream: Handle, rows: int, cols: int, height: int, width: int)
    | StreamEnd(stream: Handle)
    | StreamClose(stream: Handle)
    | StreamDestroy(stream: Handle)
    | ListenerThrew(error: string) // an exception escaping a socket listener, with its message
}
