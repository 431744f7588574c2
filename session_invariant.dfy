/**
 * At most one local terminal per connection. localTerminalHandler.js:24
 * refuses a second start while a pseudo-terminal is recorded; these lemmas
 * show that with the exit handler clearing only its own pty, every live pty
 * that was not killed is the recorded one, whatever the connection receives.
 * As written, the exit handler clears the field whichever pty it holds, and
 * a late exit then lets a second pty start beside a running one.
 */
module SessionInvariant {
  import opened Wrappers
  import opened Config
  import opened Events
  import opened Auth
  import opened StreamHelpers
  import opened SessionSpec

  lemma ConnectedInvariant()
    ensures Invariant(Connected())
  {
  }

  /** Operations that leave the pty bookkeeping alone, and only hand out new handles, keep the invariant. */
  lemma KeepsPtys(s: ConnState, t: ConnState)
    requires Invariant(s)
    requires t.runningPtys == s.runningPtys && t.killedPtys == s.killedPtys
    requires t.terminalProcess == s.terminalProcess && t.nextHandle >= s.nextHandle
    ensures Invariant(t)
  {
  }

  lemma CommandStreamKeeps(env: SessionEnv, s: ConnState, token: Option<string>, eventType: string, commandType: string)
    requires Invariant(s)
    ensures Invariant(CommandStream(env, s, token, eventType, commandType))
  {
    KeepsPtys(s, CommandStream(env, s, token, eventType, commandType));
  }

  lemma StartLocalKeeps(env: SessionEnv, s: ConnState, token: Option<string>)
    requires Invariant(s)
    ensures Invariant(StartLocalTerminal(env, s, token))
  {
    if TokenAccepted(env.verify, token) && s.terminalProcess.None? {
      assert Handle(s.nextHandle) !in s.killedPtys;
    }
  }

  lemma StartRemoteKeeps(env: SessionEnv, s: ConnState, token: Option<string>)
    requires Invariant(s)
    ensures Invariant(StartRemoteTerminal(env, s, token))
  {
    KeepsPtys(s, StartRemoteTerminal(env, s, token));
  }

  lemma RunEntryKeeps(env: SessionEnv, s: ConnState, name: string, data: EventData)
    requires Invariant(s)
    ensures Invariant(RunEntry(env, s, name, data))
  {
    if name == "disconnect" {
      KeepsPtys(s, Disconnect(s));
    } else if name == "stopPerformLogs" {
      KeepsPtys(s, StopPerformLogs(s));
    } else if DefaultedToken(data).Some? {
      var token := DefaultedToken(data).value;
      if name == "performUpdate" {
        CommandStreamKeeps(env, s, token, "update", "update");
      } else if name == "performLogs" {
        CommandStreamKeeps(env, s, token, "logs", "realTimeLogs");
      } else if name == "performServerUpdate" {
        CommandStreamKeeps(env, s, token, "serverUpdate", "serverUpdate");
      } else if name == "startLocalTerminal" {
        StartLocalKeeps(env, s, token);
      } else if name == "startRemoteTerminal" {
        StartRemoteKeeps(env, s, token);
      }
    }
  }

  lemma StopTerminalKeeps(env: SessionEnv, s: ConnState, owner: Owner, token: Option<string>)
    requires Invariant(s)
    ensures Invariant(StopTerminalOp(env, s, owner, token))
  {
    var t := StopTerminalOp(env, s, owner, token);
    if !TokenAccepted(env.verify, token) || owner.Remote? || s.terminalProcess.None? {
      KeepsPtys(s, t);
    } else {
      assert t.killedPtys == s.killedPtys + {s.terminalProcess.value} && t.runningPtys == s.runningPtys;
    }
  }

  lemma RunHandlerKeeps(env: SessionEnv, s: ConnState, h: Handler, data: EventData)
    requires Invariant(s)
    ensures Invariant(RunHandler(env, s, h, data))
  {
    match h
    case Entry(name) => RunEntryKeeps(env, s, name, data);
    case TerminalInput(owner) =>
      if data.Fields? {
        KeepsPtys(s, TerminalInputOp(env, s, owner, data.token, data.input));
      } else {
        KeepsPtys(s, Threw(s, DestructureError(data)));
      }
    case TerminalResize(owner) =>
      if data.Fields? {
        KeepsPtys(s, TerminalResizeOp(env, s, owner, data.token, data.cols, data.rows));
      } else {
        KeepsPtys(s, Threw(s, DestructureError(data)));
      }
    case StopTerminal(owner) =>
      if data.Fields? {
        StopTerminalKeeps(env, s, owner, data.token);
      } else {
        KeepsPtys(s, Threw(s, DestructureError(data)));
      }
  }

  lemma {:induction false} RunHandlersKeeps(env: SessionEnv, s: ConnState, hs: seq<Handler>, data: EventData)
    requires Invariant(s)
    ensures Invariant(RunHandlers(env, s, hs, data))
  {
    if hs != [] {
      RunHandlersKeeps(env, s, hs[..|hs| - 1], data);
      RunHandlerKeeps(env, RunHandlers(env, s, hs[..|hs| - 1], data), hs[|hs| - 1], data);
    }
  }

  lemma PtyExitKeeps(s: ConnState, pty: Handle)
    requires Invariant(s)
    ensures Invariant(OnPtyExit(s, pty))
  {
  }

  /** The callbacks of a command stream keep the invariant. */
  lemma CommandCallbackKeeps(env: SessionEnv, s: ConnState, i: Input)
    requires Invariant(s)
    requires i.CommandReady? || i.CommandExec? || i.CommandConnFailed? || i.CommandOutput?
    ensures Invariant(Step(env, s, i))
  {
    match i
    case CommandReady(conn) => KeepsPtys(s, OnCommandReady(s, conn));
    case CommandExec(conn, err) => KeepsPtys(s, OnCommandExec(s, conn, err));
    case CommandConnFailed(conn, message) => KeepsPtys(s, OnCommandConnError(s, conn, message));
    case CommandOutput(stream, chunk) => KeepsPtys(s, OnCommandChunk(s, stream, chunk));
  }

  /** The callbacks of the pty and of the remote shell keep the invariant. */
  lemma TerminalCallbackKeeps(env: SessionEnv, s: ConnState, i: Input)
    requires Invariant(s)
    requires i.PtyOutput? || i.TerminalReady? || i.TerminalShell? || i.TerminalStreamData?
             || i.TerminalStreamClosed? || i.TerminalConnFailed?
    ensures Invariant(Step(env, s, i))
  {
    match i
    case PtyOutput(text) => KeepsPtys(s, OnPtyData(s, text));
    case TerminalReady(conn) => KeepsPtys(s, OnTerminalReady(s, conn));
    case TerminalShell(conn, err) => KeepsPtys(s, OnTerminalShell(s, conn, err));
    case TerminalStreamData(text) => KeepsPtys(s, OnTerminalStreamData(s, text));
    case TerminalStreamClosed(conn) => KeepsPtys(s, OnTerminalStreamClosed(s, conn));
    case TerminalConnFailed(message) => KeepsPtys(s, OnTerminalConnError(s, message));
  }

  /** Every input keeps the invariant. */
  lemma StepKeeps(env: SessionEnv, s: ConnState, i: Input)
    requires Invariant(s)
    ensures Invariant(Step(env, s, i))
  {
    if i.SocketEvent? {
      RunHandlersKeeps(env, s, ListenersOf(s.bindings, i.event), i.data);
    } else if i.PtyExited? {
      PtyExitKeeps(s, i.pty);
    } else if i.CommandReady? || i.CommandExec? || i.CommandConnFailed? || i.CommandOutput? {
      CommandCallbackKeeps(env, s, i);
    } else {
      TerminalCallbackKeeps(env, s, i);
    }
  }

  /** Whatever a connection goes through, every live pty that was not killed is the recorded terminal. */
  lemma {:induction false} RunKeeps(env: SessionEnv, inputs: seq<Input>)
    ensures Invariant(Run(env, Connected(), inputs))
  {
    if inputs == [] {
      ConnectedInvariant();
    } else {
      RunKeeps(env, inputs[..|inputs| - 1]);
      StepKeeps(env, Run(env, Connected(), inputs[..|inputs| - 1]), inputs[|inputs| - 1]);
    }
  }

  /** Hence at most one pty runs unkilled on a connection at any time. */
  lemma AtMostOneLocalTerminal(env: SessionEnv, inputs: seq<Input>, p: Handle, q: Handle)
    requires var s := Run(env, Connected(), inputs);
      p in s.runningPtys && p !in s.killedPtys && q in s.runningPtys && q !in s.killedPtys
    ensures p == q
  {
    RunKeeps(env, inputs);
  }

  // ---------------------------------------------------------------- the exit handler as written

  /** The pty fields after an accepted start with no terminal recorded. */
  lemma StartPtyFields(env: SessionEnv, s: ConnState, token: Option<string>)
    requires TokenAccepted(env.verify, token) && s.terminalProcess.None?
    ensures StartLocalTerminal(env, s, token).terminalProcess == Some(Handle(s.nextHandle))
    ensures StartLocalTerminal(env, s, token).runningPtys == s.runningPtys + {Handle(s.nextHandle)}
    ensures StartLocalTerminal(env, s, token).killedPtys == s.killedPtys
    ensures StartLocalTerminal(env, s, token).nextHandle == s.nextHandle + 1
  {
  }

  /** The pty fields after an accepted local stop with a terminal recorded. */
  lemma StopPtyFields(env: SessionEnv, s: ConnState, token: Option<string>)
    requires TokenAccepted(env.verify, token) && s.terminalProcess.Some?
    ensures StopTerminalOp(env, s, Local, token).terminalProcess.None?
    ensures StopTerminalOp(env, s, Local, token).runningPtys == s.runningPtys
    ensures StopTerminalOp(env, s, Local, token).killedPtys == s.killedPtys + {s.terminalProcess.value}
    ensures StopTerminalOp(env, s, Local, token).nextHandle == s.nextHandle
  {
  }

  /** A verifier that accepts the one token `"t"`. */
  function AcceptT(token: string): Option<Claims> {
    if token == "t" then Some(Claims("admin")) else None
  }

  /**
   * Start a pty, stop it (the kill is sent, the field cleared), start a
   * second one, and only then receive the first one's exit: as written, the
   * late exit clears the field although the second pty still runs, so a
   * third start goes ahead and the second pty runs on unrecorded, beyond the
   * reach of `stopTerminal`.
   */
  lemma LateExitOrphansPty(settings: Settings)
    ensures var env := SessionEnv(settings, AcceptT);
      var s1 := StartLocalTerminal(env, Connected(), Some("t"));
      var s2 := StopTerminalOp(env, s1, Local, Some("t"));
      var s3 := StartLocalTerminal(env, s2, Some("t"));
      var s4 := OnPtyExitAsWritten(s3, Handle(0));
      var s5 := StartLocalTerminal(env, s4, Some("t"));
      && Handle(1) in s5.runningPtys && Handle(1) !in s5.killedPtys
      && Handle(2) in s5.runningPtys && Handle(2) !in s5.killedPtys
      && s5.terminalProcess == Some(Handle(2))
      && !NoOrphanPty(s5)
  {
    var env := SessionEnv(settings, AcceptT);
    var t := Some("t");
    assert TokenAccepted(AcceptT, t);
    StartPtyFields(env, Connected(), t);
    StopPtyFields(env, StartLocalTerminal(env, Connected(), t), t);
    StartPtyFields(env, StopTerminalOp(env, StartLocalTerminal(env, Connected(), t), Local, t), t);
    StartPtyFields(env, OnPtyExitAsWritten(StartLocalTerminal(env, StopTerminalOp(env, StartLocalTerminal(env, Connected(), t), Local, t), t), Handle(0)), t);
  }

  /** The same sequence with the guarded exit handler: the late exit leaves the second pty recorded, and the third start is refused. */
  lemma LateExitKeepsRecordedPty(settings: Settings)
    ensures var env := SessionEnv(settings, AcceptT);
      var s1 := StartLocalTerminal(env, Connected(), Some("t"));
      var s2 := StopTerminalOp(env, s1, Local, Some("t"));
      var s3 := StartLocalTerminal(env, s2, Some("t"));
      var s4 := OnPtyExit(s3, Handle(0));
      var s5 := StartLocalTerminal(env, s4, Some("t"));
      && s5.terminalProcess == Some(Handle(1))
      && s5.runningPtys == {Handle(1)}
      && NoOrphanPty(s5)
  {
    var env := SessionEnv(settings, AcceptT);
    var t := Some("t");
    assert TokenAccepted(AcceptT, t);
    StartPtyFields(env, Connected(), t);
    StopPtyFields(env, StartLocalTerminal(env, Connected(), t), t);
    StartPtyFields(env, StopTerminalOp(env, StartLocalTerminal(env, Connected(), t), Local, t), t);
  }
}
