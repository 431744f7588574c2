/**
 * The listeners of a connection (backend/handlers/index.js and the listener
 * replacement of the two terminal handlers): which handlers an inbound
 * event reaches, and how a terminal start rearranges them.
 */
module SessionListeners {
  import opened Wrappers
  import opened Events
  import opened SessionSpec

  lemma {:induction false} ListenersOfAppend(a: seq<Binding>, b: seq<Binding>, event: string)
    ensures ListenersOf(a + b, event) == ListenersOf(a, event) + ListenersOf(b, event)
    decreases |b|
  {
    if b == [] {
      assert a + b == a;
    } else {
      assert (a + b)[..|a + b| - 1] == a + b[..|b| - 1];
      ListenersOfAppend(a, b[..|b| - 1], event);
    }
  }

  /** After `removeAllListeners`, a terminal event has no listener and every other event keeps its listeners. */
  lemma {:induction false} ListenersAfterRemoval(bs: seq<Binding>, event: string)
    ensures IsTerminalEvent(event) ==> ListenersOf(WithoutTerminalListeners(bs), event) == []
    ensures !IsTerminalEvent(event) ==> ListenersOf(WithoutTerminalListeners(bs), event) == ListenersOf(bs, event)
  {
    if bs != [] {
      var init := bs[..|bs| - 1];
      var last := bs[|bs| - 1];
      ListenersAfterRemoval(init, event);
      var kept := if IsTerminalEvent(last.event) then [] else [last];
      ListenersOfAppend(WithoutTerminalListeners(init), kept, event);
      assert ListenersOf(kept, event) == (if last.event == event && !IsTerminalEvent(last.event) then [last.handler] else []) by {
        if kept != [] {
          assert kept[..0] == [];
        }
      }
    }
  }

  lemma ListenersOfSingle(b: Binding, event: string)
    ensures ListenersOf([b], event) == if b.event == event then [b.handler] else []
  {
    assert [b][..0] == [];
  }

  lemma ListenersOfThree(b0: Binding, b1: Binding, b2: Binding, event: string)
    ensures ListenersOf([b0, b1, b2], event)
      == (if b0.event == event then [b0.handler] else [])
       + (if b1.event == event then [b1.handler] else [])
       + (if b2.event == event then [b2.handler] else [])
  {
    assert [b0, b1, b2] == [b0] + [b1] + [b2];
    ListenersOfAppend([b0] + [b1], [b2], event);
    ListenersOfAppend([b0], [b1], event);
    ListenersOfSingle(b0, event);
    ListenersOfSingle(b1, event);
    ListenersOfSingle(b2, event);
  }

  /** Listeners that replace the terminal listeners: a terminal event hears only the added ones. */
  lemma ReboundListeners(bs: seq<Binding>, added: seq<Binding>, event: string)
    ensures IsTerminalEvent(event) ==> ListenersOf(WithoutTerminalListeners(bs) + added, event) == ListenersOf(added, event)
    ensures !IsTerminalEvent(event) ==> ListenersOf(WithoutTerminalListeners(bs) + added, event) == ListenersOf(bs, event) + ListenersOf(added, event)
  {
    ListenersAfterRemoval(bs, event);
    ListenersOfAppend(WithoutTerminalListeners(bs), added, event);
  }

  /**
   * After the local terminal starts, each terminal event has exactly one
   * listener, the local one, and every other event keeps its listeners.
   */
  lemma LocalStartRebinds(bs: seq<Binding>, event: string)
    ensures event == TERMINAL_INPUT ==> ListenersOf(WithoutTerminalListeners(bs) + LocalTerminalListeners(), event) == [TerminalInput(Local)]
    ensures event == TERMINAL_RESIZE ==> ListenersOf(WithoutTerminalListeners(bs) + LocalTerminalListeners(), event) == [TerminalResize(Local)]
    ensures event == STOP_TERMINAL ==> ListenersOf(WithoutTerminalListeners(bs) + LocalTerminalListeners(), event) == [StopTerminal(Local)]
    ensures !IsTerminalEvent(event) ==> ListenersOf(WithoutTerminalListeners(bs) + LocalTerminalListeners(), event) == ListenersOf(bs, event)
  {
    var added := LocalTerminalListeners();
    ReboundListeners(bs, added, event);
    ListenersOfThree(added[0], added[1], added[2], event);
    assert added == [added[0], added[1], added[2]];
  }

  /**
   * After a remote shell opens over `conn`, each terminal event has exactly
   * one listener, bound to `conn`, and every other event keeps its listeners.
   */
  lemma RemoteShellRebinds(bs: seq<Binding>, conn: Handle, event: string)
    ensures event == TERMINAL_INPUT ==> ListenersOf(WithoutTerminalListeners(bs) + RemoteTerminalListeners(conn), event) == [TerminalInput(Remote(conn))]
    ensures event == TERMINAL_RESIZE ==> ListenersOf(WithoutTerminalListeners(bs) + RemoteTerminalListeners(conn), event) == [TerminalResize(Remote(conn))]
    ensures event == STOP_TERMINAL ==> ListenersOf(WithoutTerminalListeners(bs) + RemoteTerminalListeners(conn), event) == [StopTerminal(Remote(conn))]
    ensures !IsTerminalEvent(event) ==> ListenersOf(WithoutTerminalListeners(bs) + RemoteTerminalListeners(conn), event) == ListenersOf(bs, event)
  {
    var added := RemoteTerminalListeners(conn);
    ReboundListeners(bs, added, event);
    ListenersOfThree(added[0], added[1], added[2], event);
    assert added == [added[0], added[1], added[2]];
  }

  /** Registering one entry per distinct name gives each name exactly its own entry. */
  lemma {:induction false} RegisteredOnce(names: seq<string>, k: nat)
    requires k < |names|
    requires forall i, j :: 0 <= i < j < |names| ==> names[i] != names[j]
    ensures ListenersOf(Registrations(names), names[k]) == [Entry(names[k])]
  {
    var init := names[..|names| - 1];
    var last := names[|names| - 1];
    assert Registrations(names)[..|names| - 1] == Registrations(init);
    if k < |names| - 1 {
      RegisteredOnce(init, k);
    } else {
      NotRegistered(init, last);
    }
  }

  lemma {:induction false} NotRegistered(names: seq<string>, event: string)
    requires event !in names
    ensures ListenersOf(Registrations(names), event) == []
  {
    if names != [] {
      assert Registrations(names)[..|names| - 1] == Registrations(names[..|names| - 1]);
      NotRegistered(names[..|names| - 1], event);
    }
  }

  /**
   * On a new connection every entry of the handler map listens to the event
   * of its own name, once, and the terminal events have no listener yet.
   */
  lemma ConnectionRegistersHandlerMap(k: nat, event: string)
    requires k < |HANDLER_NAMES|
    requires IsTerminalEvent(event)
    ensures ListenersOf(Connected().bindings, HANDLER_NAMES[k]) == [Entry(HANDLER_NAMES[k])]
    ensures ListenersOf(Connected().bindings, event) == []
  {
    RegisteredOnce(HANDLER_NAMES, k);
    NotRegistered(HANDLER_NAMES, event);
  }

  /** `disconnect` and `stopPerformLogs` are called with the socket alone: the event's data makes no difference. */
  lemma DataIgnoredByTeardown(env: SessionEnv, s: ConnState, d1: EventData, d2: EventData)
    ensures RunEntry(env, s, "disconnect", d1) == RunEntry(env, s, "disconnect", d2) == Disconnect(s)
    ensures RunEntry(env, s, "stopPerformLogs", d1) == RunEntry(env, s, "stopPerformLogs", d2) == StopPerformLogs(s)
  {
  }

  /**
   * The other entries pass the event's data on, absent data reading as an
   * empty object: each operation is its event type and command type.
   */
  lemma OperationMap(env: SessionEnv, s: ConnState, d: EventData)
    requires d != NullData
    ensures var token := if d.Fields? then d.token else None;
      && RunEntry(env, s, "performUpdate", d) == CommandStream(env, s, token, "update", "update")
      && RunEntry(env, s, "performLogs", d) == CommandStream(env, s, token, "logs", "realTimeLogs")
      && RunEntry(env, s, "performServerUpdate", d) == CommandStream(env, s, token, "serverUpdate", "serverUpdate")
      && RunEntry(env, s, "startLocalTerminal", d) == StartLocalTerminal(env, s, token)
      && RunEntry(env, s, "startRemoteTerminal", d) == StartRemoteTerminal(env, s, token)
  {
  }

  /**
   * A `null` payload makes the handlers that read `data.token` throw before
   * they do anything: the exception is the only effect, and nothing is
   * emitted, spawned or recorded.
   */
  lemma NullDataThrows(env: SessionEnv, s: ConnState, name: string)
    requires name != "disconnect" && name != "stopPerformLogs"
    ensures RunEntry(env, s, name, NullData) == s.(effects := s.effects + [ListenerThrew(NULL_DATA_ERROR)])
  {
  }

  /** A terminal listener given no object throws while destructuring it, and does nothing else. */
  lemma TerminalListenerThrowsWithoutObject(env: SessionEnv, s: ConnState, h: Handler, data: EventData)
    requires !h.Entry? && !data.Fields?
    ensures RunHandler(env, s, h, data) == s.(effects := s.effects + [ListenerThrew(DestructureError(data))])
  {
  }
}
