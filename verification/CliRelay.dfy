/**
 * The CLI's half of the relay: the handler object that keeps one entry per local WebSocket, and what
 * each of its callbacks means.
 */
module CliRelay {
  import opened Basics
  import opened Base64

  const MAX_FRAME_SIZE := 10 * 1024 * 1024

  /** One WebSocket message: its content and whether it is binary. */
  datatype Payload = Payload(bytes: seq<Byte>, binary: bool)

  /** The messages about WebSockets on the control channel; data travels as base64 text. */
  datatype Msg =
    | MUpgrade(id: string)
    | MAnswer(id: string, accepted: bool)
    | MData(id: string, text: string, binary: bool)
    | MClose(id: string, code: int)

  function DataMsg(id: string, p: Payload): Msg {
    MData(id, Encode(p.bytes), p.binary)
  }

  function PayloadOf(m: Msg): Payload
    requires m.MData?
  {
    Payload(Decode(m.text), m.binary)
  }

  lemma PayloadSurvives(id: string, p: Payload)
    ensures PayloadOf(DataMsg(id, p)) == p
  {
    DecodeEncode(p.bytes);
  }

  datatype Local = Local(frameCount: nat, bytes: nat)

  /**
   * `locals` holds the state of every local socket that was opened, `sent` what went to the tunnel and
   * `delivered` what went to each local server.
   */
  datatype Cli = Cli(connections: map<string, Local>, locals: map<string, ReadyState>, sent: seq<Msg>,
                     delivered: map<string, seq<Payload>>)

  function Counted(l: Local, n: nat): Local {
    Local(l.frameCount + 1, l.bytes + n)
  }

  /** `localWs.close(...)` */
  function CloseLocal(locals: map<string, ReadyState>, id: string): map<string, ReadyState> {
    if id in locals && locals[id] in {Open, Connecting} then locals[id := Closing] else locals
  }

  /** `localWs.terminate()` */
  function Terminate(locals: map<string, ReadyState>, id: string): map<string, ReadyState> {
    if id in locals && locals[id] != Closed then locals[id := Closing] else locals
  }

  function DeliveredTo(c: Cli, id: string): seq<Payload> {
    if id in c.delivered then c.delivered[id] else []
  }

  function Opened(c: Cli, id: string): Cli {
    c.(connections := c.connections[id := Local(0, 0)], locals := c.locals[id := Open],
       sent := c.sent + [MAnswer(id, true)])
  }

  function OpenFailed(c: Cli, id: string): Cli {
    c.(sent := c.sent + [MAnswer(id, false)])
  }

  /** A message of the local server. An oversize one ends the entry without a close message. */
  function FromLocal(c: Cli, id: string, p: Payload): Cli {
    if id !in c.connections then c
    else if |p.bytes| > MAX_FRAME_SIZE then
      c.(connections := c.connections - {id}, locals := Terminate(c.locals, id))
    else
      c.(connections := c.connections[id := Counted(c.connections[id], |p.bytes|)], sent := c.sent + [DataMsg(id, p)])
  }

  /** The close or error event of a local socket. */
  function LocalClosed(c: Cli, id: string, code: int): Cli {
    if id !in c.connections then c
    else c.(connections := c.connections - {id}, sent := c.sent + [MClose(id, code)])
  }

  function ToLocal(c: Cli, id: string, text: string, binary: bool): Cli {
    if id !in c.connections || id !in c.locals || c.locals[id] != Open then c
    else
      var p := Payload(Decode(text), binary);
      c.(connections := c.connections[id := Counted(c.connections[id], |p.bytes|)],
         delivered := c.delivered[id := DeliveredTo(c, id) + [p]])
  }

  function CloseFromTunnel(c: Cli, id: string): Cli {
    if id !in c.connections then c
    else c.(connections := c.connections - {id}, locals := CloseLocal(c.locals, id))
  }

  function CloseAllLocals(c: Cli): Cli {
    c.(connections := map[],
       locals := map id | id in c.locals ::
         if id in c.connections && c.locals[id] in {Open, Connecting} then Closing else c.locals[id])
  }

  /** An entry exists only for a socket that was opened. */
  ghost predicate EntriesOpened(c: Cli) {
    c.connections.Keys <= c.locals.Keys
  }

  class WebSocketHandler {
    var connections: map<string, Local>

    // What the handler does to the outside: local sockets, messages to the tunnel and to local servers.
    var locals: map<string, ReadyState>
    var sent: seq<Msg>
    var delivered: map<string, seq<Payload>>

    ghost function View(): Cli
      reads this
    {
      Cli(connections, locals, sent, delivered)
    }

    ghost predicate Valid()
      reads this
    {
      EntriesOpened(View())
    }

    constructor ()
      ensures View() == Cli(map[], map[], [], map[])
      ensures Valid()
    {
      connections, locals, sent, delivered := map[], map[], [], map[];
    }

    /** The part of handleUpgrade after its await; `connected` tells whether the local socket opened. */
    method FinishUpgrade(id: string, connected: bool)
      requires Valid()
      modifies this
      ensures View() == if connected then Opened(old(View()), id) else OpenFailed(old(View()), id)
      ensures Valid()
    {
      if connected {
        locals := locals[id := Open];
        connections := connections[id := Local(0, 0)];
        sent := sent + [MAnswer(id, true)];
      } else {
        sent := sent + [MAnswer(id, false)];
      }
    }

    method OnLocalMessage(id: string, p: Payload)
      requires Valid()
      modifies this
      ensures View() == FromLocal(old(View()), id, p)
      ensures Valid()
    {
      if id !in connections {
        return;
      }
      if |p.bytes| > MAX_FRAME_SIZE {
        if locals[id] != Closed {
          locals := locals[id := Closing];
        }
        connections := connections - {id};
        return;
      }
      var dataMessage := MData(id, Encode(p.bytes), p.binary);
      var connection := connections[id];
      connections := connections[id := Local(connection.frameCount + 1, connection.bytes + |p.bytes|)];
      sent := sent + [dataMessage];
    }

    method HandleLocalClose(id: string, code: int)
      requires Valid()
      modifies this
      ensures View() == LocalClosed(old(View()), id, code)
      ensures Valid()
    {
      if id !in connections {
        return;
      }
      sent := sent + [MClose(id, code)];
      connections := connections - {id};
    }

    method HandleData(id: string, text: string, binary: bool)
      requires Valid()
      modifies this
      ensures View() == ToLocal(old(View()), id, text, binary)
      ensures Valid()
    {
      if id !in connections {
        return;
      }
      if locals[id] != Open {
        return;
      }
      var buffer := Decode(text);
      var before := if id in delivered then delivered[id] else [];
      delivered := delivered[id := before + [Payload(buffer, binary)]];
      var connection := connections[id];
      connections := connections[id := Local(connection.frameCount + 1, connection.bytes + |buffer|)];
    }

    method HandleClose(id: string)
      requires Valid()
      modifies this
      ensures View() == CloseFromTunnel(old(View()), id)
      ensures Valid()
    {
      if id !in connections {
        return;
      }
      if locals[id] == Open || locals[id] == Connecting {
        locals := locals[id := Closing];
      }
      connections := connections - {id};
    }

    /** Closes and deletes entry by entry while scanning the map. */
    method CloseAll()
      requires Valid()
      modifies this
      ensures View() == CloseAllLocals(old(View()))
      ensures Valid()
    {
      ghost var was := View();
      var ids := connections.Keys;
      while ids != {}
        invariant ids <= was.connections.Keys && connections == was.connections - (was.connections.Keys - ids)
        invariant locals == map id | id in was.locals ::
                    if id in was.connections && id !in ids && was.locals[id] in {Open, Connecting}
                    then Closing else was.locals[id]
        invariant sent == was.sent && delivered == was.delivered
      {
        var id :| id in ids;
        ids := ids - {id};
        if locals[id] == Open || locals[id] == Connecting {
          locals := locals[id := Closing];
        }
        connections := connections - {id};
      }
      assert connections == map[];
    }
  }
}
