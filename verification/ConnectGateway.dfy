/**
 * A CONNECT tunnel of the proxy gateway: the reply of the upstream proxy is split off its byte stream,
 * the rest is piped, and the usage is logged. Bytes are written as characters.
 */
module ConnectGateway {
  import opened Basics

  const CRLF := "\r\n"
  const HEADER_END := "\r\n\r\n"
  const ESTABLISHED := "HTTP/1.1 200 Connection Established" + HEADER_END
  const BAD_GATEWAY := "HTTP/1.1 502 Bad Gateway" + HEADER_END

  // ---------------------------------------------------------------------------
  // The reply header
  // ---------------------------------------------------------------------------

  /** `indexOf`: the first place where `pat` starts. */
  function Find(s: string, pat: string): (r: Option<nat>)
    ensures r.Some? ==> r.value + |pat| <= |s| && s[r.value..r.value + |pat|] == pat
  {
    if |s| < |pat| then None
    else if s[..|pat|] == pat then Some(0)
    else if s == [] then None
    else
      var r := Find(s[1..], pat);
      if r.None? then None else Some(r.value + 1)
  }

  /** It is the first one, and nothing is found only if there is none. */
  lemma {:induction false} FindIsFirst(s: string, pat: string, j: nat)
    requires j + |pat| <= |s| && s[j..j + |pat|] == pat
    ensures Find(s, pat).Some? && Find(s, pat).value <= j
  {
    if s[..|pat|] != pat {
      assert s[1..][j - 1..j - 1 + |pat|] == s[j..j + |pat|];
      FindIsFirst(s[1..], pat, j - 1);
    }
  }

  function FirstLine(header: string): string {
    var r := Find(header, CRLF);
    if r.None? then header else header[..r.value]
  }

  predicate Digit(c: char) { '0' <= c <= '9' }

  predicate Space(c: char) { c == ' ' || '\t' <= c <= '\r' }

  function Number(s: string, acc: nat): nat {
    if s == [] || !Digit(s[0]) then acc else Number(s[1..], acc * 10 + (s[0] - '0') as nat)
  }

  function SkipSpace(s: string): string {
    if s == [] || !Space(s[0]) then s else SkipSpace(s[1..])
  }

  function Upper(c: char): char {
    if 'a' <= c <= 'z' then c - 'a' + 'A' else c
  }

  /** The pattern `HTTP/\d.\d\s+(\d+)`, ignoring case, at the start of `s`. */
  function StatusHere(s: string): Option<nat> {
    if |s| < 9 || [Upper(s[0]), Upper(s[1]), Upper(s[2]), Upper(s[3])] != "HTTP" || s[4] != '/' || !Digit(s[5])
       || s[6] != '.' || !Digit(s[7]) || !Space(s[8]) then None
    else
      var rest := SkipSpace(s[8..]);
      if rest == [] || !Digit(rest[0]) then None else Some(Number(rest, 0))
  }

  /** The first match in the line; 0 without one. */
  function StatusCode(line: string): nat {
    if line == [] then 0
    else
      var r := StatusHere(line);
      if r.Some? then r.value else StatusCode(line[1..])
  }

  lemma {:induction false} FindStays(s: string, pat: string, more: string)
    requires pat != [] && Find(s, pat).Some?
    ensures Find(s + more, pat) == Find(s, pat)
  {
    assert (s + more)[..|pat|] == s[..|pat|];
    if s[..|pat|] != pat {
      assert (s + more)[1..] == s[1..] + more;
      FindStays(s[1..], pat, more);
    }
  }

  // ---------------------------------------------------------------------------
  // The tunnel
  // ---------------------------------------------------------------------------

  datatype Phase = AwaitingReply | Piping | Refused

  /** One logged usage record. */
  datatype Usage = Usage(up: nat, down: nat)

  /**
   * `received` is everything the upstream socket delivered, `toClient` and `toUpstream` what was
   * written to either side (the CONNECT request itself left out).
   */
  datatype Tunnel = Tunnel(
    phase: Phase, buffer: string, received: string, toClient: string, toUpstream: string,
    clientOpen: bool, upstreamOpen: bool, bytesUp: nat, bytesDown: nat, done: bool, log: seq<Usage>)

  datatype Event = FromUpstream(chunk: string) | FromClient(chunk: string) | UpstreamFails | UpstreamCloses | ClientEnds

  function Begin(head: string): Tunnel {
    Tunnel(AwaitingReply, "", "", "", "", true, true, |head|, 0, false, [])
  }

  function Finalize(t: Tunnel): Tunnel {
    if t.done then t else t.(done := true, log := t.log + [Usage(t.bytesUp, t.bytesDown)])
  }

  /** Writes after the client socket was destroyed go nowhere. */
  function Write(t: Tunnel, s: string): Tunnel {
    if t.clientOpen then t.(toClient := t.toClient + s) else t
  }

  /** The listener that waits for the end of the reply header, or the pipe after it. */
  function Received(t: Tunnel, head: string, chunk: string): Tunnel {
    var n := t.(bytesDown := t.bytesDown + |chunk|, received := t.received + chunk);
    match t.phase
    case AwaitingReply => Split(n.(buffer := t.buffer + chunk), head)
    case Piping => Write(n, chunk)
    case Refused => n
  }

  function Split(t: Tunnel, head: string): Tunnel {
    var idx := Find(t.buffer, HEADER_END);
    if idx.None? then t
    else
      var headerPart, rest := t.buffer[..idx.value + 4], t.buffer[idx.value + 4..];
      if StatusCode(FirstLine(headerPart)) != 200
      then Write(Finalize(t), headerPart + rest).(phase := Refused, clientOpen := false, upstreamOpen := false)
      else Write(t, ESTABLISHED + rest).(phase := Piping, toUpstream := t.toUpstream + head)
  }

  predicate CanTake(t: Tunnel, e: Event) {
    match e
    case FromUpstream(_) => t.upstreamOpen
    case FromClient(_) => t.clientOpen && t.phase == Piping
    case UpstreamFails => t.upstreamOpen
    case _ => true
  }

  function Take(t: Tunnel, head: string, e: Event): Tunnel {
    match e
    case FromUpstream(chunk) => Received(t, head, chunk)
    case FromClient(chunk) => t.(bytesUp := t.bytesUp + |chunk|, toUpstream := t.toUpstream + chunk)
    case UpstreamFails => Write(t, BAD_GATEWAY).(clientOpen := false, upstreamOpen := false)
    case UpstreamCloses => Finalize(t).(upstreamOpen := false)
    case ClientEnds => Finalize(t).(clientOpen := false, upstreamOpen := false)
  }

  class ConnectTunnel {
    const head: string
    var phase: Phase
    var buffer: string
    var bytesUp: nat
    var bytesDown: nat
    var done: bool

    // What the handlers see and do on the outside.
    var received: string
    var toClient: string
    var toUpstream: string
    var clientOpen: bool
    var upstreamOpen: bool
    var log: seq<Usage>

    ghost function View(): Tunnel
      reads this
    {
      Tunnel(phase, buffer, received, toClient, toUpstream, clientOpen, upstreamOpen, bytesUp, bytesDown, done, log)
    }

    constructor (head: string)
      ensures View() == Begin(head) && this.head == head
    {
      this.head := head;
      phase, buffer, received, toClient, toUpstream := AwaitingReply, "", "", "", "";
      clientOpen, upstreamOpen, bytesUp, bytesDown, done, log := true, true, |head|, 0, false, [];
    }

    method FinalizeUsage()
      modifies this
      ensures View() == Finalize(old(View()))
    {
      if done {
        return;
      }
      done := true;
      log := log + [Usage(bytesUp, bytesDown)];
    }

    method WriteToClient(s: string)
      modifies `toClient
      ensures View() == Write(old(View()), s)
    {
      if clientOpen {
        toClient := toClient + s;
      }
    }

    method OnUpstreamData(chunk: string)
      requires CanTake(View(), FromUpstream(chunk))
      modifies this
      ensures View() == Received(old(View()), head, chunk)
    {
      ghost var n := View().(bytesDown := bytesDown + |chunk|, received := received + chunk);
      bytesDown := bytesDown + |chunk|;
      received := received + chunk;
      assert View() == n;
      match phase
      case Piping =>
        WriteToClient(chunk);
        assert View() == Write(n, chunk);
      case AwaitingReply =>
        OnReplyData(chunk);
        assert View() == Split(n.(buffer := n.buffer + chunk), head);
      case Refused =>
    }

    /** The reply listener, after the chunk was counted. */
    method OnReplyData(chunk: string)
      modifies this
      ensures View() == Split(old(View()).(buffer := old(buffer) + chunk), head)
    {
      buffer := buffer + chunk;
      var idx := Find(buffer, HEADER_END);
      if idx.None? {
        return;
      }
      var headerPart, rest := buffer[..idx.value + 4], buffer[idx.value + 4..];
      var statusCode := StatusCode(FirstLine(headerPart));
      if statusCode != 200 {
        Refuse(headerPart, rest);
      } else {
        Accept(rest);
      }
    }

    method Refuse(headerPart: string, rest: string)
      modifies this
      ensures View() == Write(Finalize(old(View())), headerPart + rest)
                        .(phase := Refused, clientOpen := false, upstreamOpen := false)
    {
      FinalizeUsage();
      WriteBoth(headerPart, rest);
      phase, clientOpen, upstreamOpen := Refused, false, false;
    }

    method Accept(rest: string)
      modifies this
      ensures View() == Write(old(View()), ESTABLISHED + rest).(phase := Piping, toUpstream := old(toUpstream) + head)
    {
      WriteBoth(ESTABLISHED, rest);
      toUpstream := toUpstream + head;
      phase := Piping;
    }

    /** Two writes in a row are one. */
    method WriteBoth(first: string, second: string)
      modifies `toClient
      ensures View() == Write(old(View()), first + second)
    {
      Associative(toClient, first, second);
      WriteToClient(first);
      WriteToClient(second);
    }

    method OnClientData(chunk: string)
      requires CanTake(View(), FromClient(chunk))
      modifies this
      ensures View() == Take(old(View()), head, FromClient(chunk))
    {
      bytesUp := bytesUp + |chunk|;
      toUpstream := toUpstream + chunk;
    }

    method OnUpstreamError()
      requires CanTake(View(), UpstreamFails)
      modifies this
      ensures View() == Take(old(View()), head, UpstreamFails)
    {
      WriteToClient(BAD_GATEWAY);
      clientOpen, upstreamOpen := false, false;
    }

    method OnUpstreamClose()
      modifies this
      ensures View() == Take(old(View()), head, UpstreamCloses)
    {
      FinalizeUsage();
      upstreamOpen := false;
    }

    /** The client's error and close events. */
    method OnClientEnd()
      modifies this
      ensures View() == Take(old(View()), head, ClientEnds)
    {
      FinalizeUsage();
      clientOpen, upstreamOpen := false, false;
    }
  }

  // ---------------------------------------------------------------------------
  // Runs
  // ---------------------------------------------------------------------------

  ghost predicate Run(t: Tunnel, head: string, events: seq<Event>, last: Tunnel)
    decreases |events|
  {
    if events == [] then t == last
    else CanTake(t, events[0]) && Run(Take(t, head, events[0]), head, events[1..], last)
  }

  function ChunkOf(e: Event): string {
    if e.FromUpstream? then e.chunk else ""
  }

  /** Everything the upstream socket delivered in a run, in order. */
  function Delivered(events: seq<Event>): string {
    if events == [] then ""
    else ChunkOf(events[0]) + Delivered(events[1..])
  }

  /** A failure of the upstream connection is the last thing that is written to the client. */
  predicate Failed(events: seq<Event>) {
    exists i :: 0 <= i < |events| && events[i].UpstreamFails?
  }

  /** What the client should have got of the stream `s`: nothing before a complete header with status 200. */
  function Expected(s: string): string {
    var idx := Find(s, HEADER_END);
    if idx.None? || StatusCode(FirstLine(s[..idx.value + 4])) != 200 then ""
    else ESTABLISHED + s[idx.value + 4..]
  }

  predicate Accepts(s: string) {
    var idx := Find(s, HEADER_END);
    idx.Some? && StatusCode(FirstLine(s[..idx.value + 4])) == 200
  }

  predicate Rejects(s: string) {
    var idx := Find(s, HEADER_END);
    idx.Some? && StatusCode(FirstLine(s[..idx.value + 4])) != 200
  }

  /** What was written to the client, given the stream so far. */
  function Shown(phase: Phase, received: string, failed: bool): string {
    var s := if phase == Refused then received else Expected(received);
    if failed then s + BAD_GATEWAY else s
  }

  ghost predicate Sound(t: Tunnel, failed: bool) {
    && t.bytesDown == |t.received|
    && (t.upstreamOpen ==> t.clientOpen && !failed && !t.done)
    && (t.phase == AwaitingReply ==> t.buffer == t.received && Find(t.received, HEADER_END).None?)
    && (t.phase == Piping ==> Accepts(t.received))
    && (t.phase == Refused ==> Rejects(t.received) && t.done && !failed)
    && t.toClient == Shown(t.phase, t.received, failed)
    && |t.log| == (if t.done then 1 else 0)
    && (t.done ==> !t.upstreamOpen && t.log[0].down == t.bytesDown)
  }

  /** More bytes after an accepted header are passed on behind the earlier ones. */
  lemma ExpectedGrows(s: string, more: string)
    requires Accepts(s)
    ensures Accepts(s + more) && Expected(s + more) == Expected(s) + more
  {
    var k := Find(s, HEADER_END).value + 4;
    FindStays(s, HEADER_END, more);
    SlicesGrow(s, more, k);
    Associative(ESTABLISHED, s[k..], more);
  }

  lemma SlicesGrow(s: string, more: string, k: nat)
    requires k <= |s|
    ensures (s + more)[..k] == s[..k] && (s + more)[k..] == s[k..] + more
  {
  }

  lemma PipedSound(t: Tunnel, chunk: string)
    requires Sound(t, false) && t.upstreamOpen && t.phase == Piping
    ensures Sound(Write(t.(bytesDown := t.bytesDown + |chunk|, received := t.received + chunk), chunk), false)
  {
    ExpectedGrows(t.received, chunk);
    assert t.toClient == Expected(t.received);
  }

  lemma ReceivedSound(t: Tunnel, head: string, chunk: string)
    requires Sound(t, false) && t.upstreamOpen
    ensures Sound(Received(t, head, chunk), false)
    ensures Received(t, head, chunk).received == t.received + chunk
  {
    if t.phase == Piping {
      PipedSound(t, chunk);
    } else {
      SplitSound(t.(bytesDown := t.bytesDown + |chunk|, received := t.received + chunk, buffer := t.buffer + chunk),
                 head);
    }
  }

  lemma SplitSound(t: Tunnel, head: string)
    requires t.phase == AwaitingReply && t.buffer == t.received && t.bytesDown == |t.received|
    requires t.toClient == "" && t.clientOpen && t.upstreamOpen && !t.done && t.log == []
    ensures Sound(Split(t, head), false) && Split(t, head).received == t.received
  {
    var idx := Find(t.buffer, HEADER_END);
    if idx.Some? {
      assert t.buffer[..idx.value + 4] + t.buffer[idx.value + 4..] == t.buffer;
    }
  }

  lemma TakeSound(t: Tunnel, head: string, e: Event, failed: bool)
    requires Sound(t, failed) && CanTake(t, e)
    ensures Sound(Take(t, head, e), failed || e.UpstreamFails?)
    ensures Take(t, head, e).received == t.received + ChunkOf(e)
  {
    if e.FromUpstream? {
      ReceivedSound(t, head, e.chunk);
    } else {
      assert t.received + "" == t.received;
    }
  }

  lemma FailedSplit(events: seq<Event>)
    requires events != []
    ensures Failed(events) <==> events[0].UpstreamFails? || Failed(events[1..])
  {
    assert forall i | 0 < i < |events| :: events[1..][i - 1] == events[i];
    assert forall i | 0 <= i < |events| - 1 :: events[1..][i] == events[i + 1];
  }

  lemma {:induction false} RunSound(t: Tunnel, head: string, events: seq<Event>, last: Tunnel, failed: bool)
    requires Sound(t, failed) && Run(t, head, events, last)
    ensures Sound(last, failed || Failed(events)) && last.received == t.received + Delivered(events)
    decreases |events|
  {
    if events == [] {
      assert t.received + "" == t.received;
    } else {
      TakeSound(t, head, events[0], failed);
      RunSound(Take(t, head, events[0]), head, events[1..], last, failed || events[0].UpstreamFails?);
      FailedSplit(events);
      Associative(t.received, ChunkOf(events[0]), Delivered(events[1..]));
    }
  }

  lemma Associative(a: string, b: string, c: string)
    ensures a + b + c == a + (b + c)
  {
  }

  /**
   * For every chunking and every interleaving with the other side: once the stream starts with a 200
   * reply, the client has got the gateway's own reply followed by exactly the bytes after the first
   * empty line, plus a 502 reply in the middle of the tunnel if and only if the upstream socket failed.
   */
  lemma ClientGetsTheStream(head: string, events: seq<Event>, t: Tunnel)
    requires Run(Begin(head), head, events, t) && Accepts(Delivered(events))
    ensures t.toClient == if Failed(events) then Expected(Delivered(events)) + BAD_GATEWAY
              else Expected(Delivered(events))
    ensures t.toClient == Expected(Delivered(events)) <==> !Failed(events)
  {
    RunSound(Begin(head), head, events, t, false);
    assert "" + Delivered(events) == Delivered(events);
  }

  /** So two runs over the same bytes, however they are cut, give the client the same bytes. */
  lemma ChunkingDoesNotMatter(head: string, a: seq<Event>, t: Tunnel, b: seq<Event>, u: Tunnel)
    requires Run(Begin(head), head, a, t) && Run(Begin(head), head, b, u)
    requires Delivered(a) == Delivered(b) && Accepts(Delivered(a)) && Failed(a) == Failed(b)
    ensures t.toClient == u.toClient && t.bytesDown == u.bytesDown
  {
    ClientGetsTheStream(head, a, t);
    ClientGetsTheStream(head, b, u);
    RunSound(Begin(head), head, a, t, false);
    RunSound(Begin(head), head, b, u, false);
  }

  /** Usage is logged at most once, with all bytes that were received. */
  lemma UsageIsLoggedOnce(head: string, events: seq<Event>, t: Tunnel)
    requires Run(Begin(head), head, events, t)
    ensures |t.log| <= 1 && t.bytesDown == |Delivered(events)|
    ensures t.log != [] ==> t.log[0].down == |Delivered(events)|
  {
    RunSound(Begin(head), head, events, t, false);
    assert "" + Delivered(events) == Delivered(events);
  }

  /**
   * A reply with another status is passed on with whatever came in the same chunk as its last header
   * byte; later chunks are not taken any more, so here the chunking does show.
   */
  lemma RefusalPassesOnWhatWasRead(head: string, events: seq<Event>, t: Tunnel, chunk: string)
    requires Run(Begin(head), head, events, t) && t.phase == Refused
    ensures t.toClient == Delivered(events) && Rejects(Delivered(events))
    ensures !CanTake(t, FromUpstream(chunk)) && |t.log| == 1
  {
    RunSound(Begin(head), head, events, t, false);
    assert "" + Delivered(events) == Delivered(events);
  }
}
