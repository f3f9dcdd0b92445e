/**
 * One public WebSocket as both sides of the control channel see it: the state of its two ends, the
 * messages under way for it, and what was relayed, delivered and lost. Module Relay shows that every
 * socket of a tunnel session runs this machine, whatever the other sockets do.
 */
module RelayLink {
  import opened Basics
  import opened Base64
  import opened CliRelay

  /**
   * The server's side of a link. Waiting: the upgrade promise is pending. Answered and Failed: it was
   * settled and its continuation is queued. Relaying: the public listeners are attached. Ended: they
   * are gone, or never came.
   */
  datatype Phase = Waiting | Answered(accepted: bool) | Failed | Relaying | Ended

  /**
   * One direction. `lost` could not be handed over at the far end; `unsent` met a control socket that
   * was no longer open.
   */
  datatype Flow = Flow(relayed: seq<Payload>, delivered: seq<Payload>, lost: seq<Payload>, unsent: seq<Payload>)

  /**
   * `server` and `client` are the two ends of the control socket; `held` and `holding` say whether the
   * server's and the CLI's table have the id; `local` is the local socket once it was opened; `down`
   * and `up` are the messages for this id under way, oldest first.
   */
  datatype Link = Link(
    registered: bool, server: ReadyState, client: ReadyState,
    phase: Phase, pub: ReadyState, held: bool, pending: bool,
    connecting: bool, holding: bool, local: Option<ReadyState>,
    down: seq<Msg>, up: seq<Msg>, toLocal: Flow, toPublic: Flow, closesDown: nat, closesUp: nat)

  datatype Event =
    | ServerReceives | UpgradeTimeout | Continue | PublicMessage(p: Payload) | PublicClosing
    | PublicGone(to: ReadyState, code: int)
    | ServerSocket(to: ReadyState) | Unregister
    | ClientReceives | LocalOpens | LocalFails | LocalMessage(p: Payload) | LocalClosing
    | LocalGone(to: ReadyState, code: int)
    | ClientSocket(to: ReadyState) | CloseAll

  // ---------------------------------------------------------------------------
  // Messages under way
  // ---------------------------------------------------------------------------

  function InFlight(ch: seq<Msg>): seq<Payload> {
    if ch == [] then []
    else if ch[0].MData? then [PayloadOf(ch[0])] + InFlight(ch[1..])
    else InFlight(ch[1..])
  }

  lemma {:induction false} InFlightAppend(ch: seq<Msg>, m: Msg)
    ensures InFlight(ch + [m]) == InFlight(ch) + if m.MData? then [PayloadOf(m)] else []
  {
    if ch == [] {
      assert ch + [m] == [m];
    } else {
      InFlightAppend(ch[1..], m);
      assert (ch + [m])[1..] == ch[1..] + [m];
    }
  }

  predicate HasClose(ch: seq<Msg>) {
    exists i :: 0 <= i < |ch| && ch[i].MClose?
  }

  predicate HasUpgrade(ch: seq<Msg>) {
    exists i :: 0 <= i < |ch| && ch[i].MUpgrade?
  }

  /** The CLI said yes or sent data. */
  predicate ShowsOpen(ch: seq<Msg>) {
    exists i :: 0 <= i < |ch| && (ch[i].MData? || (ch[i].MAnswer? && ch[i].accepted))
  }

  lemma Appended(ch: seq<Msg>, m: Msg)
    ensures HasClose(ch + [m]) <==> HasClose(ch) || m.MClose?
    ensures HasUpgrade(ch + [m]) <==> HasUpgrade(ch) || m.MUpgrade?
    ensures ShowsOpen(ch + [m]) <==> ShowsOpen(ch) || m.MData? || (m.MAnswer? && m.accepted)
  {
    var n := ch + [m];
    assert forall i | 0 <= i < |ch| :: n[i] == ch[i];
    assert n[|ch|] == m;
  }

  lemma Popped(ch: seq<Msg>)
    requires ch != []
    ensures HasClose(ch) <==> ch[0].MClose? || HasClose(ch[1..])
    ensures HasUpgrade(ch) <==> ch[0].MUpgrade? || HasUpgrade(ch[1..])
    ensures ShowsOpen(ch) <==> ch[0].MData? || (ch[0].MAnswer? && ch[0].accepted) || ShowsOpen(ch[1..])
  {
    var r := ch[1..];
    assert forall i | 0 < i < |ch| :: r[i - 1] == ch[i];
    assert forall i | 0 <= i < |r| :: r[i] == ch[i + 1];
  }

  // ---------------------------------------------------------------------------
  // Steps
  // ---------------------------------------------------------------------------

  /** After the public upgrade: registered, announced to the CLI if the control socket is open. */
  function Admitted(id: string, registered: bool, server: ReadyState, client: ReadyState, full: bool): Link {
    Link(registered, server, client, if full then Failed else Waiting, Open, true, !full, false, false, None,
         if server == Open then [MUpgrade(id)] else [], [], Flow([], [], [], []), Flow([], [], [], []), 0, 0)
  }

  /** `close()` on a socket that is open or opening. */
  function AfterClose(s: ReadyState): ReadyState {
    if s in {Open, Connecting} then Closing else s
  }

  predicate CanTake(v: Link, e: Event) {
    match e
    case ServerReceives => v.up != [] && v.server in {Open, Closing}
    case ClientReceives => v.down != [] && v.client in {Open, Closing}
    case UpgradeTimeout => v.pending
    case Continue => v.phase.Answered? || v.phase.Failed?
    case PublicMessage(_) => v.phase == Relaying && v.pub in {Open, Closing}
    case PublicGone(to, _) => v.pub != Closed && Rank(to) >= Rank(v.pub) && to in {Closing, Closed}
    case ServerSocket(to) => Rank(to) >= Rank(v.server)
    case ClientSocket(to) => Rank(to) >= Rank(v.client)
    case LocalOpens => v.connecting
    case LocalFails => v.connecting
    case LocalMessage(_) => v.local.Some? && v.local.value in {Open, Closing}
    case LocalGone(to, _) => v.local.Some? && v.local.value != Closed && Rank(to) >= Rank(v.local.value)
    case _ => true
  }

  function Take(id: string, v: Link, e: Event): Link
    requires CanTake(v, e)
  {
    match e
    case ServerReceives => AtServer(v.(up := v.up[1..]), v.up[0])
    case UpgradeTimeout => v.(pending := false, phase := Failed)
    case Continue =>
      if v.phase == Answered(true) then v.(phase := Relaying)
      else v.(phase := Ended, held := false, pub := AfterClose(v.pub))
    case PublicMessage(p) => SendDown(id, v, p)
    case PublicClosing => v.(pub := AfterClose(v.pub))
    case PublicGone(to, code) => if v.phase == Relaying then Gone(id, v.(pub := to), code) else v.(pub := to)
    case ServerSocket(to) => v.(server := to)
    case Unregister =>
      v.(registered := false, held := false, pending := false, phase := if v.pending then Failed else v.phase,
         pub := if v.held then AfterClose(v.pub) else v.pub)
    case ClientReceives => AtClient(v.(down := v.down[1..]), v.down[0])
    case LocalOpens => Answer(id, v.(connecting := false, holding := true, local := Some(Open)), true)
    case LocalFails => Answer(id, v.(connecting := false), false)
    case LocalMessage(p) => SendUp(id, v, p)
    case LocalClosing => v.(local := if v.local.Some? then Some(AfterClose(v.local.value)) else None)
    case LocalGone(to, code) => LocalEnds(id, v.(local := Some(to)), code)
    case ClientSocket(to) => v.(client := to)
    case CloseAll =>
      v.(holding := false, local := if v.holding && v.local.Some? then Some(AfterClose(v.local.value)) else v.local)
  }

  /** The server's message handler, on one message for this id. */
  function AtServer(v: Link, m: Msg): Link {
    match m
    case MAnswer(_, accepted) => if v.pending then v.(pending := false, phase := Answered(accepted)) else v
    case MData(_, _, _) =>
      if v.held && v.pub == Open then v.(toPublic := v.toPublic.(delivered := v.toPublic.delivered + [PayloadOf(m)]))
      else v.(toPublic := v.toPublic.(lost := v.toPublic.lost + [PayloadOf(m)]))
    case MClose(_, _) => if v.held then v.(held := false, pub := AfterClose(v.pub)) else v
    case MUpgrade(_) => v
  }

  function AtClient(v: Link, m: Msg): Link {
    match m
    case MUpgrade(_) => v.(connecting := true)
    case MData(_, _, _) =>
      if v.holding && v.local == Some(Open)
      then v.(toLocal := v.toLocal.(delivered := v.toLocal.delivered + [PayloadOf(m)]))
      else v.(toLocal := v.toLocal.(lost := v.toLocal.lost + [PayloadOf(m)]))
    case MClose(_, _) => if v.holding then v.(holding := false, local := CloseIt(v.local)) else v
    case MAnswer(_, _) => v
  }

  function CloseIt(l: Option<ReadyState>): Option<ReadyState> {
    if l.Some? then Some(AfterClose(l.value)) else None
  }

  /** A public message goes down the captured control socket, whatever the tables say. */
  function SendDown(id: string, v: Link, p: Payload): Link {
    var f := v.toLocal.(relayed := v.toLocal.relayed + [p]);
    if v.server == Open then v.(toLocal := f, down := v.down + [DataMsg(id, p)])
    else v.(toLocal := f.(unsent := f.unsent + [p]))
  }

  /** The public close or error handler: tell the CLI of a live tunnel, drop the listeners, unregister. */
  function Gone(id: string, v: Link, code: int): Link {
    var n := v.(phase := Ended, held := false);
    if v.registered && v.server == Open then n.(down := v.down + [MClose(id, code)], closesDown := v.closesDown + 1)
    else n
  }

  function Answer(id: string, v: Link, accepted: bool): Link {
    if v.client == Open then v.(up := v.up + [MAnswer(id, accepted)]) else v
  }

  function SendUp(id: string, v: Link, p: Payload): Link {
    if !v.holding then v
    else if |p.bytes| > MAX_FRAME_SIZE then v.(holding := false, local := Some(Closing))
    else
      var f := v.toPublic.(relayed := v.toPublic.relayed + [p]);
      if v.client == Open then v.(toPublic := f, up := v.up + [DataMsg(id, p)])
      else v.(toPublic := f.(unsent := f.unsent + [p]))
  }

  function LocalEnds(id: string, v: Link, code: int): Link {
    if !v.holding then v
    else if v.client == Open then v.(holding := false, up := v.up + [MClose(id, code)], closesUp := v.closesUp + 1)
    else v.(holding := false)
  }

  // ---------------------------------------------------------------------------
  // The invariant
  // ---------------------------------------------------------------------------

  ghost predicate FlowKept(f: Flow, ch: seq<Msg>) {
    f.relayed == f.delivered + f.lost + InFlight(ch) + f.unsent
  }

  /** Everything relayed is accounted for, and nothing is lost while both ends can take it. */
  ghost predicate FlowsOk(v: Link) {
    && FlowKept(v.toLocal, v.down) && FlowKept(v.toPublic, v.up)
    && (v.toLocal.lost != [] ==> !(v.holding && v.local == Some(Open)))
    && (v.toLocal.unsent != [] ==> v.server != Open)
    && (v.toPublic.lost != [] ==> !(v.held && v.pub == Open))
    && (v.toPublic.unsent != [] ==> v.client != Open)
  }

  /** The CLI opens at most one local socket, and data flows only after it did. */
  ghost predicate OpensOnce(v: Link) {
    && (HasUpgrade(v.down) ==> !v.connecting && v.local.None? && NoSecondUpgrade(v.down))
    && (v.connecting ==> v.local.None?)
    && (v.holding ==> v.local.Some?)
    && (ShowedOpen(v) ==> v.local.Some?)
  }

  ghost predicate ShowedOpen(v: Link) {
    ShowsOpen(v.up) || v.phase == Answered(true) || v.phase == Relaying || v.toLocal.relayed != []
    || v.toPublic.relayed != [] || v.closesDown > 0 || v.closesUp > 0
  }

  ghost predicate NoSecondUpgrade(ch: seq<Msg>) {
    forall i, j | 0 <= i < j < |ch| :: !(ch[i].MUpgrade? && ch[j].MUpgrade?)
  }

  /** Close messages are sent once per direction, and one that was sent ends the other side's entry. */
  ghost predicate ClosesOnce(v: Link) {
    && v.closesDown <= 1 && (v.closesDown == 1 ==> v.phase == Ended)
    && v.closesUp <= 1 && (v.closesUp == 1 ==> !v.holding)
    && (v.closesDown == 1 && v.holding ==> HasClose(v.down))
    && (v.closesUp == 1 && v.held ==> HasClose(v.up))
    && (v.phase == Ended ==> !v.held)
  }

  /** The sockets of a link are past their handshakes. */
  predicate Established(v: Link) {
    v.server != Connecting && v.client != Connecting && v.pub != Connecting && v.local != Some(Connecting)
  }

  ghost predicate LinkOk(v: Link) {
    Established(v) && FlowsOk(v) && OpensOnce(v) && ClosesOnce(v) && (v.pending <==> v.phase == Waiting)
  }

  // ---------------------------------------------------------------------------
  // Every event keeps it
  // ---------------------------------------------------------------------------

  lemma AdmittedOk(id: string, registered: bool, server: ReadyState, client: ReadyState, full: bool)
    requires server != Connecting && client != Connecting
    ensures LinkOk(Admitted(id, registered, server, client, full))
  {
  }

  lemma FlowTaken(f: Flow, ch: seq<Msg>)
    requires ch != [] && FlowKept(f, ch)
    ensures !ch[0].MData? ==> FlowKept(f, ch[1..])
    ensures ch[0].MData? && f.lost == [] ==> FlowKept(f.(delivered := f.delivered + [PayloadOf(ch[0])]), ch[1..])
    ensures ch[0].MData? ==> FlowKept(f.(lost := f.lost + [PayloadOf(ch[0])]), ch[1..])
  {
    if ch[0].MData? {
      var p, rest := PayloadOf(ch[0]), InFlight(ch[1..]);
      assert InFlight(ch) == [p] + rest;
      assert f.delivered + f.lost + ([p] + rest) + f.unsent == f.delivered + (f.lost + [p]) + rest + f.unsent;
      if f.lost == [] {
        assert f.delivered + f.lost + ([p] + rest) + f.unsent == (f.delivered + [p]) + f.lost + rest + f.unsent;
      }
    }
  }

  lemma FlowSent(f: Flow, ch: seq<Msg>, m: Msg)
    requires FlowKept(f, ch)
    ensures !m.MData? ==> FlowKept(f, ch + [m])
    ensures m.MData? && f.unsent == [] ==> FlowKept(f.(relayed := f.relayed + [PayloadOf(m)]), ch + [m])
  {
    InFlightAppend(ch, m);
    if m.MData? && f.unsent == [] {
      var p := PayloadOf(m);
      assert f.delivered + f.lost + (InFlight(ch) + [p]) + f.unsent
          == (f.delivered + f.lost + InFlight(ch) + f.unsent) + [p];
    }
  }

  lemma FlowUnsent(f: Flow, ch: seq<Msg>, p: Payload)
    requires FlowKept(f, ch)
    ensures FlowKept(f.(relayed := f.relayed + [p], unsent := f.unsent + [p]), ch)
  {
    assert f.delivered + f.lost + InFlight(ch) + (f.unsent + [p])
        == (f.delivered + f.lost + InFlight(ch) + f.unsent) + [p];
  }

  lemma UpgradesLeft(ch: seq<Msg>)
    requires ch != [] && NoSecondUpgrade(ch)
    ensures NoSecondUpgrade(ch[1..]) && (ch[0].MUpgrade? ==> !HasUpgrade(ch[1..]))
  {
    assert forall i | 0 <= i < |ch| - 1 :: ch[1..][i] == ch[i + 1];
  }

  /** The link without the oldest message of a direction, as its handler sees it. */
  function UpTaken(v: Link): Link
    requires v.up != []
  {
    v.(up := v.up[1..])
  }

  function DownTaken(v: Link): Link
    requires v.down != []
  {
    v.(down := v.down[1..])
  }

  lemma AnswerReceivedOk(v: Link)
    requires LinkOk(v) && v.up != [] && (v.up[0].MAnswer? || v.up[0].MUpgrade?)
    ensures LinkOk(AtServer(UpTaken(v), v.up[0]))
  {
    FlowTaken(v.toPublic, v.up);
    Popped(v.up);
  }

  /** What does not concern the flows, after a data message was taken off the upward channel. */
  lemma DataTakenUpShape(v: Link, f: Flow)
    requires OpensOnce(v) && ClosesOnce(v) && v.up != [] && v.up[0].MData? && f.relayed == v.toPublic.relayed
    ensures OpensOnce(v.(up := v.up[1..], toPublic := f)) && ClosesOnce(v.(up := v.up[1..], toPublic := f))
  {
    Popped(v.up);
  }

  lemma DataTakenUpOk(v: Link, f: Flow)
    requires LinkOk(v) && v.up != [] && v.up[0].MData? && FlowKept(f, v.up[1..])
    requires f.relayed == v.toPublic.relayed && f.unsent == v.toPublic.unsent
    requires f.lost != [] ==> !(v.held && v.pub == Open)
    ensures LinkOk(v.(up := v.up[1..], toPublic := f))
  {
    DataTakenUpShape(v, f);
    assert FlowsOk(v.(up := v.up[1..], toPublic := f));
  }

  lemma DataReceivedOk(v: Link)
    requires LinkOk(v) && v.up != [] && v.up[0].MData?
    ensures LinkOk(AtServer(UpTaken(v), v.up[0]))
  {
    FlowTaken(v.toPublic, v.up);
    var f, p := v.toPublic, PayloadOf(v.up[0]);
    if v.held && v.pub == Open {
      DataTakenUpOk(v, f.(delivered := f.delivered + [p]));
    } else {
      DataTakenUpOk(v, f.(lost := f.lost + [p]));
    }
  }

  lemma CloseReceivedOk(v: Link)
    requires LinkOk(v) && v.up != [] && v.up[0].MClose?
    ensures LinkOk(AtServer(UpTaken(v), v.up[0]))
  {
    FlowTaken(v.toPublic, v.up);
    Popped(v.up);
  }

  lemma ServerReceivesOk(id: string, v: Link)
    requires LinkOk(v) && CanTake(v, ServerReceives)
    ensures LinkOk(Take(id, v, ServerReceives))
  {
    match v.up[0]
    case MData(_, _, _) => DataReceivedOk(v);
    case MClose(_, _) => CloseReceivedOk(v);
    case _ => AnswerReceivedOk(v);
  }

  lemma UpgradeArrivedOk(v: Link)
    requires LinkOk(v) && v.down != [] && (v.down[0].MUpgrade? || v.down[0].MAnswer?)
    ensures LinkOk(AtClient(DownTaken(v), v.down[0]))
  {
    FlowTaken(v.toLocal, v.down);
    Popped(v.down);
    if HasUpgrade(v.down) {
      UpgradesLeft(v.down);
    }
  }

  /** What does not concern the flows, after a data message was taken off the downward channel. */
  lemma DataTakenDownShape(v: Link, f: Flow)
    requires OpensOnce(v) && ClosesOnce(v) && v.down != [] && v.down[0].MData? && f.relayed == v.toLocal.relayed
    ensures OpensOnce(v.(down := v.down[1..], toLocal := f)) && ClosesOnce(v.(down := v.down[1..], toLocal := f))
  {
    Popped(v.down);
    if HasUpgrade(v.down) {
      UpgradesLeft(v.down);
    }
  }

  lemma DataTakenDownOk(v: Link, f: Flow)
    requires LinkOk(v) && v.down != [] && v.down[0].MData? && FlowKept(f, v.down[1..])
    requires f.relayed == v.toLocal.relayed && f.unsent == v.toLocal.unsent
    requires f.lost != [] ==> !(v.holding && v.local == Some(Open))
    ensures LinkOk(v.(down := v.down[1..], toLocal := f))
  {
    DataTakenDownShape(v, f);
    assert FlowsOk(v.(down := v.down[1..], toLocal := f));
  }

  lemma DataArrivedOk(v: Link)
    requires LinkOk(v) && v.down != [] && v.down[0].MData?
    ensures LinkOk(AtClient(DownTaken(v), v.down[0]))
  {
    FlowTaken(v.toLocal, v.down);
    var f, p := v.toLocal, PayloadOf(v.down[0]);
    if v.holding && v.local == Some(Open) {
      DataTakenDownOk(v, f.(delivered := f.delivered + [p]));
    } else {
      DataTakenDownOk(v, f.(lost := f.lost + [p]));
    }
  }

  lemma CloseArrivedOk(v: Link)
    requires LinkOk(v) && v.down != [] && v.down[0].MClose?
    ensures LinkOk(AtClient(DownTaken(v), v.down[0]))
  {
    FlowTaken(v.toLocal, v.down);
    Popped(v.down);
    if HasUpgrade(v.down) {
      UpgradesLeft(v.down);
    }
  }

  lemma ClientReceivesOk(id: string, v: Link)
    requires LinkOk(v) && CanTake(v, ClientReceives)
    ensures LinkOk(Take(id, v, ClientReceives))
  {
    match v.down[0]
    case MData(_, _, _) => DataArrivedOk(v);
    case MClose(_, _) => CloseArrivedOk(v);
    case _ => UpgradeArrivedOk(v);
  }

  lemma SendDownOk(id: string, v: Link, p: Payload)
    requires LinkOk(v) && CanTake(v, PublicMessage(p))
    ensures LinkOk(SendDown(id, v, p))
  {
    PayloadSurvives(id, p);
    FlowSent(v.toLocal, v.down, DataMsg(id, p));
    FlowUnsent(v.toLocal, v.down, p);
    Appended(v.down, DataMsg(id, p));
  }

  lemma SentUpOk(id: string, v: Link, p: Payload)
    requires LinkOk(v) && v.holding && v.client == Open && |p.bytes| <= MAX_FRAME_SIZE
    ensures LinkOk(SendUp(id, v, p))
  {
    PayloadSurvives(id, p);
    FlowSent(v.toPublic, v.up, DataMsg(id, p));
    Appended(v.up, DataMsg(id, p));
  }

  lemma UnsentUpOk(id: string, v: Link, p: Payload)
    requires LinkOk(v) && v.holding && v.client != Open && |p.bytes| <= MAX_FRAME_SIZE
    ensures LinkOk(SendUp(id, v, p))
  {
    FlowUnsent(v.toPublic, v.up, p);
  }

  lemma SendUpOk(id: string, v: Link, p: Payload)
    requires LinkOk(v) && CanTake(v, LocalMessage(p))
    ensures LinkOk(SendUp(id, v, p))
  {
    if v.holding && |p.bytes| <= MAX_FRAME_SIZE {
      if v.client == Open { SentUpOk(id, v, p); } else { UnsentUpOk(id, v, p); }
    } else {
      assert Quieter(v, SendUp(id, v, p));
      QuieterOk(v, SendUp(id, v, p));
    }
  }

  lemma PublicGoneOk(id: string, v: Link, to: ReadyState, code: int)
    requires LinkOk(v) && CanTake(v, PublicGone(to, code))
    ensures LinkOk(Take(id, v, PublicGone(to, code)))
  {
    FlowSent(v.toLocal, v.down, MClose(id, code));
    Appended(v.down, MClose(id, code));
  }

  lemma LocalGoneOk(id: string, v: Link, to: ReadyState, code: int)
    requires LinkOk(v) && CanTake(v, LocalGone(to, code))
    ensures LinkOk(Take(id, v, LocalGone(to, code)))
  {
    FlowSent(v.toPublic, v.up, MClose(id, code));
    Appended(v.up, MClose(id, code));
  }

  lemma AnswerOk(id: string, v: Link, accepted: bool)
    requires LinkOk(v) && v.connecting
    ensures LinkOk(Take(id, v, if accepted then LocalOpens else LocalFails))
  {
    FlowSent(v.toPublic, v.up, MAnswer(id, accepted));
    Appended(v.up, MAnswer(id, accepted));
  }

  /** Events that put no message on the channel and take none off it. */
  predicate Quiet(e: Event) {
    e.UpgradeTimeout? || e.Continue? || e.PublicClosing? || e.ServerSocket? || e.Unregister? || e.LocalClosing?
    || e.ClientSocket? || e.CloseAll?
  }

  /** `n` has the same messages and counts as `v`, and its ends take no more than those of `v`. */
  predicate Quieter(v: Link, n: Link) {
    && n.down == v.down && n.up == v.up && n.toLocal == v.toLocal && n.toPublic == v.toPublic
    && n.closesDown == v.closesDown && n.closesUp == v.closesUp && n.connecting == v.connecting
    && n.local.Some? == v.local.Some? && Established(n)
    && (n.holding ==> v.holding) && (n.held ==> v.held)
    && (n.local == Some(Open) ==> v.local == Some(Open)) && (n.pub == Open ==> v.pub == Open)
    && (n.server == Open ==> v.server == Open) && (n.client == Open ==> v.client == Open)
    && (n.phase in {Answered(true), Relaying} ==> v.phase in {Answered(true), Relaying})
    && (v.phase == Ended ==> n.phase == Ended) && (n.phase == Ended ==> !n.held)
    && (n.pending <==> n.phase == Waiting)
  }

  lemma QuieterOk(v: Link, n: Link)
    requires LinkOk(v) && Quieter(v, n)
    ensures LinkOk(n)
  {
    assert FlowsOk(n);
  }

  lemma UpgradeEventQuieter(id: string, v: Link, e: Event)
    requires LinkOk(v) && CanTake(v, e) && (e.UpgradeTimeout? || e.Continue? || e.PublicClosing? || e.Unregister?)
    ensures Quieter(v, Take(id, v, e))
  {
  }

  lemma SocketEventQuieter(id: string, v: Link, e: Event)
    requires LinkOk(v) && CanTake(v, e) && (e.ServerSocket? || e.LocalClosing? || e.ClientSocket? || e.CloseAll?)
    ensures Quieter(v, Take(id, v, e))
  {
  }

  lemma QuietOk(id: string, v: Link, e: Event)
    requires LinkOk(v) && CanTake(v, e) && Quiet(e)
    ensures LinkOk(Take(id, v, e))
  {
    if e.UpgradeTimeout? || e.Continue? || e.PublicClosing? || e.Unregister? {
      UpgradeEventQuieter(id, v, e);
    } else {
      SocketEventQuieter(id, v, e);
    }
    QuieterOk(v, Take(id, v, e));
  }

  lemma TakeOk(id: string, v: Link, e: Event)
    requires LinkOk(v) && CanTake(v, e)
    ensures LinkOk(Take(id, v, e))
  {
    match e
    case ServerReceives => ServerReceivesOk(id, v);
    case ClientReceives => ClientReceivesOk(id, v);
    case PublicMessage(p) => SendDownOk(id, v, p);
    case PublicGone(to, code) => PublicGoneOk(id, v, to, code);
    case LocalMessage(p) => SendUpOk(id, v, p);
    case LocalGone(to, code) => LocalGoneOk(id, v, to, code);
    case LocalOpens => AnswerOk(id, v, true);
    case LocalFails => AnswerOk(id, v, false);
    case _ => QuietOk(id, v, e);
  }

  // ---------------------------------------------------------------------------
  // What the invariant gives
  // ---------------------------------------------------------------------------

  /**
   * In both directions what was delivered is a prefix of what was relayed, content and kind included;
   * and while both ends can take messages nothing is missing but what is under way.
   */
  lemma DeliveredInOrder(v: Link)
    requires LinkOk(v)
    ensures v.toLocal.delivered <= v.toLocal.relayed && v.toPublic.delivered <= v.toPublic.relayed
    ensures v.server == Open && v.holding && v.local == Some(Open) ==>
              v.toLocal.relayed == v.toLocal.delivered + InFlight(v.down)
    ensures v.client == Open && v.held && v.pub == Open ==>
              v.toPublic.relayed == v.toPublic.delivered + InFlight(v.up)
  {
  }

  /** Neither table has the id, and the CLI's local socket was already opened and given up. */
  predicate Nobody(v: Link) {
    !v.held && !v.holding && v.local.Some?
  }

  /** A close that was sent, from either end, leaves nobody once its channel is drained. */
  lemma DrainedMeansNobody(v: Link)
    requires LinkOk(v)
    requires (v.closesDown == 1 && v.down == []) || (v.closesUp == 1 && v.up == [])
    ensures Nobody(v)
  {
  }

  /** From then on the id stays unknown on both sides and no message for it has an effect at its end. */
  lemma NobodyForGood(id: string, v: Link, e: Event)
    requires LinkOk(v) && Nobody(v) && CanTake(v, e)
    ensures Nobody(Take(id, v, e))
    ensures Take(id, v, e).toLocal.delivered == v.toLocal.delivered
    ensures Take(id, v, e).toPublic.delivered == v.toPublic.delivered
    ensures e == ServerReceives && (v.up[0].MClose? || v.up[0].MUpgrade?) ==> Take(id, v, e) == v.(up := v.up[1..])
    ensures e == ClientReceives && (v.down[0].MClose? || v.down[0].MAnswer?) ==>
              Take(id, v, e) == v.(down := v.down[1..])
    ensures e == ServerReceives ==> Take(id, v, e).pub == v.pub
    ensures e == ClientReceives ==> Take(id, v, e).local == v.local
  {
    assert !HasUpgrade(v.down);
  }

  /** Without a pending upgrade the handlers of both sides leave the server's phase and count alone. */
  lemma HandlersLeavePhase(v: Link, m: Msg)
    requires !v.pending
    ensures AtServer(v, m).phase == v.phase && AtServer(v, m).closesDown == v.closesDown && !AtServer(v, m).pending
    ensures AtClient(v, m).phase == v.phase && AtClient(v, m).closesDown == v.closesDown && !AtClient(v, m).pending
  {
  }

  predicate GivenUp(v: Link) {
    (v.phase == Failed || v.phase == Ended) && !v.pending
  }

  /** The server sends no close for an upgrade that failed or timed out, so the CLI is never told. */
  lemma FailedUpgradeIsNotAnnounced(id: string, v: Link, e: Event)
    requires GivenUp(v) && CanTake(v, e)
    ensures GivenUp(Take(id, v, e)) && Take(id, v, e).closesDown == v.closesDown
  {
    match e
    case ServerReceives => HandlersLeavePhase(v.(up := v.up[1..]), v.up[0]);
    case ClientReceives => HandlersLeavePhase(v.(down := v.down[1..]), v.down[0]);
    case _ =>
  }

  /** The public side closed before its listeners were attached, and the server still holds the id. */
  predicate Unnoticed(v: Link) {
    v.held && v.pub == Closed && v.phase != Ended && v.phase != Failed && v.phase != Answered(false)
  }

  lemma EarlyCloseIsNotNoticed(id: string, v: Link, code: int)
    requires v.held && v.phase == Waiting && v.pub != Closed
    ensures Unnoticed(Take(id, v, PublicGone(Closed, code)))
    ensures Take(id, v, PublicGone(Closed, code)).down == v.down
  {
  }

  /** The event by which the server learns of it: the upgrade fails, the CLI sends a close, or the tunnel goes. */
  predicate Notices(v: Link, e: Event)
    requires CanTake(v, e)
  {
    e.Unregister? || e.UpgradeTimeout?
    || (e.ServerReceives? && (v.up[0].MClose? || (v.up[0].MAnswer? && !v.up[0].accepted && v.pending)))
  }

  /** The public side is closed, and the server has dropped the id or will do so in the upgrade's continuation. */
  predicate Noticed(v: Link) {
    v.pub == Closed && (!v.held || v.phase in {Failed, Ended, Answered(false)})
  }

  lemma ServerHandlesUnnoticed(v: Link, m: Msg)
    requires v.pub == Closed && (v.pending <==> v.phase == Waiting)
    ensures Unnoticed(v) ==>
              if m.MClose? || (m.MAnswer? && !m.accepted && v.pending) then Noticed(AtServer(v, m))
              else Unnoticed(AtServer(v, m))
    ensures Noticed(v) ==> Noticed(AtServer(v, m))
  {
  }

  /** Events at the CLI's end. */
  predicate AtCli(e: Event) {
    e.ClientReceives? || e.LocalOpens? || e.LocalFails? || e.LocalMessage? || e.LocalClosing? || e.LocalGone?
    || e.ClientSocket? || e.CloseAll?
  }

  predicate SameServerSide(v: Link, n: Link) {
    n.pub == v.pub && n.held == v.held && n.phase == v.phase
  }

  lemma ReceivingLeavesServer(v: Link, m: Msg)
    ensures SameServerSide(v, AtClient(v, m))
  {
  }

  lemma SendingLeavesServer(id: string, v: Link, p: Payload)
    ensures SameServerSide(v, SendUp(id, v, p))
  {
  }

  lemma EndingLeavesServer(id: string, v: Link, code: int)
    ensures SameServerSide(v, LocalEnds(id, v, code))
  {
  }

  /** They leave the server's side of the link alone. */
  lemma CliLeavesServer(id: string, v: Link, e: Event)
    requires CanTake(v, e) && AtCli(e)
    ensures SameServerSide(v, Take(id, v, e))
  {
    match e
    case ClientReceives => ReceivingLeavesServer(v.(down := v.down[1..]), v.down[0]);
    case LocalMessage(p) => SendingLeavesServer(id, v, p);
    case LocalGone(to, code) => EndingLeavesServer(id, v.(local := Some(to)), code);
    case _ =>
  }

  lemma ServerTimersUnnoticed(id: string, v: Link, e: Event)
    requires (v.pending <==> v.phase == Waiting) && v.pub == Closed && CanTake(v, e) && !AtCli(e) && !e.ServerReceives?
    ensures Unnoticed(v) && !Notices(v, e) ==> Unnoticed(Take(id, v, e))
    ensures Noticed(v) || (Unnoticed(v) && Notices(v, e)) ==> Noticed(Take(id, v, e))
  {
  }

  /** It stays registered then, exactly until one of these events, and has lost its socket for good after one. */
  lemma UnnoticedStaysIff(id: string, v: Link, e: Event)
    requires LinkOk(v) && (Unnoticed(v) || Noticed(v)) && CanTake(v, e)
    ensures Unnoticed(v) && !Notices(v, e) ==> Unnoticed(Take(id, v, e))
    ensures Noticed(v) || Notices(v, e) ==> Noticed(Take(id, v, e))
  {
    if AtCli(e) {
      CliLeavesServer(id, v, e);
    } else if e.ServerReceives? {
      ServerHandlesUnnoticed(v.(up := v.up[1..]), v.up[0]);
    } else {
      ServerTimersUnnoticed(id, v, e);
    }
  }

  /** The CLI has no entry any more for a local socket it had opened. */
  predicate LetGo(v: Link) {
    !v.holding && v.local.Some?
  }

  /** From then on the CLI sends no close, whatever becomes of its local socket. */
  lemma LetGoIsSilent(id: string, v: Link, e: Event)
    requires LinkOk(v) && LetGo(v) && CanTake(v, e)
    ensures LetGo(Take(id, v, e)) && Take(id, v, e).closesUp == v.closesUp
  {
  }
}
