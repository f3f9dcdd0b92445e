/**
 * One tunnel session with all its WebSockets: the server's tables, the CLI's table and one ordered
 * channel per direction that every socket shares. Each socket of it runs the machine of RelayLink.
 */
module Relay {
  import opened Basics
  import opened Subdomains
  import opened Base64
  import opened Registry
  import opened CliRelay
  import L = RelayLink

  /** The server's view of a public socket: where its upgrade stands, and the socket's state. */
  datatype Public = Public(phase: L.Phase, pub: ReadyState)

  /** What was relayed, delivered and lost for one id, and the close messages sent for it. */
  datatype Book = Book(toLocal: L.Flow, toPublic: L.Flow, closesDown: nat, closesUp: nat)

  /**
   * `server` and `client` are the two ends of the control socket, `down` and `up` what is under way.
   * Of the server's manager only the tables that the relay uses appear; `registered` says whether the
   * tunnel is still in the primary index.
   */
  datatype Session = Session(
    sub: string, registered: bool, server: ReadyState, client: ReadyState, down: seq<Msg>, up: seq<Msg>,
    sockets: Sockets, upgrades: Promises, publics: map<string, Public>,
    cli: Cli, connecting: set<string>, books: map<string, Book>)

  const NoFlow := L.Flow([], [], [], [])

  function Start(sub: string): Session {
    Session(sub, true, Open, Open, [], [], Sockets(map[], map[], map[]), Promises(map[], {}, map[]), map[],
            Cli(map[], map[], [], map[]), {}, map[])
  }

  datatype Step =
    | Admit(id: string, full: bool)
    | On(id: string, e: L.Event)       // an event of one socket or of its timer
    | ServerReceives | ClientReceives
    | ServerSocket(to: ReadyState) | ClientSocket(to: ReadyState)
    | Unregister | CloseAll

  // ---------------------------------------------------------------------------
  // Each socket's part of a session
  // ---------------------------------------------------------------------------

  function Mine(ch: seq<Msg>, id: string): seq<Msg> {
    if ch == [] then []
    else if ch[0].id == id then [ch[0]] + Mine(ch[1..], id)
    else Mine(ch[1..], id)
  }

  lemma {:induction false} MineAppend(ch: seq<Msg>, m: Msg, id: string)
    ensures Mine(ch + [m], id) == if m.id == id then Mine(ch, id) + [m] else Mine(ch, id)
  {
    if ch == [] {
      assert ch + [m] == [m];
    } else {
      MineAppend(ch[1..], m, id);
      assert (ch + [m])[1..] == ch[1..] + [m];
    }
  }

  function LocalOf(c: Cli, id: string): Option<ReadyState> {
    if id in c.locals then Some(c.locals[id]) else None
  }

  function LinkOf(st: Session, id: string): L.Link
    requires id in st.publics && id in st.books
  {
    L.Link(st.registered, st.server, st.client, st.publics[id].phase, st.publics[id].pub,
           id in st.sockets.open, id in st.upgrades.pending, id in st.connecting, id in st.cli.connections,
           LocalOf(st.cli, id), Mine(st.down, id), Mine(st.up, id),
           st.books[id].toLocal, st.books[id].toPublic, st.books[id].closesDown, st.books[id].closesUp)
  }

  // ---------------------------------------------------------------------------
  // Steps
  // ---------------------------------------------------------------------------

  /** Events that name one socket. */
  predicate OfOne(e: L.Event) {
    e.UpgradeTimeout? || e.Continue? || e.PublicMessage? || e.PublicClosing? || e.PublicGone?
    || e.LocalOpens? || e.LocalFails? || e.LocalMessage? || e.LocalClosing? || e.LocalGone?
  }

  predicate CanStep(st: Session, step: Step) {
    match step
    case Admit(id, _) =>
      && st.registered && OwnedBy(id, st.sub) && id !in st.publics && id !in st.books && id !in st.sockets.open
      && id !in st.upgrades.log && id !in st.connecting && id !in st.cli.locals && id !in st.cli.delivered
      && Mine(st.down, id) == [] && Mine(st.up, id) == []
    case On(id, e) => id in st.publics && id in st.books && OfOne(e) && L.CanTake(LinkOf(st, id), e)
    case ServerReceives => st.up != [] && st.server in {Open, Closing}
    case ClientReceives => st.down != [] && st.client in {Open, Closing}
    case ServerSocket(to) => Rank(to) >= Rank(st.server)
    case ClientSocket(to) => Rank(to) >= Rank(st.client)
    case _ => true
  }

  function Next(st: Session, step: Step): Session
    requires CanStep(st, step)
  {
    match step
    case Admit(id, full) => Admitted(st, id, full)
    case On(id, e) => Happens(st, id, e)
    case ServerReceives => AtServer(st.(up := st.up[1..]), st.up[0])
    case ClientReceives => AtClient(st.(down := st.down[1..]), st.down[0])
    case ServerSocket(to) => st.(server := to)
    case ClientSocket(to) => st.(client := to)
    case Unregister => Unregistered(st)
    case CloseAll => st.(cli := CloseAllLocals(st.cli))
  }

  function Tell(st: Session, m: Msg): Session {
    if st.server == Open then st.(down := st.down + [m]) else st
  }

  function WithBook(st: Session, id: string, b: Book): Session {
    st.(books := st.books[id := b])
  }

  function Admitted(st: Session, id: string, full: bool): Session {
    var p := if full then st.upgrades.(log := st.upgrades.log[id := [Overloaded]]) else Await(st.upgrades, id);
    Tell(WithBook(st.(sockets := AddSocket(st.sockets, id, st.sub), upgrades := p,
                      publics := st.publics[id := Public(if full then L.Failed else L.Waiting, Open)]),
                  id, Book(NoFlow, NoFlow, 0, 0)),
         MUpgrade(id))
  }

  function WithPublic(st: Session, id: string, phase: L.Phase, pub: ReadyState): Session {
    st.(publics := st.publics[id := Public(phase, pub)])
  }

  function Dropped(st: Session, id: string): Session {
    st.(sockets := DropSocket(st.sockets, id))
  }

  function Happens(st: Session, id: string, e: L.Event): Session
    requires id in st.publics && id in st.books && OfOne(e) && L.CanTake(LinkOf(st, id), e)
  {
    var s := st.publics[id];
    match e
    case UpgradeTimeout => WithPublic(st.(upgrades := Settle(st.upgrades, {id}, TimedOut)), id, L.Failed, s.pub)
    case Continue =>
      if s.phase == L.Answered(true) then WithPublic(st, id, L.Relaying, s.pub)
      else Dropped(WithPublic(st, id, L.Ended, L.AfterClose(s.pub)), id)
    case PublicMessage(p) => FromPublic(st, id, p)
    case PublicClosing => WithPublic(st, id, s.phase, L.AfterClose(s.pub))
    case PublicGone(to, code) =>
      if s.phase != L.Relaying then WithPublic(st, id, s.phase, to)
      else
        var n := Dropped(WithPublic(st, id, L.Ended, to), id);
        if st.registered && st.server == Open
        then Tell(WithBook(n, id, st.books[id].(closesDown := st.books[id].closesDown + 1)), MClose(id, code))
        else n
    case LocalOpens => Flush(st.(connecting := st.connecting - {id}), Opened(st.cli, id))
    case LocalFails => Flush(st.(connecting := st.connecting - {id}), OpenFailed(st.cli, id))
    case LocalMessage(p) => FromLocalServer(st, id, p)
    case LocalClosing => st.(cli := st.cli.(locals := CloseLocal(st.cli.locals, id)))
    case LocalGone(to, code) => LocalEnds(st, id, to, code)
  }

  /** What the CLI handler sent goes up, if its end of the control socket is open. */
  function Flush(st: Session, c: Cli): Session {
    st.(cli := c.(sent := []), up := if st.client == Open then st.up + c.sent else st.up)
  }

  function FromPublic(st: Session, id: string, p: Payload): Session
    requires id in st.books
  {
    var b := st.books[id];
    var f := b.toLocal.(relayed := b.toLocal.relayed + [p]);
    var g := if st.server == Open then f else f.(unsent := f.unsent + [p]);
    Tell(WithBook(st, id, b.(toLocal := g)), DataMsg(id, p))
  }

  function FromLocalServer(st: Session, id: string, p: Payload): Session
    requires id in st.books
  {
    var n := Flush(st, FromLocal(st.cli, id, p));
    if id !in st.cli.connections || |p.bytes| > MAX_FRAME_SIZE then n
    else
      var b := st.books[id];
      var f := b.toPublic.(relayed := b.toPublic.relayed + [p]);
      WithBook(n, id, b.(toPublic := if st.client == Open then f else f.(unsent := f.unsent + [p])))
  }

  function LocalEnds(st: Session, id: string, to: ReadyState, code: int): Session
    requires id in st.books
  {
    var n := Flush(st, LocalClosed(st.cli.(locals := st.cli.locals[id := to]), id, code));
    if id in st.cli.connections && st.client == Open
    then WithBook(n, id, st.books[id].(closesUp := st.books[id].closesUp + 1)) else n
  }

  /** The server's message handler; ids it never admitted have no effect. */
  function AtServer(st: Session, m: Msg): Session {
    if m.id !in st.publics || m.id !in st.books then st
    else
      var id, s, b := m.id, st.publics[m.id], st.books[m.id];
      match m
      case MAnswer(_, accepted) =>
        if id !in st.upgrades.pending then st
        else WithPublic(st.(upgrades := Resolve(st.upgrades, id)), id, L.Answered(accepted), s.pub)
      case MData(_, _, _) =>
        if id in st.sockets.open && s.pub == Open
        then WithBook(st, id, b.(toPublic := b.toPublic.(delivered := b.toPublic.delivered + [PayloadOf(m)])))
        else WithBook(st, id, b.(toPublic := b.toPublic.(lost := b.toPublic.lost + [PayloadOf(m)])))
      case MClose(_, _) =>
        if id !in st.sockets.open then st else Dropped(WithPublic(st, id, s.phase, L.AfterClose(s.pub)), id)
      case MUpgrade(_) => st
  }

  function AtClient(st: Session, m: Msg): Session {
    match m
    case MUpgrade(id) => st.(connecting := st.connecting + {id})
    case MData(id, text, binary) =>
      var n := st.(cli := ToLocal(st.cli, id, text, binary));
      if id !in st.books then n
      else
        var b := st.books[id];
        if id in st.cli.connections && id in st.cli.locals && st.cli.locals[id] == Open
        then WithBook(n, id, b.(toLocal := b.toLocal.(delivered := b.toLocal.delivered + [PayloadOf(m)])))
        else WithBook(n, id, b.(toLocal := b.toLocal.(lost := b.toLocal.lost + [PayloadOf(m)])))
    case MClose(id, _) => st.(cli := CloseFromTunnel(st.cli, id))
    case MAnswer(_, _) => st
  }

  /** The tunnel leaves the manager: its sockets are closed, its pending upgrades rejected. */
  function Unregistered(st: Session): Session {
    st.(registered := false, sockets := CloseSockets(st.sockets, st.sub), upgrades := RejectOwned(st.upgrades, st.sub),
        publics := map id | id in st.publics ::
          var s := st.publics[id];
          Public(if id in Owned(st.upgrades, st.sub) then L.Failed else s.phase,
                 if id in SocketsOf(st.sockets, st.sub) then L.AfterClose(s.pub) else s.pub))
  }

  ghost predicate Reaches(st: Session, steps: seq<Step>, last: Session)
    decreases |steps|
  {
    if steps == [] then st == last
    else CanStep(st, steps[0]) && Reaches(Next(st, steps[0]), steps[1..], last)
  }

  // ---------------------------------------------------------------------------
  // What a step is for one socket
  // ---------------------------------------------------------------------------

  /** The event that `step` is for `id`, if it is one. */
  function Seen(st: Session, step: Step, id: string): Option<L.Event>
    requires CanStep(st, step)
  {
    match step
    case Admit(_, _) => None
    case On(x, e) => if x == id then Some(e) else None
    case ServerReceives => if st.up[0].id == id then Some(L.ServerReceives) else None
    case ClientReceives => if st.down[0].id == id then Some(L.ClientReceives) else None
    case ServerSocket(to) => Some(L.ServerSocket(to))
    case ClientSocket(to) => Some(L.ClientSocket(to))
    case Unregister => Some(L.Unregister)
    case CloseAll => Some(L.CloseAll)
  }

  /** Sockets and upgrades carry the tunnel's name. */
  ghost predicate TidyTables(sub: string, sockets: Sockets, upgrades: Promises) {
    && (forall id | id in sockets.open :: sockets.open[id].subdomain == sub)
    && (forall id | id in upgrades.pending :: OwnedBy(id, sub))
    && upgrades.pending.Keys <= upgrades.log.Keys
  }

  /** Every id has its book, and the book says what the local server got. */
  ghost predicate TidyBooks(publics: map<string, Public>, books: map<string, Book>, cli: Cli) {
    && publics.Keys == books.Keys
    && (forall id | id in books :: books[id].toLocal.delivered == DeliveredTo(cli, id))
  }

  ghost predicate Tidy(st: Session) {
    && TidyTables(st.sub, st.sockets, st.upgrades) && TidyBooks(st.publics, st.books, st.cli)
    && EntriesOpened(st.cli) && st.cli.sent == []
  }

  /** `n` is `st` after a step that is `e` for `id`, or none of its business. */
  ghost predicate Follows(st: Session, n: Session, id: string, e: Option<L.Event>)
    requires id in st.publics && id in st.books
  {
    && id in n.publics && id in n.books
    && match e
       case None => LinkOf(n, id) == LinkOf(st, id)
       case Some(ev) => L.CanTake(LinkOf(st, id), ev) && LinkOf(n, id) == L.Take(id, LinkOf(st, id), ev)
  }

  lemma AdmittedLink(st: Session, id: string, full: bool)
    requires Tidy(st) && CanStep(st, Admit(id, full))
    ensures var n := Admitted(st, id, full);
            id in n.publics && id in n.books && LinkOf(n, id) == L.Admitted(id, true, st.server, st.client, full)
  {
    MineAppend(st.down, MUpgrade(id), id);
  }

  lemma AdmittedOthers(st: Session, x: string, full: bool, id: string)
    requires Tidy(st) && CanStep(st, Admit(x, full)) && id != x && id in st.publics && id in st.books
    ensures Follows(st, Admitted(st, x, full), id, None)
  {
    MineAppend(st.down, MUpgrade(x), id);
  }

  /** The event as `id` sees it when it happens to `x`. */
  function If(x: string, id: string, e: L.Event): Option<L.Event> {
    if x == id then Some(e) else None
  }

  predicate Known(st: Session, id: string) {
    id in st.publics && id in st.books
  }

  // The building blocks of the steps, as seen by one socket.

  lemma WithPublicLink(st: Session, x: string, phase: L.Phase, pub: ReadyState, id: string)
    requires Known(st, id)
    ensures var n := WithPublic(st, x, phase, pub);
            Known(n, id) && LinkOf(n, id) == if x == id then LinkOf(st, id).(phase := phase, pub := pub)
                else LinkOf(st, id)
  {
  }

  lemma WithBookLink(st: Session, x: string, b: Book, id: string)
    requires Known(st, id)
    ensures var n := WithBook(st, x, b);
            && Known(n, id)
            && LinkOf(n, id) == if x == id
                                then LinkOf(st, id).(toLocal := b.toLocal, toPublic := b.toPublic,
                                                     closesDown := b.closesDown, closesUp := b.closesUp)
                                else LinkOf(st, id)
  {
  }

  lemma DroppedLink(st: Session, x: string, id: string)
    requires Known(st, id)
    ensures var n := Dropped(st, x);
            Known(n, id) && LinkOf(n, id) == if x == id then LinkOf(st, id).(held := false) else LinkOf(st, id)
  {
  }

  lemma TellLink(st: Session, m: Msg, id: string)
    requires Known(st, id)
    ensures var n := Tell(st, m);
            && Known(n, id)
            && LinkOf(n, id) == if m.id == id && st.server == Open
                                then LinkOf(st, id).(down := LinkOf(st, id).down + [m]) else LinkOf(st, id)
  {
    MineAppend(st.down, m, id);
  }

  /** The CLI's entry and socket of `x`, and at most one message of `x`, change. */
  lemma FlushLink(st: Session, c: Cli, x: string, id: string)
    requires Known(st, id) && (c.sent == [] || (|c.sent| == 1 && c.sent[0].id == x))
    requires forall o | o != x :: (o in c.connections <==> o in st.cli.connections)
              && LocalOf(c, o) == LocalOf(st.cli, o)
    ensures var n := Flush(st, c);
            && Known(n, id)
            && LinkOf(n, id) == if x == id
                                then LinkOf(st, id).(holding := id in c.connections, local := LocalOf(c, id),
                                                     up := if st.client == Open then LinkOf(st, id).up + c.sent
                                                         else LinkOf(st, id).up)
                                else LinkOf(st, id)
  {
    if c.sent == [] {
      assert st.up + c.sent == st.up && Mine(st.up, id) + c.sent == Mine(st.up, id);
    } else {
      assert c.sent == [c.sent[0]];
      MineAppend(st.up, c.sent[0], id);
    }
  }

  lemma UpgradeTimeoutLink(st: Session, x: string, id: string)
    requires Known(st, x) && Known(st, id) && L.CanTake(LinkOf(st, x), L.UpgradeTimeout)
    ensures Follows(st, Happens(st, x, L.UpgradeTimeout), id, If(x, id, L.UpgradeTimeout))
  {
    WithPublicLink(st.(upgrades := Settle(st.upgrades, {x}, TimedOut)), x, L.Failed, st.publics[x].pub, id);
  }

  lemma ContinueLink(st: Session, x: string, id: string)
    requires Known(st, x) && Known(st, id) && L.CanTake(LinkOf(st, x), L.Continue)
    ensures Follows(st, Happens(st, x, L.Continue), id, If(x, id, L.Continue))
  {
    var s := st.publics[x];
    WithPublicLink(st, x, L.Relaying, s.pub, id);
    WithPublicLink(st, x, L.Ended, L.AfterClose(s.pub), id);
    DroppedLink(WithPublic(st, x, L.Ended, L.AfterClose(s.pub)), x, id);
  }

  lemma PublicMessageLink(st: Session, x: string, p: Payload, id: string)
    requires Known(st, x) && Known(st, id) && L.CanTake(LinkOf(st, x), L.PublicMessage(p))
    ensures Follows(st, Happens(st, x, L.PublicMessage(p)), id, If(x, id, L.PublicMessage(p)))
  {
    var b := st.books[x];
    var f := b.toLocal.(relayed := b.toLocal.relayed + [p]);
    var c := b.(toLocal := if st.server == Open then f else f.(unsent := f.unsent + [p]));
    WithBookLink(st, x, c, id);
    TellLink(WithBook(st, x, c), DataMsg(x, p), id);
  }

  lemma PublicClosingLink(st: Session, x: string, id: string)
    requires Known(st, x) && Known(st, id)
    ensures Follows(st, Happens(st, x, L.PublicClosing), id, If(x, id, L.PublicClosing))
  {
    WithPublicLink(st, x, st.publics[x].phase, L.AfterClose(st.publics[x].pub), id);
  }

  /** A relaying socket ends: its handler has run. */
  lemma RelayingGoneLink(st: Session, x: string, to: ReadyState, code: int, id: string)
    requires Known(st, x) && Known(st, id) && L.CanTake(LinkOf(st, x), L.PublicGone(to, code))
    requires st.publics[x].phase == L.Relaying
    ensures Follows(st, Happens(st, x, L.PublicGone(to, code)), id, If(x, id, L.PublicGone(to, code)))
  {
    var n1 := WithPublic(st, x, L.Ended, to);
    WithPublicLink(st, x, L.Ended, to, id);
    DroppedLink(n1, x, id);
    if st.registered && st.server == Open {
      var n2, b := Dropped(n1, x), st.books[x].(closesDown := st.books[x].closesDown + 1);
      WithBookLink(n2, x, b, id);
      TellLink(WithBook(n2, x, b), MClose(x, code), id);
    }
  }

  lemma PublicGoneLink(st: Session, x: string, to: ReadyState, code: int, id: string)
    requires Known(st, x) && Known(st, id) && L.CanTake(LinkOf(st, x), L.PublicGone(to, code))
    ensures Follows(st, Happens(st, x, L.PublicGone(to, code)), id, If(x, id, L.PublicGone(to, code)))
  {
    if st.publics[x].phase == L.Relaying {
      RelayingGoneLink(st, x, to, code, id);
    } else {
      WithPublicLink(st, x, st.publics[x].phase, to, id);
    }
  }

  lemma AnswerFrame(c: Cli, x: string)
    requires c.sent == []
    ensures var n := Opened(c, x);
            && n.sent == [MAnswer(x, true)] && x in n.connections && LocalOf(n, x) == Some(Open)
            && forall o | o != x :: (o in n.connections <==> o in c.connections) && LocalOf(n, o) == LocalOf(c, o)
    ensures OpenFailed(c, x) == c.(sent := [MAnswer(x, false)])
  {
  }

  lemma LocalOpensLink(st: Session, x: string, id: string)
    requires Known(st, x) && Known(st, id) && L.CanTake(LinkOf(st, x), L.LocalOpens) && st.cli.sent == []
    ensures Follows(st, Happens(st, x, L.LocalOpens), id, If(x, id, L.LocalOpens))
  {
    AnswerFrame(st.cli, x);
    FlushLink(st.(connecting := st.connecting - {x}), Opened(st.cli, x), x, id);
  }

  lemma LocalFailsLink(st: Session, x: string, id: string)
    requires Known(st, x) && Known(st, id) && L.CanTake(LinkOf(st, x), L.LocalFails) && st.cli.sent == []
    ensures Follows(st, Happens(st, x, L.LocalFails), id, If(x, id, L.LocalFails))
  {
    AnswerFrame(st.cli, x);
    FlushLink(st.(connecting := st.connecting - {x}), OpenFailed(st.cli, x), x, id);
  }

  lemma FromLocalFrame(c: Cli, x: string, p: Payload)
    requires c.sent == []
    ensures var n := FromLocal(c, x, p);
            && n.sent == (if x in c.connections && |p.bytes| <= MAX_FRAME_SIZE then [DataMsg(x, p)] else [])
            && (x in n.connections <==> x in c.connections && |p.bytes| <= MAX_FRAME_SIZE)
            && LocalOf(n, x) == (if x in c.connections && |p.bytes| > MAX_FRAME_SIZE
                                 then LocalOf(c.(locals := Terminate(c.locals, x)), x) else LocalOf(c, x))
            && forall o | o != x :: (o in n.connections <==> o in c.connections) && LocalOf(n, o) == LocalOf(c, o)
  {
  }

  lemma FromLocalServerLink(st: Session, x: string, p: Payload, id: string)
    requires Known(st, x) && Known(st, id) && st.cli.sent == [] && LocalOf(st.cli, x).Some?
              && LocalOf(st.cli, x).value != Closed
    ensures var n := FromLocalServer(st, x, p);
            Known(n, id) && LinkOf(n, id) == if x == id then L.SendUp(id, LinkOf(st, id), p) else LinkOf(st, id)
  {
    var c := FromLocal(st.cli, x, p);
    FromLocalFrame(st.cli, x, p);
    FlushLink(st, c, x, id);
    if x in st.cli.connections && |p.bytes| <= MAX_FRAME_SIZE {
      var b := st.books[x];
      var f := b.toPublic.(relayed := b.toPublic.relayed + [p]);
      WithBookLink(Flush(st, c), x, b.(toPublic := if st.client == Open then f else f.(unsent := f.unsent + [p])), id);
    }
  }

  lemma LocalMessageLink(st: Session, x: string, p: Payload, id: string)
    requires Known(st, x) && Known(st, id) && L.CanTake(LinkOf(st, x), L.LocalMessage(p)) && st.cli.sent == []
    ensures Follows(st, Happens(st, x, L.LocalMessage(p)), id, If(x, id, L.LocalMessage(p)))
  {
    FromLocalServerLink(st, x, p, id);
  }

  lemma LocalClosingLink(st: Session, x: string, id: string)
    requires Known(st, x) && Known(st, id)
    ensures Follows(st, Happens(st, x, L.LocalClosing), id, If(x, id, L.LocalClosing))
  {
  }

  lemma LocalClosedFrame(c: Cli, x: string, to: ReadyState, code: int)
    requires c.sent == []
    ensures var n := LocalClosed(c.(locals := c.locals[x := to]), x, code);
            && n.sent == (if x in c.connections then [MClose(x, code)] else [])
            && x !in n.connections && LocalOf(n, x) == Some(to)
            && forall o | o != x :: (o in n.connections <==> o in c.connections) && LocalOf(n, o) == LocalOf(c, o)
  {
  }

  /** The close goes up. */
  lemma LocalEndsTold(st: Session, x: string, to: ReadyState, code: int, id: string)
    requires Known(st, x) && Known(st, id) && st.cli.sent == [] && x in st.cli.connections && st.client == Open
    ensures var n := LocalEnds(st, x, to, code);
            && Known(n, id)
            && LinkOf(n, id) == if x == id then L.LocalEnds(id, LinkOf(st, id).(local := Some(to)), code)
               else LinkOf(st, id)
  {
    var c := LocalClosed(st.cli.(locals := st.cli.locals[x := to]), x, code);
    LocalClosedFrame(st.cli, x, to, code);
    FlushLink(st, c, x, id);
    WithBookLink(Flush(st, c), x, st.books[x].(closesUp := st.books[x].closesUp + 1), id);
  }

  /** There is no entry, or no open control socket. */
  lemma LocalEndsQuietly(st: Session, x: string, to: ReadyState, code: int, id: string)
    requires Known(st, x) && Known(st, id) && st.cli.sent == [] && !(x in st.cli.connections && st.client == Open)
    ensures var n := LocalEnds(st, x, to, code);
            && Known(n, id)
            && LinkOf(n, id) == if x == id then L.LocalEnds(id, LinkOf(st, id).(local := Some(to)), code)
               else LinkOf(st, id)
  {
    LocalClosedFrame(st.cli, x, to, code);
    FlushLink(st, LocalClosed(st.cli.(locals := st.cli.locals[x := to]), x, code), x, id);
  }

  lemma LocalEndsLink(st: Session, x: string, to: ReadyState, code: int, id: string)
    requires Known(st, x) && Known(st, id) && st.cli.sent == []
    ensures var n := LocalEnds(st, x, to, code);
            && Known(n, id)
            && LinkOf(n, id) == if x == id then L.LocalEnds(id, LinkOf(st, id).(local := Some(to)), code)
               else LinkOf(st, id)
  {
    if x in st.cli.connections && st.client == Open {
      LocalEndsTold(st, x, to, code, id);
    } else {
      LocalEndsQuietly(st, x, to, code, id);
    }
  }

  lemma LocalGoneLink(st: Session, x: string, to: ReadyState, code: int, id: string)
    requires Known(st, x) && Known(st, id) && L.CanTake(LinkOf(st, x), L.LocalGone(to, code)) && st.cli.sent == []
    ensures Follows(st, Happens(st, x, L.LocalGone(to, code)), id, If(x, id, L.LocalGone(to, code)))
  {
    LocalEndsLink(st, x, to, code, id);
  }

  lemma HappensLink(st: Session, x: string, e: L.Event, id: string)
    requires Known(st, x) && Known(st, id) && OfOne(e) && L.CanTake(LinkOf(st, x), e) && st.cli.sent == []
    ensures Follows(st, Happens(st, x, e), id, If(x, id, e))
  {
    match e
    case UpgradeTimeout => UpgradeTimeoutLink(st, x, id);
    case Continue => ContinueLink(st, x, id);
    case PublicMessage(p) => PublicMessageLink(st, x, p, id);
    case PublicClosing => PublicClosingLink(st, x, id);
    case PublicGone(to, code) => PublicGoneLink(st, x, to, code, id);
    case LocalMessage(p) => LocalMessageLink(st, x, p, id);
    case LocalClosing => LocalClosingLink(st, x, id);
    case LocalGone(to, code) => LocalGoneLink(st, x, to, code, id);
    case LocalOpens => LocalOpensLink(st, x, id);
    case LocalFails => LocalFailsLink(st, x, id);
  }

  lemma MinePop(ch: seq<Msg>, id: string)
    requires ch != []
    ensures Mine(ch, id) == if ch[0].id == id then [ch[0]] + Mine(ch[1..], id) else Mine(ch[1..], id)
  {
  }

  /** The handler on a message that was taken off the channel already. */
  lemma AtServerLink(st: Session, m: Msg, id: string)
    requires Known(st, id)
    ensures var n := AtServer(st, m);
            Known(n, id) && LinkOf(n, id) == if m.id == id then L.AtServer(LinkOf(st, id), m) else LinkOf(st, id)
  {
    var x := m.id;
    if Known(st, x) {
      var s, b := st.publics[x], st.books[x];
      match m
      case MAnswer(_, accepted) =>
        WithPublicLink(st.(upgrades := Resolve(st.upgrades, x)), x, L.Answered(accepted), s.pub, id);
      case MData(_, _, _) =>
        WithBookLink(st, x, b.(toPublic := b.toPublic.(delivered := b.toPublic.delivered + [PayloadOf(m)])), id);
        WithBookLink(st, x, b.(toPublic := b.toPublic.(lost := b.toPublic.lost + [PayloadOf(m)])), id);
      case MClose(_, _) =>
        WithPublicLink(st, x, s.phase, L.AfterClose(s.pub), id);
        DroppedLink(WithPublic(st, x, s.phase, L.AfterClose(s.pub)), x, id);
      case MUpgrade(_) =>
    }
  }

  lemma ToLocalLink(st: Session, x: string, text: string, binary: bool, id: string)
    requires Known(st, id) && EntriesOpened(st.cli)
    ensures var n := st.(cli := ToLocal(st.cli, x, text, binary)); Known(n, id) && LinkOf(n, id) == LinkOf(st, id)
  {
  }

  lemma CloseFromTunnelLink(st: Session, x: string, id: string)
    requires Known(st, id) && EntriesOpened(st.cli)
    ensures var n := st.(cli := CloseFromTunnel(st.cli, x));
            && Known(n, id)
            && LinkOf(n, id) == if x == id && x in st.cli.connections
                                then LinkOf(st, id).(holding := false, local := L.CloseIt(LocalOf(st.cli, id)))
                                else LinkOf(st, id)
  {
  }

  lemma AtClientLink(st: Session, m: Msg, id: string)
    requires Known(st, id) && EntriesOpened(st.cli)
    ensures var n := AtClient(st, m);
            Known(n, id) && LinkOf(n, id) == if m.id == id then L.AtClient(LinkOf(st, id), m) else LinkOf(st, id)
  {
    match m
    case MData(x, text, binary) =>
      var n := st.(cli := ToLocal(st.cli, x, text, binary));
      ToLocalLink(st, x, text, binary, id);
      if x in st.books {
        var b := st.books[x];
        WithBookLink(n, x, b.(toLocal := b.toLocal.(delivered := b.toLocal.delivered + [PayloadOf(m)])), id);
        WithBookLink(n, x, b.(toLocal := b.toLocal.(lost := b.toLocal.lost + [PayloadOf(m)])), id);
      }
    case MClose(x, _) => CloseFromTunnelLink(st, x, id);
    case _ =>
  }

  lemma ServerReceivesLink(st: Session, id: string)
    requires Known(st, id) && st.up != [] && st.server in {Open, Closing}
    ensures Follows(st, AtServer(st.(up := st.up[1..]), st.up[0]), id, If(st.up[0].id, id, L.ServerReceives))
  {
    MinePop(st.up, id);
    AtServerLink(st.(up := st.up[1..]), st.up[0], id);
  }

  lemma ClientReceivesLink(st: Session, id: string)
    requires Known(st, id) && EntriesOpened(st.cli) && st.down != [] && st.client in {Open, Closing}
    ensures Follows(st, AtClient(st.(down := st.down[1..]), st.down[0]), id, If(st.down[0].id, id, L.ClientReceives))
  {
    MinePop(st.down, id);
    AtClientLink(st.(down := st.down[1..]), st.down[0], id);
  }

  lemma UnregisteredLink(st: Session, id: string)
    requires Tidy(st) && Known(st, id)
    ensures Follows(st, Unregistered(st), id, Some(L.Unregister))
  {
  }

  lemma CloseAllLink(st: Session, id: string)
    requires EntriesOpened(st.cli) && Known(st, id)
    ensures Follows(st, st.(cli := CloseAllLocals(st.cli)), id, Some(L.CloseAll))
  {
  }

  /** Every step of the session is, for every socket in it, one event of its machine or none. */
  lemma StepFollows(st: Session, step: Step, id: string)
    requires Tidy(st) && CanStep(st, step) && Known(st, id)
    ensures Follows(st, Next(st, step), id, Seen(st, step, id))
  {
    match step
    case Admit(x, full) => AdmittedOthers(st, x, full, id);
    case On(x, e) => HappensLink(st, x, e, id);
    case ServerReceives => ServerReceivesLink(st, id);
    case ClientReceives => ClientReceivesLink(st, id);
    case Unregister => UnregisteredLink(st, id);
    case CloseAll => CloseAllLink(st, id);
    case _ =>
  }

  // ---------------------------------------------------------------------------
  // Every step leaves the session tidy
  // ---------------------------------------------------------------------------

  lemma TablesTidy(sub: string, sockets: Sockets, upgrades: Promises, id: string, o: Outcome)
    requires TidyTables(sub, sockets, upgrades)
    ensures TidyTables(sub, DropSocket(sockets, id), upgrades) && TidyTables(sub, CloseSockets(sockets, sub), upgrades)
    ensures TidyTables(sub, sockets, Settle(upgrades, {id}, o)) && TidyTables(sub, sockets, RejectOwned(upgrades, sub))
  {
  }

  lemma AddedTablesTidy(sub: string, sockets: Sockets, upgrades: Promises, id: string)
    requires TidyTables(sub, sockets, upgrades)
    ensures OwnedBy(id, sub) ==> TidyTables(sub, AddSocket(sockets, id, sub), Await(upgrades, id))
    ensures TidyTables(sub, AddSocket(sockets, id, sub), upgrades.(log := upgrades.log[id := [Overloaded]]))
  {
  }

  lemma AdmittedTidy(st: Session, id: string, full: bool)
    requires Tidy(st) && CanStep(st, Admit(id, full))
    ensures Tidy(Admitted(st, id, full))
  {
    AddedTablesTidy(st.sub, st.sockets, st.upgrades, id);
  }

  lemma WithPublicTidy(st: Session, id: string, phase: L.Phase, pub: ReadyState)
    requires Tidy(st) && id in st.publics
    ensures Tidy(WithPublic(st, id, phase, pub))
  {
  }

  lemma WithBookTidy(st: Session, id: string, b: Book)
    requires Tidy(st) && id in st.books && b.toLocal.delivered == st.books[id].toLocal.delivered
    ensures Tidy(WithBook(st, id, b))
  {
  }

  lemma DroppedTidy(st: Session, id: string)
    requires Tidy(st)
    ensures Tidy(Dropped(st, id))
  {
    TablesTidy(st.sub, st.sockets, st.upgrades, id, TimedOut);
  }

  lemma SettledTidy(st: Session, id: string, o: Outcome)
    requires Tidy(st)
    ensures Tidy(st.(upgrades := Settle(st.upgrades, {id}, o)))
  {
    TablesTidy(st.sub, st.sockets, st.upgrades, id, o);
  }

  /** A change of the CLI that delivers nothing. */
  lemma FlushTidy(st: Session, c: Cli)
    requires Tidy(st) && EntriesOpened(c) && c.delivered == st.cli.delivered
    ensures Tidy(Flush(st, c))
  {
    assert forall id :: DeliveredTo(c, id) == DeliveredTo(st.cli, id);
  }

  lemma ServerEventTidy(st: Session, id: string, e: L.Event)
    requires Tidy(st) && Known(st, id) && OfOne(e) && L.CanTake(LinkOf(st, id), e)
    requires e.UpgradeTimeout? || e.Continue? || e.PublicClosing?
    ensures Tidy(Happens(st, id, e))
  {
    var s := st.publics[id];
    match e
    case UpgradeTimeout =>
      SettledTidy(st, id, TimedOut);
      WithPublicTidy(st.(upgrades := Settle(st.upgrades, {id}, TimedOut)), id, L.Failed, s.pub);
    case Continue =>
      WithPublicTidy(st, id, L.Relaying, s.pub);
      WithPublicTidy(st, id, L.Ended, L.AfterClose(s.pub));
      DroppedTidy(WithPublic(st, id, L.Ended, L.AfterClose(s.pub)), id);
    case PublicClosing => WithPublicTidy(st, id, s.phase, L.AfterClose(s.pub));
  }

  lemma PublicGoneTidy(st: Session, id: string, to: ReadyState, code: int)
    requires Tidy(st) && Known(st, id) && L.CanTake(LinkOf(st, id), L.PublicGone(to, code))
    ensures Tidy(Happens(st, id, L.PublicGone(to, code)))
  {
    WithPublicTidy(st, id, st.publics[id].phase, to);
    WithPublicTidy(st, id, L.Ended, to);
    var n := Dropped(WithPublic(st, id, L.Ended, to), id);
    DroppedTidy(WithPublic(st, id, L.Ended, to), id);
    WithBookTidy(n, id, st.books[id].(closesDown := st.books[id].closesDown + 1));
  }

  lemma FromPublicTidy(st: Session, id: string, p: Payload)
    requires Tidy(st) && id in st.books
    ensures Tidy(FromPublic(st, id, p))
  {
    var b := st.books[id];
    var f := b.toLocal.(relayed := b.toLocal.relayed + [p]);
    WithBookTidy(st, id, b.(toLocal := if st.server == Open then f else f.(unsent := f.unsent + [p])));
  }

  lemma FromLocalServerTidy(st: Session, id: string, p: Payload)
    requires Tidy(st) && id in st.books
    ensures Tidy(FromLocalServer(st, id, p))
  {
    FlushTidy(st, FromLocal(st.cli, id, p));
    var b := st.books[id];
    var f := b.toPublic.(relayed := b.toPublic.relayed + [p]);
    WithBookTidy(Flush(st, FromLocal(st.cli, id, p)), id,
                 b.(toPublic := if st.client == Open then f else f.(unsent := f.unsent + [p])));
  }

  lemma LocalClosedEntries(c: Cli, id: string, to: ReadyState, code: int)
    requires EntriesOpened(c)
    ensures var n := LocalClosed(c.(locals := c.locals[id := to]), id, code);
            EntriesOpened(n) && n.delivered == c.delivered
  {
  }

  lemma LocalEndsTidy(st: Session, id: string, to: ReadyState, code: int)
    requires Tidy(st) && id in st.books
    ensures Tidy(LocalEnds(st, id, to, code))
  {
    var c := LocalClosed(st.cli.(locals := st.cli.locals[id := to]), id, code);
    LocalClosedEntries(st.cli, id, to, code);
    FlushTidy(st, c);
    if id in st.cli.connections && st.client == Open {
      WithBookTidy(Flush(st, c), id, st.books[id].(closesUp := st.books[id].closesUp + 1));
    }
  }

  lemma ClientEventTidy(st: Session, id: string, e: L.Event)
    requires Tidy(st) && Known(st, id) && OfOne(e) && L.CanTake(LinkOf(st, id), e)
    requires e.LocalOpens? || e.LocalFails? || e.LocalClosing?
    ensures Tidy(Happens(st, id, e))
  {
    match e
    case LocalOpens => FlushTidy(st.(connecting := st.connecting - {id}), Opened(st.cli, id));
    case LocalFails => FlushTidy(st.(connecting := st.connecting - {id}), OpenFailed(st.cli, id));
    case LocalClosing => assert forall x ::
        DeliveredTo(st.cli.(locals := CloseLocal(st.cli.locals, id)), x) == DeliveredTo(st.cli, x);
  }

  lemma AtServerTidy(st: Session, m: Msg)
    requires Tidy(st)
    ensures Tidy(AtServer(st, m))
  {
    if Known(st, m.id) {
      var s, b := st.publics[m.id], st.books[m.id];
      match m
      case MAnswer(id, accepted) =>
        SettledTidy(st, id, Resolved);
        WithPublicTidy(st.(upgrades := Resolve(st.upgrades, id)), id, L.Answered(accepted), s.pub);
      case MData(id, _, _) =>
        WithBookTidy(st, id, b.(toPublic := b.toPublic.(delivered := b.toPublic.delivered + [PayloadOf(m)])));
        WithBookTidy(st, id, b.(toPublic := b.toPublic.(lost := b.toPublic.lost + [PayloadOf(m)])));
      case MClose(id, _) =>
        WithPublicTidy(st, id, s.phase, L.AfterClose(s.pub));
        DroppedTidy(WithPublic(st, id, s.phase, L.AfterClose(s.pub)), id);
      case MUpgrade(_) =>
    }
  }

  lemma DeliveredTidy(st: Session, m: Msg)
    requires Tidy(st) && m.MData?
    ensures Tidy(AtClient(st, m))
  {
    var c := ToLocal(st.cli, m.id, m.text, m.binary);
    if m.id in st.cli.connections && st.cli.locals[m.id] == Open {
      assert DeliveredTo(c, m.id) == DeliveredTo(st.cli, m.id) + [PayloadOf(m)];
      assert forall x | x != m.id :: DeliveredTo(c, x) == DeliveredTo(st.cli, x);
    } else {
      assert c == st.cli;
    }
  }

  lemma AtClientTidy(st: Session, m: Msg)
    requires Tidy(st)
    ensures Tidy(AtClient(st, m))
  {
    match m
    case MData(_, _, _) => DeliveredTidy(st, m);
    case MClose(id, _) =>
      assert forall x :: DeliveredTo(CloseFromTunnel(st.cli, id), x) == DeliveredTo(st.cli, x);
    case _ =>
  }

  lemma HappensTidy(st: Session, id: string, e: L.Event)
    requires Tidy(st) && Known(st, id) && OfOne(e) && L.CanTake(LinkOf(st, id), e)
    ensures Tidy(Happens(st, id, e))
  {
    match e
    case PublicMessage(p) => FromPublicTidy(st, id, p);
    case PublicGone(to, code) => PublicGoneTidy(st, id, to, code);
    case LocalMessage(p) => FromLocalServerTidy(st, id, p);
    case LocalGone(to, code) => LocalEndsTidy(st, id, to, code);
    case LocalOpens => ClientEventTidy(st, id, e);
    case LocalFails => ClientEventTidy(st, id, e);
    case LocalClosing => ClientEventTidy(st, id, e);
    case _ => ServerEventTidy(st, id, e);
  }

  lemma StepTidy(st: Session, step: Step)
    requires Tidy(st) && CanStep(st, step)
    ensures Tidy(Next(st, step))
  {
    match step
    case Admit(id, full) => AdmittedTidy(st, id, full);
    case On(id, e) => HappensTidy(st, id, e);
    case ServerReceives => AtServerTidy(st.(up := st.up[1..]), st.up[0]);
    case ClientReceives => AtClientTidy(st.(down := st.down[1..]), st.down[0]);
    case Unregister => TablesTidy(st.sub, st.sockets, st.upgrades, "", TimedOut);
    case CloseAll =>
    case _ =>
  }

  // ---------------------------------------------------------------------------
  // Runs of a session
  // ---------------------------------------------------------------------------

  ghost predicate Good(st: Session) {
    && Tidy(st) && st.server != Connecting && st.client != Connecting
    && forall id | id in st.publics :: Known(st, id) && L.LinkOk(LinkOf(st, id))
  }

  /** Events and messages leave the set of sockets and the control socket alone. */
  predicate SameFrame(st: Session, n: Session) {
    n.publics.Keys == st.publics.Keys && n.server == st.server && n.client == st.client
  }

  lemma ServerEventFrame(st: Session, id: string, e: L.Event)
    requires Known(st, id) && OfOne(e) && L.CanTake(LinkOf(st, id), e)
    requires e.UpgradeTimeout? || e.Continue? || e.PublicClosing? || e.PublicGone? || e.PublicMessage?
    ensures SameFrame(st, Happens(st, id, e))
  {
    match e
    case UpgradeTimeout =>
    case Continue =>
    case PublicClosing =>
    case PublicGone(_, _) =>
    case PublicMessage(_) =>
  }

  lemma ClientEventFrame(st: Session, id: string, e: L.Event)
    requires Known(st, id) && OfOne(e) && L.CanTake(LinkOf(st, id), e)
    requires e.LocalOpens? || e.LocalFails? || e.LocalMessage? || e.LocalClosing? || e.LocalGone?
    ensures SameFrame(st, Happens(st, id, e))
  {
  }

  lemma HappensFrame(st: Session, id: string, e: L.Event)
    requires Known(st, id) && OfOne(e) && L.CanTake(LinkOf(st, id), e)
    ensures SameFrame(st, Happens(st, id, e))
  {
    if e.LocalOpens? || e.LocalFails? || e.LocalMessage? || e.LocalClosing? || e.LocalGone? {
      ClientEventFrame(st, id, e);
    } else {
      ServerEventFrame(st, id, e);
    }
  }

  lemma HandlersFrame(st: Session, m: Msg)
    ensures SameFrame(st, AtServer(st, m)) && SameFrame(st, AtClient(st, m))
  {
  }

  lemma StepFrame(st: Session, step: Step)
    requires CanStep(st, step) && st.server != Connecting && st.client != Connecting
    ensures var n := Next(st, step);
            && n.server != Connecting && n.client != Connecting
            && n.publics.Keys == st.publics.Keys + if step.Admit? then {step.id} else {}
  {
    match step
    case On(id, e) => HappensFrame(st, id, e);
    case ServerReceives => HandlersFrame(st.(up := st.up[1..]), st.up[0]);
    case ClientReceives => HandlersFrame(st.(down := st.down[1..]), st.down[0]);
    case _ =>
  }

  lemma StepGood(st: Session, step: Step)
    requires Good(st) && CanStep(st, step)
    ensures Good(Next(st, step))
  {
    var n := Next(st, step);
    StepTidy(st, step);
    StepFrame(st, step);
    forall id | id in n.publics ensures Known(n, id) && L.LinkOk(LinkOf(n, id)) {
      if step.Admit? && step.id == id {
        AdmittedLink(st, id, step.full);
        L.AdmittedOk(id, true, st.server, st.client, step.full);
      } else {
        StepLinkOk(st, step, id);
      }
    }
  }

  lemma StepLinkOk(st: Session, step: Step, id: string)
    requires Tidy(st) && CanStep(st, step) && Known(st, id) && L.LinkOk(LinkOf(st, id))
    ensures var n := Next(st, step); Known(n, id) && L.LinkOk(LinkOf(n, id))
  {
    StepFollows(st, step, id);
    var e := Seen(st, step, id);
    if e.Some? {
      L.TakeOk(id, LinkOf(st, id), e.value);
    }
  }

  lemma {:induction false} RunGood(st: Session, steps: seq<Step>, last: Session)
    requires Good(st) && Reaches(st, steps, last)
    ensures Good(last)
    decreases |steps|
  {
    if steps != [] {
      StepGood(st, steps[0]);
      RunGood(Next(st, steps[0]), steps[1..], last);
    }
  }

  /**
   * For every socket of every run: what reached the local server and what reached the public client is
   * a prefix of what was relayed for that socket, byte for byte and kind for kind; and while the way is
   * open, the rest is exactly what is under way on the shared channel.
   */
  lemma MessagesArriveInOrder(sub: string, steps: seq<Step>, st: Session, id: string)
    requires Reaches(Start(sub), steps, st) && id in st.publics
    ensures id in st.books && DeliveredTo(st.cli, id) == st.books[id].toLocal.delivered
    ensures st.books[id].toLocal.delivered <= st.books[id].toLocal.relayed
    ensures st.books[id].toPublic.delivered <= st.books[id].toPublic.relayed
    ensures st.server == Open && id in st.cli.connections && LocalOf(st.cli, id) == Some(Open) ==>
              st.books[id].toLocal.relayed == st.books[id].toLocal.delivered + L.InFlight(Mine(st.down, id))
    ensures st.client == Open && id in st.sockets.open && st.publics[id].pub == Open ==>
              st.books[id].toPublic.relayed == st.books[id].toPublic.delivered + L.InFlight(Mine(st.up, id))
  {
    RunGood(Start(sub), steps, st);
    L.DeliveredInOrder(LinkOf(st, id));
  }

  /** At most one close message per direction is ever sent for a socket, and it ends the sender's entry. */
  lemma ClosesAreSentOnce(sub: string, steps: seq<Step>, st: Session, id: string)
    requires Reaches(Start(sub), steps, st) && id in st.publics
    ensures id in st.books && st.books[id].closesDown <= 1 && st.books[id].closesUp <= 1
    ensures st.books[id].closesDown == 1 ==> id !in st.sockets.open
    ensures st.books[id].closesUp == 1 ==> id !in st.cli.connections
  {
    RunGood(Start(sub), steps, st);
  }

  /** Neither side holds the id. */
  predicate Forgotten(st: Session, id: string) {
    Known(st, id) && id !in st.sockets.open && id !in st.cli.connections && id in st.cli.locals
  }

  /** Once the message of a close, from either side, has drained, neither side holds the id ... */
  lemma DrainedIsForgotten(sub: string, steps: seq<Step>, st: Session, id: string)
    requires Reaches(Start(sub), steps, st) && Known(st, id)
    requires (st.books[id].closesDown == 1 && Mine(st.down, id) == [])
              || (st.books[id].closesUp == 1 && Mine(st.up, id) == [])
    ensures Forgotten(st, id)
  {
    RunGood(Start(sub), steps, st);
    L.DrainedMeansNobody(LinkOf(st, id));
  }

  /** ... and nothing that happens later brings it back or delivers another message for it. */
  lemma {:induction false} ForgottenForGood(st: Session, steps: seq<Step>, last: Session, id: string)
    requires Good(st) && Forgotten(st, id) && Reaches(st, steps, last)
    ensures Forgotten(last, id)
    ensures last.books[id].toLocal.delivered == st.books[id].toLocal.delivered
    ensures last.books[id].toPublic.delivered == st.books[id].toPublic.delivered
    decreases |steps|
  {
    if steps != [] {
      StepGood(st, steps[0]);
      ForgottenStep(st, steps[0], id);
      ForgottenForGood(Next(st, steps[0]), steps[1..], last, id);
    }
  }

  lemma ForgottenStep(st: Session, step: Step, id: string)
    requires Good(st) && CanStep(st, step) && Forgotten(st, id)
    ensures var n := Next(st, step);
            && Forgotten(n, id)
            && n.books[id].toLocal.delivered == st.books[id].toLocal.delivered
            && n.books[id].toPublic.delivered == st.books[id].toPublic.delivered
  {
    StepFollows(st, step, id);
    var e := Seen(st, step, id);
    if e.Some? {
      L.NobodyForGood(id, LinkOf(st, id), e.value);
      assert L.Nobody(LinkOf(Next(st, step), id));
    }
    assert L.Nobody(LinkOf(Next(st, step), id));
  }

  /** No close is ever sent for an upgrade that failed or timed out, whatever the CLI holds. */
  lemma {:induction false} FailedUpgradeIsNeverClosed(st: Session, steps: seq<Step>, last: Session, id: string)
    requires Good(st) && Known(st, id) && st.publics[id].phase in {L.Failed, L.Ended} && Reaches(st, steps, last)
    ensures Known(last, id) && last.books[id].closesDown == st.books[id].closesDown
    decreases |steps|
  {
    if steps != [] {
      var n := Next(st, steps[0]);
      StepGood(st, steps[0]);
      StepFollows(st, steps[0], id);
      if Seen(st, steps[0], id).Some? {
        L.FailedUpgradeIsNotAnnounced(id, LinkOf(st, id), Seen(st, steps[0], id).value);
      }
      assert L.GivenUp(LinkOf(n, id)) && LinkOf(n, id).closesDown == LinkOf(st, id).closesDown;
      FailedUpgradeIsNeverClosed(n, steps[1..], last, id);
    }
  }

  // ---------------------------------------------------------------------------
  // Ends that are not announced
  // ---------------------------------------------------------------------------

  ghost predicate UnnoticedIn(st: Session, id: string) {
    Known(st, id) && L.Unnoticed(LinkOf(st, id))
  }

  ghost predicate NoticedIn(st: Session, id: string) {
    Known(st, id) && L.Noticed(LinkOf(st, id))
  }

  /** A public socket that closes before the CLI's answer: no listener runs and nothing is sent. */
  lemma EarlyCloseIsNotNoticed(st: Session, id: string, code: int)
    requires Good(st) && CanStep(st, On(id, L.PublicGone(Closed, code)))
    requires id in st.sockets.open && st.publics[id].phase == L.Waiting
    ensures var n := Next(st, On(id, L.PublicGone(Closed, code)));
            UnnoticedIn(n, id) && n.down == st.down && n.sockets == st.sockets
  {
    StepFollows(st, On(id, L.PublicGone(Closed, code)), id);
    L.EarlyCloseIsNotNoticed(id, LinkOf(st, id), code);
  }

  /** Whether the step tells the server that the public side of `id` is gone. */
  predicate Notices(st: Session, step: Step, id: string)
    requires CanStep(st, step) && Known(st, id)
  {
    match step
    case Unregister => true
    case On(x, e) => x == id && e.UpgradeTimeout?
    case ServerReceives =>
      var m := st.up[0];
      m.id == id && (m.MClose? || (m.MAnswer? && !m.accepted && id in st.upgrades.pending))
    case _ => false
  }

  ghost predicate EverNotices(st: Session, steps: seq<Step>, id: string)
    decreases |steps|
  {
    steps != [] && CanStep(st, steps[0]) && Known(st, id)
    && (Notices(st, steps[0], id) || EverNotices(Next(st, steps[0]), steps[1..], id))
  }

  lemma FirstOfMine(ch: seq<Msg>, id: string)
    requires ch != [] && ch[0].id == id
    ensures Mine(ch, id) != [] && Mine(ch, id)[0] == ch[0]
  {
  }

  lemma NoticesIsLink(st: Session, step: Step, id: string)
    requires CanStep(st, step) && Known(st, id)
    ensures var e := Seen(st, step, id);
            if e.None? then !Notices(st, step, id)
            else L.CanTake(LinkOf(st, id), e.value) ==>
                   (Notices(st, step, id) <==> L.Notices(LinkOf(st, id), e.value))
  {
    if step.ServerReceives? && st.up[0].id == id {
      FirstOfMine(st.up, id);
    }
  }

  lemma UnnoticedStepIff(st: Session, step: Step, id: string)
    requires Good(st) && (UnnoticedIn(st, id) || NoticedIn(st, id)) && CanStep(st, step)
    ensures UnnoticedIn(st, id) && !Notices(st, step, id) ==> UnnoticedIn(Next(st, step), id)
    ensures NoticedIn(st, id) || Notices(st, step, id) ==> NoticedIn(Next(st, step), id)
  {
    StepFollows(st, step, id);
    NoticesIsLink(st, step, id);
    var e := Seen(st, step, id);
    if e.Some? {
      L.UnnoticedStaysIff(id, LinkOf(st, id), e.value);
    }
  }

  lemma {:induction false} NoticedForGood(st: Session, steps: seq<Step>, last: Session, id: string)
    requires Good(st) && NoticedIn(st, id) && Reaches(st, steps, last)
    ensures NoticedIn(last, id)
    decreases |steps|
  {
    if steps != [] {
      StepGood(st, steps[0]);
      UnnoticedStepIff(st, steps[0], id);
      NoticedForGood(Next(st, steps[0]), steps[1..], last, id);
    }
  }

  /**
   * In every continuation the server still holds the closed socket if and only if the upgrade did not fail,
   * the CLI sent no close for it and the tunnel did not go.
   */
  lemma {:induction false} UnnoticedIff(st: Session, steps: seq<Step>, last: Session, id: string)
    requires Good(st) && UnnoticedIn(st, id) && Reaches(st, steps, last)
    ensures UnnoticedIn(last, id) <==> !EverNotices(st, steps, id)
    decreases |steps|
  {
    if steps != [] {
      var n := Next(st, steps[0]);
      StepGood(st, steps[0]);
      UnnoticedStepIff(st, steps[0], id);
      if Notices(st, steps[0], id) {
        NoticedForGood(n, steps[1..], last, id);
      } else {
        UnnoticedIff(n, steps[1..], last, id);
      }
    }
  }

  ghost predicate LetGoIn(st: Session, id: string) {
    Known(st, id) && L.LetGo(LinkOf(st, id))
  }

  /** An oversize local message drops the CLI's entry; nothing is sent and the server keeps its side. */
  lemma OversizeIsNotAnnounced(st: Session, id: string, p: Payload)
    requires Good(st) && CanStep(st, On(id, L.LocalMessage(p)))
    requires id in st.cli.connections && |p.bytes| > MAX_FRAME_SIZE
    ensures var n := Next(st, On(id, L.LocalMessage(p)));
            LetGoIn(n, id) && n.up == st.up && n.sockets == st.sockets && n.publics == st.publics
  {
    FromLocalFrame(st.cli, id, p);
  }

  /** ... and no continuation brings the entry back or sends a close for it. */
  lemma {:induction false} LetGoForGood(st: Session, steps: seq<Step>, last: Session, id: string)
    requires Good(st) && LetGoIn(st, id) && Reaches(st, steps, last)
    ensures LetGoIn(last, id) && last.books[id].closesUp == st.books[id].closesUp
    decreases |steps|
  {
    if steps != [] {
      var n := Next(st, steps[0]);
      StepGood(st, steps[0]);
      StepFollows(st, steps[0], id);
      if Seen(st, steps[0], id).Some? {
        L.LetGoIsSilent(id, LinkOf(st, id), Seen(st, steps[0], id).value);
      }
      assert L.LetGo(LinkOf(n, id)) && LinkOf(n, id).closesUp == LinkOf(st, id).closesUp;
      LetGoForGood(n, steps[1..], last, id);
    }
  }
}
