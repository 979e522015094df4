/**
 One remote MCP server connection as a transition system. Every goroutine has a program
 counter; every lock, unlock, compare-and-swap and atomic load or store is one step, and
 the environment chooses which goroutine moves and what the server, the user and the clock
 answer. Reads of a field that a held lock guards are folded into a neighbouring step.
 */
module RemoteModel {
  import opened Wrappers
  import opened RemoteLog

  // ---- credentials

  /** A credential is a pointer to shared storage, so wiping one copy wipes all of them. */
  datatype Secret = Nil | At(p: nat)

  datatype TokenSet = TokenSet(access: Secret, refresh: Secret)

  /** What freshTok points to: the pointer's identity and the token whose hash it holds. */
  datatype FreshMark = FreshMark(ptr: nat, token: string)

  datatype FailureKind = TerminalAuth | Protocol

  datatype Lock = Free | HeldByRequest(t: nat) | HeldByConnect | HeldByShutdown

  datatype Cred = Cred(
    store: seq<string>,          // the bytes behind every secret ever created; "" once wiped
    items: set<nat>,             // the copies the redactor holds
    redClosed: bool,
    tracked: set<string>,        // every value the open redactor was given
    tok: Option<TokenSet>,
    retired: set<nat>,           // storages of superseded token sets
    client: Secret,              // the registered client secret
    mark: Option<FreshMark>,
    marks: nat,                  // how many marks were stored: the next pointer identity
    failure: Option<FailureKind>,
    zeroed: bool,
    lock: Lock,                  // tokMu
    log: Log)

  function Ids(s: Secret): set<nat> {
    if s.Nil? then {} else {s.p}
  }

  function SetIds(ts: TokenSet): set<nat> {
    Ids(ts.access) + Ids(ts.refresh)
  }

  function TokIds(tok: Option<TokenSet>): set<nat> {
    if tok.None? then {} else SetIds(tok.value)
  }

  predicate InStore(store: seq<string>, ids: set<nat>) {
    forall i :: i in ids ==> i < |store|
  }

  function Reveal(store: seq<string>, s: Secret): string {
    if s.At? && s.p < |store| then store[s.p] else ""
  }

  function AccessValue(c: Cred): string {
    if c.tok.None? then "" else Reveal(c.store, c.tok.value.access)
  }

  function RefreshValue(c: Cred): string {
    if c.tok.None? then "" else Reveal(c.store, c.tok.value.refresh)
  }

  /** newSecret: no storage for an empty value. */
  function Stored(c: Cred, v: string): Cred {
    if v == "" then c else c.(store := c.store + [v])
  }

  function StoredAs(c: Cred, v: string): Secret {
    if v == "" then Nil else At(|c.store|)
  }

  /** redactor.add of a new copy of v; a closed redactor wipes the copy instead. */
  function Register(c: Cred, v: string): Cred {
    if v == "" then c
    else if c.redClosed then c.(store := c.store + [""])
    else c.(store := c.store + [v], items := c.items + {|c.store|}, tracked := c.tracked + {v})
  }

  /** oauthClient.track: the redactor gets one copy, the caller works with another. */
  function Track(c: Cred, v: string): Cred {
    Stored(Register(c, v), v)
  }

  function TrackedAs(c: Cred, v: string): Secret {
    StoredAs(Register(c, v), v)
  }

  function WipeStore(store: seq<string>, ids: set<nat>): (r: seq<string>)
    ensures |r| == |store|
    ensures forall i :: 0 <= i < |r| ==> r[i] == if i in ids then "" else store[i]
  {
    seq(|store|, i requires 0 <= i < |store| => if i in ids then "" else store[i])
  }

  function Wipe(c: Cred, ids: set<nat>): Cred {
    c.(store := WipeStore(c.store, ids))
  }

  /** setFailure: a compare-and-swap from nil, so the first failure stays. */
  function Fail(c: Cred, kind: FailureKind): Cred {
    if c.failure.None? then c.(failure := Some(kind)) else c
  }

  function Note(c: Cred, e: Event): Cred {
    c.(log := Then(c.log, e))
  }

  /** A token endpoint's answer: none that can be used, or the fields of a 200 reply. */
  datatype Reply = Lost | Tokens(access: string, refresh: string, bearer: bool, scoped: bool)

  predicate Granted(r: Reply) {
    r.Tokens? && r.access != "" && r.bearer && r.scoped
  }

  predicate OutOfScope(r: Reply) {
    r.Tokens? && r.access != "" && r.bearer && !r.scoped
  }

  // ---- requests (RoundTrip, accessToken, refreshAfter401, refreshLocked, markAccepted)

  datatype Call = First(isDelete: bool) | Retry(used: string)

  /** What the caller does with a response after markAccepted. */
  datatype After = Deliver | Refuse(kind: FailureKind)

  /** refreshLocked, step by step. */
  datatype RefreshPc =
    | RStart
    | RCtx
    | RSend
    | RWait
    | RTrack(reply: Reply)
    | RTrackMore(reply: Reply, access: Secret)
    | RDecide(reply: Reply, ts: TokenSet)
    | RMark(token: string)

  /** accessToken and refreshAfter401 while they hold tokMu. */
  datatype LockedPc =
    | SeeZeroed(call: Call)
    | SeeTerminal(call: Call)
    | SeeExpiry(call: Call)
    | Compare(used: string)
    | SeeClosingLocked(used: string)
    | SeeFresh(used: string)
    | Refreshing(cause: Cause, call: Call, at: RefreshPc)
    | Terminal                       // setFailure
    | Give(call: Call)               // reveal the token and unlock
    | Quit                           // unlock with an error

  datatype ReqPc =
    | Idle
    | SeeFailure(isDelete: bool)
    | SeeClosing(isDelete: bool)
    | Enter(call: Call)              // LockCtx looks at the context
    | Await(call: Call)              // and waits for the lock or the context
    | Locked(pc: LockedPc)
    | Sent(call: Call, token: string)
    | MarkLoad(token: string, after: After)
    | MarkSwap(token: string, ptr: nat, after: After)
    | Terminate(kind: FailureKind)   // setFailure without the lock

  datatype Request = Request(
    pc: ReqPc,
    ctxDone: bool,    // the request's context has ended
    bornDone: bool)   // it had already ended when the current token call began

  datatype ReqAct =
    | Begin(isDelete: bool)
    | Cancel                        // the context ends: caller, budget or transport abort
    | Overflow                      // a body being read exceeds its cap
    | Step                          // the goroutine's next step, when it has no outside input
    | GiveUp                        // the wait for tokMu ends with the context
    | Clock(due: bool)              // whether the token is about to expire
    | TokenReply(reply: Reply)
    | NetworkError
    | Unauthorized(replayable: bool)
    | Answered(after: After)        // any other status, and what the response screen makes of it

  // ---- the consent flow and ConnectRemote

  datatype ConPc =
    | CStart
    | CRegister
    | CConsent(temps: set<nat>)      // PKCE verifier and authorization code live here
    | CTrack(temps: set<nat>, reply: Reply)
    | CTrackMore(temps: set<nat>, reply: Reply, access: Secret)
    | CDecide(temps: set<nat>, reply: Reply, ts: TokenSet)
    | CHave(ts: TokenSet)
    | CSeeClosing(ts: TokenSet)      // holds tokMu
    | CInstall(ts: TokenSet)         // holds tokMu
    | CReject(ts: TokenSet)          // holds tokMu
    | CWipe(ts: TokenSet)
    | CDialFailure
    | CDialClosing
    | CDialing
    | CDialed(c: nat)
    | CCloseOwn(c: nat)
    | CUnwind(result: Option<nat>)   // setup.Done
    | CListing(c: nat)
    | CFail(held: Option<nat>)          // r.shutdown(c)
    | CJoin(held: Option<nat>)          // sync.Once makes later callers wait for the first
    | CCloseAfter(c: nat)
    | CPublished
    | CDone

  predicate InSetup(pc: ConPc) {
    || pc.CRegister? || pc.CConsent? || pc.CTrack? || pc.CTrackMore? || pc.CDecide? || pc.CHave?
    || pc.CSeeClosing? || pc.CInstall? || pc.CReject? || pc.CWipe? || pc.CDialFailure?
    || pc.CDialClosing? || pc.CDialing? || pc.CDialed? || pc.CCloseOwn? || pc.CUnwind?
  }

  predicate ConHolds(pc: ConPc) {
    pc.CSeeClosing? || pc.CInstall? || pc.CReject?
  }

  datatype ConAct =
    | ConStep
    | Registered(secret: string, accepted: bool)
    | Temporary(value: string)       // a verifier or a code is created
    | ConsentFails
    | Exchanged(reply: Reply)
    | DialOk
    | DialFails
    | ListFails
    | Publish

  // ---- shutdown

  /**
   How r.shutdown was first entered: the argument sync.Once lets through. Manager.Shutdown may be called any number of
   times; only its first call finds a client in the handle, and ByLate is a later one, whose argument is nil.
   */
  datatype Via = ByHandle(c: Option<nat>) | ByLate | ByPending | ByFailure(c: Option<nat>)

  datatype ShutPc =
    | SIdle | SMark | SClose | SJoinClose | SJoinSetup | SJoinBg
    | SSetZeroed | SLock | SWipe | SUnlock | SRedact | SDone

  function Rank(pc: ShutPc): nat {
    match pc
    case SIdle => 0
    case SMark => 1
    case SClose => 2
    case SJoinClose => 3
    case SJoinSetup => 4
    case SJoinBg => 5
    case SSetZeroed => 6
    case SLock => 7
    case SWipe => 8
    case SUnlock => 9
    case SRedact => 10
    case SDone => 11
  }

  datatype HandlePc = HWaiting | HTaken(c: Option<nat>) | HWon | HLost(c: Option<nat>)

  datatype ShutAct =
    | ManagerDown          // Manager.Shutdown sets its flag
    | ReadPending          // and then reads which remotes still wait for consent
    | CloseHandle          // remoteHandle.shutdown, under mu
    | HandleOnce           // its call of r.shutdown
    | LateOnce             // that of another Manager.Shutdown, which finds the handle emptied
    | PendingOnce          // r.shutdown(nil) for a pending remote
    | ShutStep             // the next step of doShutdown
    | CloseSends(t: nat)   // Client.Close's session DELETE is request t, which has just begun
    | CloseReturns         // Client.Close returns in its goroutine, after its DELETE if it sent one

  datatype Life = Life(
    closing: bool,
    setup: nat,              // connect calls in flight
    bg: nat,                 // background closes in flight
    shut: ShutPc,
    via: Option<Via>,
    closers: set<nat>,      // clients being closed by background goroutines
    closeStarted: bool,
    closeReturned: bool,
    deleting: Option<nat>,   // which request is Client.Close's session DELETE
    down: bool,              // Manager.shutdown
    pending: bool,           // the remote is in Manager.pending
    sawPending: Option<bool>,
    published: bool,         // the handle is in Manager.remotes
    handleShut: HandlePc)

  // ---- the handle and its reconnects

  datatype Handle = Handle(
    rmu: Option<nat>,        // which caller holds the reconnect lock
    client: Option<nat>,
    gen: nat,
    reconnects: nat,
    closed: bool,
    dials: nat,              // calls of r.dial made by reconnect
    created: nat,             // clients 0..created exist
    shut: set<nat>)          // clients whose Close has returned

  const MAX_RESPAWNS := 3

  datatype RecPc =
    | NIdle
    | NCalled(gen: nat)                       // snapshot taken, the call failed
    | NWait(gen: nat)                         // LockCtx on rmu
    | NCtx(gen: nat)                          // from here to NUnlock the caller holds rmu
    | NRead(gen: nat)
    | NDown(gen: nat, used: nat)
    | NFailure(gen: nat, used: nat)
    | NClosing(gen: nat, used: nat)
    | NDialFailure(gen: nat, used: nat)
    | NDialClosing(gen: nat, used: nat)
    | NDialing(gen: nat, used: nat)
    | NDialed(gen: nat, used: nat, dialed: Option<nat>)
    | NDrop(client: nat)
    | NUnlock(result: Option<nat>)

  predicate HoldsRmu(pc: RecPc) {
    !pc.NIdle? && !pc.NCalled? && !pc.NWait?
  }

  datatype Reconnector = Reconnector(pc: RecPc, ctxDone: bool)

  datatype RecAct =
    | Snapshot
    | RecCancel
    | RecStep
    | RecGiveUp
    | RecDialOk
    | RecDialFails

  // ---- the whole state

  datatype State = State(
    cred: Cred,
    reqs: seq<Request>,
    con: ConPc,
    life: Life,
    handle: Handle,
    recs: seq<Reconnector>)

  datatype Action =
    | OfRequest(t: nat, req: ReqAct)
    | OfConnect(connect: ConAct)
    | OfShutdown(shutdown: ShutAct)
    | OfReconnect(t: nat, rec: RecAct)
    | OfBackground(c: nat)           // a background close of client c returns

  /** newRemote, with any number of goroutines that may use the remote later. */
  function InitState(requests: nat, reconnectors: nat): State {
    State(
      Cred([], {}, false, {}, None, {}, Nil, None, 0, None, false, Free, Begun),
      seq(requests, _ => Request(Idle, false, false)),
      CStart,
      Life(false, 0, 0, SIdle, None, {}, false, false, None, false, true, None, false, HWaiting),
      Handle(None, None, 0, 0, false, 0, 0, {}),
      seq(reconnectors, _ => Reconnector(NIdle, false)))
  }

  // ---- request steps: a goroutine's own record and the shared credentials, before and after

  datatype Moved = Moved(r: Request, c: Cred)

  function To(r: Request, pc: ReqPc, c: Cred): Option<Moved> {
    Some(Moved(r.(pc := pc), c))
  }

  /** A call of accessToken or refreshAfter401 begins. */
  function EnterCall(r: Request, call: Call, c: Cred): Option<Moved> {
    Some(Moved(r.(pc := Enter(call), bornDone := r.ctxDone), c))
  }

  function AfterPc(a: After): ReqPc {
    if a.Deliver? then Idle else Terminate(a.kind)
  }

  function ReqNext(s: State, t: nat, a: ReqAct): Option<State>
    requires t < |s.reqs|
  {
    match ReqStep(t, s.reqs[t], s.cred, s.life.closing, a)
    case None => None
    case Some(m) => Some(s.(cred := m.c, reqs := s.reqs[t := m.r]))
  }

  function ReqStep(t: nat, r: Request, c: Cred, closing: bool, a: ReqAct): Option<Moved> {
    if a.Cancel? then Some(Moved(r.(ctxDone := true), c))
    else if r.pc.Locked? then
      if c.lock != HeldByRequest(t) then None
      else
        match LockedStep(r.pc.pc, r.ctxDone, c, closing, a)
        case None => None
        case Some(l) => Some(Moved(r.(pc := l.pc), l.c))
    else if r.pc.Sent? || r.pc.MarkLoad? || r.pc.MarkSwap? || r.pc.Terminate? then AnswerStep(r, c, a)
    else EntryStep(t, r, c, closing, a)
  }

  /** From RoundTrip's first checks to the lock. */
  function EntryStep(t: nat, r: Request, c: Cred, closing: bool, a: ReqAct): Option<Moved> {
    match r.pc
    case Idle =>
      (match a
       case Begin(del) => Some(Moved(Request(SeeFailure(del), false, false), c))
       case Overflow => Some(Moved(Request(Terminate(Protocol), false, false), c))
       case _ => None)
    case SeeFailure(del) =>
      if !a.Step? then None
      else To(r, if c.failure.Some? then Idle else SeeClosing(del), c)
    case SeeClosing(del) =>
      if !a.Step? then None
      else if closing && !del then To(r, Idle, c)
      else EnterCall(r, First(del), c)
    case Enter(call) =>
      if !a.Step? then None else To(r, if r.ctxDone then Idle else Await(call), c)
    case Await(call) =>
      if a.GiveUp? && r.ctxDone then To(r, Idle, c)
      else if a.Step? && c.lock.Free? then To(r, Locked(SeeZeroed(call)), c.(lock := HeldByRequest(t)))
      else None
    case _ => None
  }

  /** From the sent request to the end of RoundTrip or to its retry. */
  function AnswerStep(r: Request, c: Cred, a: ReqAct): Option<Moved> {
    match r.pc
    case Sent(call, tok) =>
      (match a
       case NetworkError => To(r, Idle, c)
       case Unauthorized(replayable) =>
         if call.Retry? then To(r, Terminate(TerminalAuth), c)
         else if call.isDelete then To(r, Idle, c)
         else if replayable then EnterCall(r, Retry(tok), c)
         else To(r, Terminate(TerminalAuth), c)
       case Answered(after) =>
         if call.First? && call.isDelete then To(r, Idle, c)
         else To(r, MarkLoad(tok, after), Note(c, Accepted(tok)))
       case _ => None)
    case MarkLoad(tok, after) =>
      if !a.Step? then None
      else if c.mark.Some? && c.mark.value.token == tok then To(r, MarkSwap(tok, c.mark.value.ptr, after), c)
      else To(r, AfterPc(after), c)
    case MarkSwap(tok, ptr, after) =>
      if !a.Step? then None
      else if c.mark.Some? && c.mark.value.ptr == ptr then To(r, AfterPc(after), c.(mark := None))
      else To(r, AfterPc(after), c)
    case Terminate(kind) =>
      if !a.Step? then None else To(r, Idle, Fail(c, kind))
    case _ => None
  }

  /** A step of the request that holds tokMu; pc is Locked again unless it let go. */
  datatype LockedMove = LockedMove(pc: ReqPc, c: Cred)

  function Stay(pc: LockedPc, c: Cred): Option<LockedMove> {
    Some(LockedMove(Locked(pc), c))
  }

  function Leave(pc: ReqPc, c: Cred): Option<LockedMove> {
    Some(LockedMove(pc, c.(lock := Free)))
  }

  function LockedStep(pc: LockedPc, ctxDone: bool, c: Cred, closing: bool, a: ReqAct): Option<LockedMove> {
    if pc.Refreshing? then RefreshStep(pc.cause, pc.call, pc.at, ctxDone, c, a)
    else if pc.SeeExpiry? then
      if !a.Clock? then None
      else Stay(if a.due && !closing then Refreshing(Expiring, pc.call, RStart) else Give(pc.call), c)
    else if !a.Step? then None
    else
      match pc
      case SeeZeroed(call) =>
        Stay(if c.zeroed || c.tok.None? || (call.First? && AccessValue(c) == "") then Quit
             else SeeTerminal(call), c)
      case SeeTerminal(call) =>
        Stay(if c.failure.Some? then Quit
             else if call.First? then SeeExpiry(call) else Compare(call.used), c)
      case Compare(used) =>
        Stay(if AccessValue(c) != used then Give(Retry(used)) else SeeClosingLocked(used), c)
      case SeeClosingLocked(used) =>
        Stay(if closing then Quit else SeeFresh(used), c)
      case SeeFresh(used) =>
        Stay(if c.mark.Some? && c.mark.value.token == used then Terminal
             else Refreshing(Rejected(used), Retry(used), RStart), c)
      case Terminal => Stay(Quit, Fail(c, TerminalAuth))
      case Give(call) => Leave(Sent(call, AccessValue(c)), c)
      case Quit => Leave(Idle, c)
  }

  function RefreshStep(cause: Cause, call: Call, at: RefreshPc, ctxDone: bool, c: Cred, a: ReqAct): Option<LockedMove> {
    if at.RWait? then
      if !a.TokenReply? then None
      else if a.reply.Lost? then Stay(Terminal, Note(c, RefreshFailed))
      else Stay(Refreshing(cause, call, RTrack(a.reply)), c)
    else if !a.Step? then None
    else
      match at
      case RStart => Stay(if c.failure.Some? then Quit else Refreshing(cause, call, RCtx), c)
      case RCtx => Stay(if ctxDone then Quit else Refreshing(cause, call, RSend), c)
      case RSend =>
        if RefreshValue(c) == "" then Stay(Terminal, c)
        else Stay(Refreshing(cause, call, RWait), Note(c, RefreshSent(RefreshValue(c), cause)))
      case RTrack(reply) =>
        if reply.Lost? then None
        else
          Stay(Refreshing(cause, call, RTrackMore(reply, TrackedAs(c, reply.access))), Track(c, reply.access))
      case RTrackMore(reply, access) =>
        if reply.Lost? then None
        else
          var ts := TokenSet(access, TrackedAs(c, reply.refresh));
          Stay(Refreshing(cause, call, RDecide(reply, ts)), Track(c, reply.refresh))
      case RDecide(reply, ts) =>
        if c.tok.None? || reply.Lost? then None
        else if Granted(reply) then Stay(Refreshing(cause, call, RMark(reply.access)), Install(c, reply, ts))
        else Stay(Terminal, Discard(c, reply, ts))
      case RMark(token) =>
        Stay(Give(call), c.(mark := Some(FreshMark(c.marks, token)), marks := c.marks + 1))
  }

  /** A granted refresh: the old access token retires, and the old refresh token too if it was rotated. */
  function Install(c: Cred, reply: Reply, ts: TokenSet): Cred
    requires reply.Tokens? && c.tok.Some?
  {
    var prev := c.tok.value;
    var kept := if ts.refresh.Nil? then ts.(refresh := prev.refresh) else ts;
    var gone := Ids(prev.access) + if ts.refresh.Nil? then {} else Ids(prev.refresh);
    Note(c.(tok := Some(kept), retired := c.retired + gone), Minted(reply.access, reply.refresh))
  }

  /** An unusable reply is wiped; one outside the scope takes the old set with it. */
  function Discard(c: Cred, reply: Reply, ts: TokenSet): Cred {
    Note(Wipe(c, SetIds(ts) + if OutOfScope(reply) then TokIds(c.tok) else {}), RefreshFailed)
  }

  // ---- connect steps

  function ConAt(s: State, pc: ConPc): State {
    s.(con := pc)
  }

  function ConNext(s: State, a: ConAct): Option<State> {
    if InSetup(s.con) then
      if s.life.setup == 0 then None
      else if ConHolds(s.con) then
        if s.cred.lock == HeldByConnect then InstallNext(s, a) else None
      else SetupNext(s, a)
    else PublishNext(s, a)
  }

  function SetupNext(s: State, a: ConAct): Option<State> {
    var c := s.cred;
    match s.con
    case CRegister =>
      (match a
       case ConsentFails => Some(ConAt(s, CUnwind(None)))
       case Registered(v, accepted) =>
         if accepted then Some(s.(cred := Track(c, v).(client := TrackedAs(c, v)), con := CConsent({})))
         else Some(s.(cred := Wipe(Track(c, v), Ids(TrackedAs(c, v))), con := CUnwind(None)))
       case _ => None)
    case CConsent(temps) =>
      (match a
       case Temporary(v) =>
         Some(s.(cred := Register(Stored(c, v), v), con := CConsent(temps + Ids(StoredAs(c, v)))))
       case ConsentFails => Some(s.(cred := Wipe(c, temps), con := CUnwind(None)))
       case Exchanged(reply) =>
         if reply.Lost? then Some(s.(cred := Wipe(c, temps), con := CUnwind(None)))
         else Some(ConAt(s, CTrack(temps, reply)))
       case _ => None)
    case CTrack(temps, reply) =>
      if !a.ConStep? || !reply.Tokens? then None
      else Some(s.(cred := Track(c, reply.access), con := CTrackMore(temps, reply, TrackedAs(c, reply.access))))
    case CTrackMore(temps, reply, access) =>
      if !a.ConStep? || !reply.Tokens? then None
      else
        Some(s.(cred := Track(c, reply.refresh),
                con := CDecide(temps, reply, TokenSet(access, TrackedAs(c, reply.refresh)))))
    case CDecide(temps, reply, ts) =>
      if !a.ConStep? then None
      else if Granted(reply) then Some(s.(cred := Wipe(c, temps), con := CHave(ts)))
      else Some(s.(cred := Wipe(c, temps + SetIds(ts)), con := CUnwind(None)))
    case CHave(ts) =>
      if !a.ConStep? || !c.lock.Free? then None
      else Some(s.(cred := c.(lock := HeldByConnect), con := CSeeClosing(ts)))
    case CWipe(ts) =>
      if !a.ConStep? then None
      else Some(s.(cred := Wipe(c, SetIds(ts)), con := CUnwind(None)))
    case CDialFailure =>
      if !a.ConStep? then None
      else Some(ConAt(s, if c.failure.Some? then CUnwind(None) else CDialClosing))
    case CDialClosing =>
      if !a.ConStep? then None
      else Some(ConAt(s, if s.life.closing then CUnwind(None) else CDialing))
    case CDialing =>
      if a.DialOk? then
        Some(s.(con := CDialed(s.handle.created), handle := s.handle.(created := s.handle.created + 1)))
      else if a.DialFails? then Some(ConAt(s, CUnwind(None)))
      else None
    case CDialed(cl) =>
      if !a.ConStep? then None
      else Some(ConAt(s, if s.life.closing then CCloseOwn(cl) else CUnwind(Some(cl))))
    case CCloseOwn(cl) =>
      if !a.ConStep? then None
      else Some(s.(con := CUnwind(None), handle := s.handle.(shut := s.handle.shut + {cl})))
    case CUnwind(result) =>
      if !a.ConStep? || s.life.setup == 0 then None
      else Some(s.(con := if result.Some? then CListing(result.value) else CFail(None),
                   life := s.life.(setup := s.life.setup - 1)))
    case _ => None
  }

  /** The part of connect that holds tokMu. */
  function InstallNext(s: State, a: ConAct): Option<State> {
    var c := s.cred;
    if !a.ConStep? then None
    else
      match s.con
      case CSeeClosing(ts) => Some(ConAt(s, if s.life.closing then CReject(ts) else CInstall(ts)))
      case CReject(ts) => Some(s.(cred := c.(lock := Free), con := CWipe(ts)))
      case CInstall(ts) =>
        var c1 := c.(tok := Some(ts), retired := c.retired + TokIds(c.tok), lock := Free);
        Some(s.(cred := Note(c1, Installed(Reveal(c.store, ts.access), Reveal(c.store, ts.refresh))),
                con := CDialFailure))
      case _ => None
  }

  /** ConnectRemote outside connect: refusal, tool listing, publication and failure. */
  function PublishNext(s: State, a: ConAct): Option<State> {
    match s.con
    case CStart =>
      if !a.ConStep? then None
      else if s.life.closing then Some(ConAt(s, CFail(None)))
      else Some(s.(con := CRegister, life := s.life.(setup := s.life.setup + 1)))
    case CListing(cl) =>
      if a.ListFails? then Some(ConAt(s, CFail(Some(cl))))
      else if a.Publish? then
        if s.life.down then Some(ConAt(s, CFail(Some(cl))))
        else Some(s.(con := CPublished, life := s.life.(published := true),
                     handle := s.handle.(client := Some(cl))))
      else None
    case CFail(c) =>
      if !a.ConStep? then None
      else if s.life.via.None? then
        Some(s.(con := CJoin(c), life := s.life.(via := Some(ByFailure(c)), shut := SMark)))
      else Some(ConAt(s, CJoin(c)))
    case CJoin(c) =>
      if !a.ConStep? || !s.life.shut.SDone? then None
      else if c.Some? then Some(ConAt(s, CCloseAfter(c.value)))
      else Some(s.(con := CDone, life := s.life.(pending := false)))
    case CCloseAfter(cl) =>
      if !a.ConStep? then None
      else Some(s.(con := CDone, life := s.life.(pending := false),
                   handle := s.handle.(shut := s.handle.shut + {cl})))
    case CPublished =>
      if !a.ConStep? then None
      else Some(s.(con := CDone, life := s.life.(pending := false)))
    case _ => None
  }

  // ---- shutdown steps

  /** The client doShutdown was given. */
  function ShutClient(l: Life): Option<nat> {
    match l.via
    case Some(ByHandle(c)) => c
    case Some(ByFailure(c)) => c
    case _ => None
  }

  function ShutNext(s: State, a: ShutAct): Option<State> {
    var l := s.life;
    match a
    case ManagerDown => Some(s.(life := l.(down := true)))
    case ReadPending =>
      if l.down && l.sawPending.None? then Some(s.(life := l.(sawPending := Some(l.pending)))) else None
    case CloseHandle =>
      if l.down && l.published && l.handleShut.HWaiting? then
        Some(s.(life := l.(handleShut := HTaken(s.handle.client)),
                handle := s.handle.(closed := true, client := None)))
      else None
    case HandleOnce =>
      if !l.handleShut.HTaken? then None
      else if l.via.None? then
        Some(s.(life := l.(handleShut := HWon, via := Some(ByHandle(l.handleShut.c)), shut := SMark)))
      else Some(s.(life := l.(handleShut := HLost(l.handleShut.c))))
    case LateOnce =>
      if !l.handleShut.HWaiting? && l.via.None? then
        Some(s.(life := l.(via := Some(ByLate), shut := SMark)))
      else None
    case PendingOnce =>
      if l.sawPending == Some(true) && l.via.None? then
        Some(s.(life := l.(via := Some(ByPending), shut := SMark)))
      else None
    case ShutStep => DoShutdown(s)
    case CloseSends(t) =>
      if l.closeStarted && !l.closeReturned && l.deleting.None? && t < |s.reqs| && s.reqs[t].pc == SeeFailure(true) then
        Some(s.(life := l.(deleting := Some(t))))
      else None
    case CloseReturns =>
      if l.closeStarted && !l.closeReturned && ShutClient(l).Some? && DeleteEnded(s) then
        Some(s.(life := l.(closeReturned := true),
                handle := s.handle.(shut := s.handle.shut + {ShutClient(l).value})))
      else None
  }

  /** Client.Close sent no DELETE, or its request is over. */
  predicate DeleteEnded(s: State) {
    s.life.deleting.Some? ==> s.life.deleting.value < |s.reqs| && s.reqs[s.life.deleting.value].pc.Idle?
  }

  function DoShutdown(s: State): Option<State> {
    match ShutStepLife(s.life, s.cred.lock.Free?)
    case None => None
    case Some(l) => Some(s.(life := l, cred := ShutStepCred(s.life.shut, s.cred)))
  }

  /** doShutdown cannot move: it has not begun, is over, or waits for Close, a join or tokMu. */
  predicate ShutWaits(l: Life, lockFree: bool) {
    match l.shut
    case SIdle => true
    case SJoinClose => !l.closeReturned
    case SJoinSetup => l.setup != 0
    case SJoinBg => l.bg != 0
    case SLock => !lockFree
    case SDone => true
    case _ => false
  }

  function ShutAfter(pc: ShutPc): ShutPc {
    match pc
    case SIdle => SIdle
    case SMark => SClose
    case SClose => SJoinClose
    case SJoinClose => SJoinSetup
    case SJoinSetup => SJoinBg
    case SJoinBg => SSetZeroed
    case SSetZeroed => SLock
    case SLock => SWipe
    case SWipe => SUnlock
    case SUnlock => SRedact
    case SRedact => SDone
    case SDone => SDone
  }

  /** SMark sets the closing flag; SClose starts Close, which has nothing to do without a client. */
  function ShutStepLife(l: Life, lockFree: bool): Option<Life> {
    if ShutWaits(l, lockFree) then None
    else
      Some(l.(shut := ShutAfter(l.shut),
              closing := l.closing || l.shut.SMark?,
              closeStarted := l.closeStarted || (l.shut.SClose? && ShutClient(l).Some?),
              closeReturned := l.closeReturned || (l.shut.SClose? && ShutClient(l).None?)))
  }

  function ShutStepCred(shut: ShutPc, c: Cred): Cred {
    match shut
    case SSetZeroed => c.(zeroed := true)
    case SLock => c.(lock := HeldByShutdown)
    case SWipe => Wipe(c, TokIds(c.tok) + c.retired + Ids(c.client))
    case SUnlock => c.(lock := Free)
    case SRedact => Wipe(c, c.items).(items := {}, redClosed := true)
    case _ => c
  }

  // ---- reconnect steps

  function RecAt(s: State, t: nat, pc: RecPc): State
    requires t < |s.recs|
  {
    s.(recs := s.recs[t := s.recs[t].(pc := pc)])
  }

  function RecWith(s: State, t: nat, pc: RecPc, h: Handle): State
    requires t < |s.recs|
  {
    s.(recs := s.recs[t := s.recs[t].(pc := pc)], handle := h)
  }

  function RecNext(s: State, t: nat, a: RecAct): Option<State>
    requires t < |s.recs|
  {
    var r, h := s.recs[t], s.handle;
    if a.RecCancel? then Some(s.(recs := s.recs[t := r.(ctxDone := true)]))
    else if HoldsRmu(r.pc) then
      if h.rmu == Some(t) then ReconnectNext(s, t, a) else None
    else
      match r.pc
      case NIdle =>
        if !a.Snapshot? || h.client.None? then None
        else Some(s.(recs := s.recs[t := Reconnector(NCalled(h.gen), false)]))
      case NCalled(gen) =>
        if !a.RecStep? then None
        else Some(RecAt(s, t, if r.ctxDone then NIdle else NWait(gen)))
      case NWait(gen) =>
        if a.RecGiveUp? && r.ctxDone then Some(RecAt(s, t, NIdle))
        else if a.RecStep? && h.rmu.None? then Some(RecWith(s, t, NCtx(gen), h.(rmu := Some(t))))
        else None
      case _ => None
  }

  /** The caller that holds the reconnect lock. */
  function ReconnectNext(s: State, t: nat, a: RecAct): Option<State>
    requires t < |s.recs|
  {
    var r, h := s.recs[t], s.handle;
    match r.pc
    case NDialing(gen, used) =>
      if a.RecDialOk? then
        Some(RecWith(s, t, NDialed(gen, used, Some(h.created)), h.(created := h.created + 1)))
      else if a.RecDialFails? then Some(RecAt(s, t, NDialed(gen, used, None)))
      else None
    case _ => if a.RecStep? then ReconnectStep(s, t) else None
  }

  function ReconnectStep(s: State, t: nat): Option<State>
    requires t < |s.recs|
  {
    var r, h := s.recs[t], s.handle;
    match r.pc
    case NCtx(gen) => Some(RecAt(s, t, if r.ctxDone then NUnlock(None) else NRead(gen)))
    case NRead(gen) =>
      if h.closed then Some(RecAt(s, t, NUnlock(None)))
      else if h.gen != gen then Some(RecAt(s, t, NUnlock(h.client)))
      else Some(RecAt(s, t, NDown(gen, h.reconnects)))
    case NDown(gen, used) => Some(RecAt(s, t, if s.life.down then NUnlock(None) else NFailure(gen, used)))
    case NFailure(gen, used) =>
      Some(RecAt(s, t, if s.cred.failure.Some? then NUnlock(None) else NClosing(gen, used)))
    case NClosing(gen, used) =>
      if s.life.closing || used >= MAX_RESPAWNS then Some(RecAt(s, t, NUnlock(None)))
      else Some(RecWith(s, t, NDialFailure(gen, used), h.(dials := h.dials + 1)))
    case NDialFailure(gen, used) =>
      Some(RecAt(s, t, if s.cred.failure.Some? then NDialed(gen, used, None) else NDialClosing(gen, used)))
    case NDialClosing(gen, used) =>
      Some(RecAt(s, t, if s.life.closing then NDialed(gen, used, None) else NDialing(gen, used)))
    case NDialed(gen, used, c) =>
      var h1 := h.(reconnects := h.reconnects + 1);
      if c.None? then Some(RecWith(s, t, NUnlock(None), h1))
      else if h.closed then Some(RecWith(s, t, NDrop(c.value), h1))
      else
        var h2 := h1.(client := c, gen := h.gen + 1);
        var s1 := RecWith(s, t, NUnlock(c), h2);
        if h.client.None? then Some(s1)
        else Some(s1.(life := s.life.(bg := s.life.bg + 1, closers := s.life.closers + {h.client.value})))
    case NDrop(c) => Some(RecWith(s, t, NUnlock(None), h.(shut := h.shut + {c})))
    case NUnlock(result) => Some(RecWith(s, t, NIdle, h.(rmu := None)))
    case _ => None
  }

  // ---- runs

  function Next(s: State, a: Action): Option<State> {
    match a
    case OfRequest(t, r) => if t < |s.reqs| then ReqNext(s, t, r) else None
    case OfConnect(c) => ConNext(s, c)
    case OfShutdown(x) => ShutNext(s, x)
    case OfReconnect(t, r) => if t < |s.recs| then RecNext(s, t, r) else None
    case OfBackground(c) =>
      if c in s.life.closers && s.life.bg > 0 then
        Some(s.(life := s.life.(bg := s.life.bg - 1, closers := s.life.closers - {c}),
                handle := s.handle.(shut := s.handle.shut + {c})))
      else None
  }

  /** The state after a schedule; None when some step of it was not possible. */
  function Run(s: State, schedule: seq<Action>): Option<State> {
    if schedule == [] then Some(s)
    else
      match Run(s, schedule[..|schedule| - 1])
      case None => None
      case Some(mid) => Next(mid, schedule[|schedule| - 1])
  }
}
