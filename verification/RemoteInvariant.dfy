/** What every reachable state of a remote satisfies. */
module RemoteInvariant {
  import opened Wrappers
  import opened RemoteLog
  import opened RemoteModel

  // ---- locks and the order of shutdown

  predicate LocksOk(s: State) {
    && (forall t :: 0 <= t < |s.reqs| ==> (s.reqs[t].pc.Locked? <==> s.cred.lock == HeldByRequest(t)))
    && (s.cred.lock.HeldByRequest? ==> s.cred.lock.t < |s.reqs|)
    && (ConHolds(s.con) <==> s.cred.lock.HeldByConnect?)
    && (s.life.shut.SWipe? || s.life.shut.SUnlock? <==> s.cred.lock.HeldByShutdown?)
  }

  /** The counter of the request that holds tokMu. */
  function Holder(s: State): Option<LockedPc> {
    if s.cred.lock.HeldByRequest? && s.cred.lock.t < |s.reqs| then HolderPc(s.reqs[s.cred.lock.t].pc) else None
  }

  function HolderPc(pc: ReqPc): Option<LockedPc> {
    if pc.Locked? then Some(pc.pc) else None
  }

  predicate ShutOk(l: Life, con: ConPc, c: Cred) {
    && l.setup == (if InSetup(con) then 1 else 0)
    && (l.shut.SIdle? <==> l.via.None?)
    && (l.closing <==> Rank(l.shut) >= 2)
    && (Rank(l.shut) >= 4 ==> l.closeReturned)
    && (Rank(l.shut) >= 5 ==> l.setup == 0)
    && (c.zeroed <==> Rank(l.shut) >= 7)
    && (c.redClosed <==> Rank(l.shut) >= 11)
  }

  // ---- storage

  predicate InRefresh(h: Option<LockedPc>) {
    h.Some? && h.value.Refreshing?
  }

  function HolderIds(h: Option<LockedPc>): set<nat> {
    if !InRefresh(h) then {}
    else
      match h.value.at
      case RTrackMore(_, access) => Ids(access)
      case RDecide(_, ts) => SetIds(ts)
      case _ => {}
  }

  function ConTemps(pc: ConPc): set<nat> {
    match pc
    case CConsent(temps) => temps
    case CTrack(temps, _) => temps
    case CTrackMore(temps, _, _) => temps
    case CDecide(temps, _, _) => temps
    case _ => {}
  }

  function ConIds(pc: ConPc): set<nat> {
    match pc
    case CTrackMore(_, _, access) => Ids(access)
    case CDecide(_, _, ts) => SetIds(ts)
    case CHave(ts) => SetIds(ts)
    case CSeeClosing(ts) => SetIds(ts)
    case CInstall(ts) => SetIds(ts)
    case CReject(ts) => SetIds(ts)
    case CWipe(ts) => SetIds(ts)
    case _ => {}
  }

  /** Storages that the token sets, the client secret or a goroutine answer for. */
  function WorkIds(c: Cred, held: set<nat>): set<nat> {
    TokIds(c.tok) + c.retired + Ids(c.client) + held
  }

  /** Every storage is wiped, or someone who will be asked to wipe it still has it. */
  predicate StorageOk(c: Cred, held: set<nat>) {
    && InStore(c.store, WorkIds(c, held))
    && InStore(c.store, c.items)
    && WorkIds(c, held) !! c.items
    && (forall i :: 0 <= i < |c.store| && c.store[i] != "" ==> i in WorkIds(c, held) || i in c.items)
  }

  predicate AllWiped(c: Cred, ids: set<nat>) {
    forall i :: 0 <= i < |c.store| && i in ids ==> c.store[i] == ""
  }

  predicate Known(c: Cred, v: string) {
    exists i :: i in c.items && i < |c.store| && c.store[i] == v
  }

  /** Until it closes, the redactor knows every value it was given and every live credential. */
  predicate RedactorOk(c: Cred) {
    && (c.redClosed ==> c.items == {})
    && (!c.redClosed ==> RegistryOk(c))
  }

  predicate RegistryOk(c: Cred) {
    && (forall v :: v in c.tracked ==> v != "" && Known(c, v))
    && (forall i :: 0 <= i < |c.store| && c.store[i] != "" ==> c.store[i] in c.tracked)
  }

  // ---- the held token

  /** The holder found the remote open: not zeroed and with a token set. */
  predicate PastZeroed(pc: LockedPc) {
    !pc.SeeZeroed? && !pc.Terminal? && !pc.Quit?
  }

  /** The holder also saw no failure. */
  predicate PastTerminal(pc: LockedPc) {
    PastZeroed(pc) && !pc.SeeTerminal?
  }

  predicate AwaitsReply(at: RefreshPc) {
    at.RWait? || at.RTrack? || at.RTrackMore? || at.RDecide?
  }

  predicate Unanswered(h: Option<LockedPc>) {
    InRefresh(h) && AwaitsReply(h.value.at)
  }

  predicate AtTerminal(h: Option<LockedPc>) {
    h.Some? && h.value.Terminal?
  }

  predicate AtMark(h: Option<LockedPc>) {
    InRefresh(h) && h.value.at.RMark?
  }

  predicate BeforeInstall(pc: ConPc) {
    || pc.CStart? || pc.CRegister? || pc.CConsent? || pc.CTrack? || pc.CTrackMore? || pc.CDecide?
    || pc.CHave? || pc.CSeeClosing? || pc.CInstall? || pc.CReject? || pc.CWipe?
  }

  /** A reply's fields sit in the secrets made for them. */
  predicate Carries(c: Cred, reply: Reply, ts: TokenSet) {
    && reply.Tokens?
    && Reveal(c.store, ts.access) == reply.access
    && Reveal(c.store, ts.refresh) == reply.refresh
    && (ts.refresh.Nil? <==> reply.refresh == "")
  }

  predicate ConCarries(c: Cred, pc: ConPc) {
    match pc
    case CTrack(_, reply) => reply.Tokens?
    case CTrackMore(_, reply, access) => reply.Tokens? && Reveal(c.store, access) == reply.access
    case CDecide(_, reply, ts) => Carries(c, reply, ts)
    case CHave(ts) => Reveal(c.store, ts.access) != ""
    case CSeeClosing(ts) => Reveal(c.store, ts.access) != ""
    case CInstall(ts) => Reveal(c.store, ts.access) != ""
    case _ => true
  }

  predicate HolderCarries(c: Cred, pc: LockedPc) {
    match pc
    case SeeClosingLocked(used) => used == AccessValue(c)
    case SeeFresh(used) => used == AccessValue(c)
    case Refreshing(cause, _, at) =>
      && (cause.Rejected? && !at.RMark? ==> cause.used == AccessValue(c))
      && RefreshCarries(c, at)
    case _ => true
  }

  predicate RefreshCarries(c: Cred, at: RefreshPc) {
    match at
    case RTrack(reply) => reply.Tokens?
    case RTrackMore(reply, access) => reply.Tokens? && Reveal(c.store, access) == reply.access
    case RDecide(reply, ts) => Carries(c, reply, ts)
    case RMark(token) => token == AccessValue(c)
    case _ => true
  }

  /** h is the holder's counter, rank the progress of shutdown. */
  predicate TokenOk(c: Cred, h: Option<LockedPc>, rank: nat) {
    && (c.tok.None? ==> c.log == Begun)
    && (h.Some? && PastZeroed(h.value) ==> c.tok.Some? && rank <= 7)
    && (h.Some? && PastTerminal(h.value) ==> AccessValue(c) != "")
    && (c.tok.Some? && rank <= 8 ==> AccessValue(c) != "" || c.failure.Some? || AtTerminal(h))
    && (h.Some? ==> HolderCarries(c, h.value))
  }

  // ---- the history

  predicate HistoryOk(c: Cred, h: Option<LockedPc>) {
    && FailureIsFinal(c.log)
    && AcceptedWereIssued(c.log)
    && (HasFailed(c.log) ==> c.failure.Some? || AtTerminal(h))
    && (h.Some? && PastTerminal(h.value) ==> !HasFailed(c.log))
    && (InFlight(c.log) <==> Unanswered(h))
    && (AccessValue(c) != "" ==> AccessIssued(c.log, AccessValue(c)))
  }

  predicate SentWereIssued(l: Log) {
    l.Then? ==>
      && (l.last.RefreshSent? ==> RefreshIssued(l.prior, l.last.value))
      && SentWereIssued(l.prior)
  }

  predicate RotationOk(c: Cred, h: Option<LockedPc>) {
    && SentWereIssued(c.log)
    && (RefreshValue(c) != "" ==> RefreshIssued(c.log, RefreshValue(c)))
    && (AlwaysRotates(c.log) ==> NeverResent(c.log))
    && (AlwaysRotates(c.log) && RefreshValue(c) != "" && !HasFailed(c.log) && !Unanswered(h) ==>
          !WasSent(c.log, RefreshValue(c)))
  }

  // ---- the unproven mark

  /** The holder decided that a 401 may refresh. */
  predicate WillRefreshRejected(h: Option<LockedPc>) {
    InRefresh(h) && h.value.cause.Rejected? && !h.value.at.RMark?
  }

  predicate Marked(c: Cred, token: string) {
    c.mark.Some? && c.mark.value.token == token
  }

  predicate MarkOk(c: Cred, h: Option<LockedPc>) {
    && (c.mark.Some? ==> c.mark.value.ptr < c.marks)
    && (LastMint(c.log).Some? && AccessValue(c) != "" ==> LastMint(c.log).value == AccessValue(c))
    && RejectedWasAccepted(c.log)
    && (LastMint(c.log).Some? && !AtMark(h) ==>
          Marked(c, LastMint(c.log).value) || WasAccepted(c.log, LastMint(c.log).value))
    && (LastMint(c.log).Some? && WillRefreshRejected(h) ==> WasAccepted(c.log, LastMint(c.log).value))
  }

  // ---- one request, holder or not

  predicate RequestOk(c: Cred, r: Request) {
    && (r.pc.Sent? ==> r.pc.token != "" && AccessIssued(c.log, r.pc.token))
    && (r.pc.MarkLoad? || r.pc.MarkSwap? ==> WasAccepted(c.log, r.pc.token))
    && (r.pc.MarkSwap? ==>
          && r.pc.ptr < c.marks
          && (c.mark.Some? && c.mark.value.ptr == r.pc.ptr ==> c.mark.value.token == r.pc.token))
    && (r.bornDone ==> r.ctxDone && (r.pc.Idle? || r.pc.Enter?))
  }

  predicate RequestsOk(c: Cred, reqs: seq<Request>) {
    forall t :: 0 <= t < |reqs| ==> RequestOk(c, reqs[t])
  }

  // ---- all of it

  predicate SharedOk(c: Cred, h: Option<LockedPc>, rank: nat) {
    TokenOk(c, h, rank) && HistoryOk(c, h) && RotationOk(c, h) && MarkOk(c, h)
  }

  /** What is promised about the credentials while h holds tokMu and others hold rest. */
  predicate CredOk(c: Cred, h: Option<LockedPc>, rest: set<nat>, rank: nat) {
    && SharedOk(c, h, rank)
    && StorageOk(c, HolderIds(h) + rest)
    && RedactorOk(c)
    && (rank >= 9 ==> AllWiped(c, WorkIds(c, {})))
  }

  function ConHeld(con: ConPc): set<nat> {
    ConTemps(con) + ConIds(con)
  }

  predicate ConOk(c: Cred, con: ConPc) {
    && (BeforeInstall(con) ==> c.tok.None?)
    && (con.CStart? || con.CRegister? ==> c.client.Nil?)
    && ConTemps(con) !! ConIds(con)
    && ConCarries(c, con)
  }

  predicate CredInv(s: State) {
    && LocksOk(s)
    && ShutOk(s.life, s.con, s.cred)
    && CredOk(s.cred, Holder(s), ConHeld(s.con), Rank(s.life.shut))
    && ConOk(s.cred, s.con)
    && RequestsOk(s.cred, s.reqs)
  }
}
