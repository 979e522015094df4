/** Who owns each client, how often reconnect dials, and when background work can run. */
module RemoteHandleProof {
  import opened Wrappers
  import opened RemoteLog
  import opened RemoteModel

  /** The counter of the caller that holds the reconnect lock. */
  function Redialer(h: Handle, recs: seq<Reconnector>): RecPc {
    if h.rmu.Some? && h.rmu.value < |recs| then recs[h.rmu.value].pc else NIdle
  }

  predicate RmuOk(h: Handle, recs: seq<Reconnector>) {
    && (forall t :: 0 <= t < |recs| ==> (HoldsRmu(recs[t].pc) <==> h.rmu == Some(t)))
    && (h.rmu.Some? ==> h.rmu.value < |recs|)
  }

  predicate Dialling(pc: RecPc) {
    pc.NDialFailure? || pc.NDialClosing? || pc.NDialing? || pc.NDialed?
  }

  predicate Counted(pc: RecPc) {
    pc.NDown? || pc.NFailure? || pc.NClosing? || Dialling(pc)
  }

  predicate CountsOk(h: Handle, k: RecPc) {
    && h.dials == h.reconnects + (if Dialling(k) then 1 else 0)
    && h.reconnects <= MAX_RESPAWNS
    && (Counted(k) ==> k.used == h.reconnects)
    && (Dialling(k) ==> h.reconnects < MAX_RESPAWNS)
    && h.gen <= h.reconnects
  }

  // ---- who has which client

  /** The client a reconnect opened and has not given away. */
  function RecClient(k: RecPc): Option<nat> {
    match k
    case NDialed(_, _, c) => c
    case NDrop(c) => Some(c)
    case _ => None
  }

  function ConClient(con: ConPc): Option<nat> {
    match con
    case CDialed(c) => Some(c)
    case CCloseOwn(c) => Some(c)
    case CUnwind(c) => c
    case CListing(c) => Some(c)
    case CFail(c) => c
    case CJoin(c) => c
    case CCloseAfter(c) => Some(c)
    case _ => None
  }

  /** The client remoteHandle.shutdown took out of the handle and did not get to pass on. */
  function TakenClient(p: HandlePc): Option<nat> {
    if p.HTaken? || p.HLost? then p.c else None
  }

  /** Every place a client can be. */
  datatype Roles = Roles(
    created: nat,
    shut: set<nat>,           // closed
    current: Option<nat>,     // the handle's
    closers: set<nat>,        // being closed in the background
    dialed: Option<nat>,      // opened by a reconnect, not yet installed or dropped
    connect: Option<nat>,     // with ConnectRemote
    taken: Option<nat>,       // taken from the handle by its shutdown
    closing: Option<nat>)     // doShutdown's argument

  function RolesOf(l: Life, h: Handle, con: ConPc, k: RecPc): Roles {
    Roles(h.created, h.shut, h.client, l.closers, RecClient(k), ConClient(con), TakenClient(l.handleShut), ShutClient(l))
  }

  predicate Has(o: Option<nat>, c: nat) {
    o == Some(c)
  }

  predicate Below(o: Option<nat>, n: nat) {
    o.Some? ==> o.value < n
  }

  predicate Owned(r: Roles, c: nat) {
    Has(r.current, c) || c in r.closers || Has(r.dialed, c) || Has(r.connect, c) || Has(r.taken, c) || Has(r.closing, c)
  }

  /** Every client is closed or owned; closed clients, and those of different goroutines, are apart. */
  ghost predicate OwnersOk(r: Roles) {
    && (forall c: nat :: c < r.created && c !in r.shut ==> Owned(r, c))
    && (forall c :: c in r.shut || c in r.closers ==> c < r.created)
    && Below(r.current, r.created) && Below(r.dialed, r.created) && Below(r.connect, r.created)
    && Below(r.taken, r.created) && Below(r.closing, r.created)
    && r.closers !! r.shut
    && (r.current.Some? ==> Apart(r, r.current.value) && r.current != r.dialed && r.current != r.taken && r.current != r.closing)
    && (r.dialed.Some? ==> Apart(r, r.dialed.value) && r.dialed != r.taken && r.dialed != r.closing)
    && (r.taken.Some? ==> Apart(r, r.taken.value) && r.taken != r.closing)
    && (r.closing.Some? ==> r.closing.value !in r.closers)
    && (r.connect.Some? ==> (r.connect.value in r.shut ==> r.connect == r.closing))
    && (r.connect.Some? ==> r.connect.value !in r.closers && r.connect != r.current && r.connect != r.dialed && r.connect != r.taken)
  }

  predicate Apart(r: Roles, c: nat) {
    c !in r.closers && c !in r.shut
  }

  ghost predicate ClientsOk(l: Life, h: Handle, con: ConPc, k: RecPc) {
    && OwnersOk(RolesOf(l, h, con, k))
    && l.bg == |l.closers|
    && (ShutClient(l).Some? ==> (l.closeReturned ==> ShutClient(l).value in h.shut))
  }

  // ---- publication and the ways shutdown begins

  predicate PhaseOk(l: Life, h: Handle, con: ConPc, recs: seq<Reconnector>) {
    && (l.published ==> con.CPublished? || con.CDone?)
    && (!l.published ==> h.client.None? && l.closers == {} && l.handleShut.HWaiting? && Untouched(recs))
    && (h.closed <==> !l.handleShut.HWaiting?)
    && (h.closed ==> h.client.None? && l.down)
    && (l.published && !h.closed ==> h.client.Some?)
    && (l.handleShut.HTaken? || l.handleShut.HLost? ==> l.handleShut.c.Some?)
    && (l.sawPending.Some? ==> l.down)
    && (l.handleShut.HWon? <==> l.via.Some? && l.via.value.ByHandle?)
    && (l.handleShut.HLost? ==> l.via == Some(ByPending) || l.via == Some(ByLate))
    && (l.via == Some(ByPending) ==> l.down)
    && (l.via == Some(ByLate) ==> !l.handleShut.HWaiting?)
    && (l.via.Some? && l.via.value.ByFailure? ==>
          !l.published && (con.CJoin? || con.CCloseAfter? || con.CDone?)
          && (con.CJoin? ==> con.held == l.via.value.c))
    && (l.closeStarted ==> ShutClient(l).Some?)
    && (l.via.None? ==> !l.closeStarted && !l.closeReturned && l.shut.SIdle?)
    && (l.shut.SMark? || l.shut.SClose? ==> !l.closeStarted && !l.closeReturned)
    && (Rank(l.shut) >= 3 ==> l.closeStarted || l.closeReturned)
  }

  predicate Untouched(recs: seq<Reconnector>) {
    forall t :: 0 <= t < |recs| ==> recs[t].pc.NIdle?
  }

  /** The window between publication and removal from pending, taken by a shutdown of the pending remote. */
  predicate PendingWon(l: Life) {
    l.via == Some(ByPending) && l.published
  }

  /** The shutdown that took the client out of the handle was not the first to be let through. */
  predicate OtherWon(l: Life) {
    PendingWon(l) || l.via == Some(ByLate)
  }

  predicate BackgroundOk(l: Life) {
    Rank(l.shut) >= 6 && !PendingWon(l) ==> l.bg == 0
  }

  ghost predicate HandleInv(l: Life, h: Handle, con: ConPc, recs: seq<Reconnector>) {
    && RmuOk(h, recs)
    && CountsOk(h, Redialer(h, recs))
    && ClientsOk(l, h, con, Redialer(h, recs))
    && PhaseOk(l, h, con, recs)
    && BackgroundOk(l)
  }

  // ---- reconnect steps

  /** The handle's part of what a reconnecting caller that does not dial, install or drop does. */
  lemma RecLooks(s: State, t: nat, a: RecAct, s': State)
    requires t < |s.recs| && RecNext(s, t, a) == Some(s') && a.RecStep? && HoldsRmu(s.recs[t].pc)
    requires !s.recs[t].pc.NDialed? && !s.recs[t].pc.NDrop? && !s.recs[t].pc.NUnlock?
    ensures s'.life == s.life && s'.con == s.con && s'.handle == s.handle.(dials := s'.handle.dials)
    ensures |s'.recs| == |s.recs| && s'.recs == s.recs[t := s'.recs[t]] && HoldsRmu(s'.recs[t].pc)
    ensures RecClient(s'.recs[t].pc).None? && RecClient(s.recs[t].pc).None?
  {
  }

  lemma RecCountsLooks(s: State, t: nat, a: RecAct, s': State)
    requires t < |s.recs| && RecNext(s, t, a) == Some(s') && a.RecStep? && HoldsRmu(s.recs[t].pc)
    requires !s.recs[t].pc.NDialed? && !s.recs[t].pc.NDrop? && !s.recs[t].pc.NUnlock?
    requires CountsOk(s.handle, s.recs[t].pc)
    ensures CountsOk(s'.handle, s'.recs[t].pc)
  {
  }

  /** And of one that waits, begins, gives up or lets go of the lock. */
  lemma RecWaits(s: State, t: nat, a: RecAct, s': State)
    requires t < |s.recs| && RecNext(s, t, a) == Some(s')
    requires a.RecCancel? || !HoldsRmu(s.recs[t].pc) || s.recs[t].pc.NUnlock?
    ensures s'.life == s.life && s'.con == s.con && s'.handle == s.handle.(rmu := s'.handle.rmu)
    ensures |s'.recs| == |s.recs| && s'.recs == s.recs[t := s'.recs[t]]
    ensures a.RecCancel? ==> s'.recs[t].pc == s.recs[t].pc && s'.handle == s.handle
    ensures !a.RecCancel? && s.recs[t].pc.NUnlock? ==> s'.recs[t].pc.NIdle? && s'.handle.rmu.None?
    ensures !HoldsRmu(s.recs[t].pc) ==>
              if HoldsRmu(s'.recs[t].pc) then s.handle.rmu.None? && s'.handle.rmu == Some(t) && s'.recs[t].pc.NCtx?
              else s'.handle == s.handle
    ensures s.recs[t].pc.NIdle? && s.handle.client.None? ==> s'.recs[t].pc.NIdle?
  {
  }

  /** What a reconnect does with the client it dials. */
  lemma RecDials(s: State, t: nat, a: RecAct, s': State)
    requires t < |s.recs| && RecNext(s, t, a) == Some(s') && !a.RecCancel? && s.recs[t].pc.NDialing?
    ensures s'.life == s.life && s'.con == s.con && s'.handle == s.handle.(created := s'.handle.created)
    ensures |s'.recs| == |s.recs| && s'.recs == s.recs[t := s'.recs[t]]
    ensures s'.recs[t].pc.NDialed? && s'.recs[t].pc.used == s.recs[t].pc.used
    ensures if s'.recs[t].pc.dialed.None? then s'.handle.created == s.handle.created
            else s'.recs[t].pc.dialed.value == s.handle.created && s'.handle.created == s.handle.created + 1
  {
  }

  /** What was dialed is dropped by a closed handle, and replaces the client of an open one. */
  predicate Installed(c: Option<nat>, s: State, s': State, t: nat)
    requires t < |s.recs|
  {
    var h := s.handle.(reconnects := s.handle.reconnects + 1);
    |s'.recs| == |s.recs| && s'.recs == s.recs[t := s'.recs[t]] && s'.con == s.con
    && if c.None? then s'.handle == h && s'.life == s.life && s'.recs[t].pc.NUnlock?
       else if h.closed then s'.handle == h && s'.life == s.life && s'.recs[t].pc == NDrop(c.value)
       else
         s'.handle == h.(client := c, gen := h.gen + 1) && s'.recs[t].pc.NUnlock?
         && s'.life == if h.client.None? then s.life
                       else s.life.(bg := s.life.bg + 1, closers := s.life.closers + {h.client.value})
  }

  lemma RecInstalls(s: State, t: nat, a: RecAct, s': State)
    requires t < |s.recs| && RecNext(s, t, a) == Some(s') && !a.RecCancel? && s.recs[t].pc.NDialed?
    ensures Installed(s.recs[t].pc.dialed, s, s', t)
  {
  }

  lemma RecDrops(s: State, t: nat, a: RecAct, s': State)
    requires t < |s.recs| && RecNext(s, t, a) == Some(s') && !a.RecCancel? && s.recs[t].pc.NDrop?
    ensures s'.life == s.life && s'.con == s.con
    ensures |s'.recs| == |s.recs| && s'.recs == s.recs[t := s'.recs[t]] && s'.recs[t].pc.NUnlock?
    ensures s'.handle == s.handle.(shut := s.handle.shut + {s.recs[t].pc.client})
  {
  }

  /** Which of these a step is. */
  predicate Looking(pc: RecPc) {
    HoldsRmu(pc) && !pc.NDialing? && !pc.NDialed? && !pc.NDrop? && !pc.NUnlock?
  }

  lemma RecActs(s: State, t: nat, a: RecAct, s': State)
    requires t < |s.recs| && RecNext(s, t, a) == Some(s') && !a.RecCancel? && Looking(s.recs[t].pc)
    ensures a.RecStep?
  {
  }

  lemma RecKeepsRmu(s: State, t: nat, a: RecAct, s': State)
    requires RmuOk(s.handle, s.recs) && t < |s.recs| && RecNext(s, t, a) == Some(s')
    ensures RmuOk(s'.handle, s'.recs)
  {
    hide RecNext;
    var pc := s.recs[t].pc;
    if a.RecCancel? || !HoldsRmu(pc) || pc.NUnlock? {
      RecWaits(s, t, a, s');
    } else if pc.NDialing? {
      RecDials(s, t, a, s');
    } else if pc.NDialed? {
      RecInstalls(s, t, a, s');
    } else if pc.NDrop? {
      RecDrops(s, t, a, s');
    } else {
      RecActs(s, t, a, s');
      RecLooks(s, t, a, s');
    }
  }

  lemma RecKeepsCounts(s: State, t: nat, a: RecAct, s': State)
    requires RmuOk(s.handle, s.recs) && t < |s.recs| && RecNext(s, t, a) == Some(s')
    requires CountsOk(s.handle, Redialer(s.handle, s.recs))
    ensures CountsOk(s'.handle, Redialer(s'.handle, s'.recs))
  {
    hide RecNext;
    var pc := s.recs[t].pc;
    if a.RecCancel? || !HoldsRmu(pc) || pc.NUnlock? {
      RecWaits(s, t, a, s');
    } else if pc.NDialing? {
      RecDials(s, t, a, s');
    } else if pc.NDialed? {
      RecInstalls(s, t, a, s');
    } else if pc.NDrop? {
      RecDrops(s, t, a, s');
    } else {
      RecActs(s, t, a, s');
      RecLooks(s, t, a, s');
      RecCountsLooks(s, t, a, s');
    }
  }

  lemma RecKeepsPhase(s: State, t: nat, a: RecAct, s': State)
    requires PhaseOk(s.life, s.handle, s.con, s.recs) && t < |s.recs| && RecNext(s, t, a) == Some(s')
    ensures PhaseOk(s'.life, s'.handle, s'.con, s'.recs)
  {
    hide RecNext, Rank;
    var pc := s.recs[t].pc;
    if a.RecCancel? || !HoldsRmu(pc) || pc.NUnlock? {
      RecWaits(s, t, a, s');
    } else if pc.NDialing? {
      RecDials(s, t, a, s');
    } else if pc.NDialed? {
      RecInstalls(s, t, a, s');
    } else if pc.NDrop? {
      RecDrops(s, t, a, s');
    } else {
      RecActs(s, t, a, s');
      RecLooks(s, t, a, s');
    }
  }

  // ---- the ways a client changes hands

  /** A new client goes to the reconnect that dialed it, or to connect. */
  predicate Opens(r: Roles, r': Roles) {
    || (r.dialed.None? && r' == r.(created := r.created + 1, dialed := Some(r.created)))
    || (r.connect.None? && r' == r.(created := r.created + 1, connect := Some(r.created)))
  }

  lemma OpensKeepsOwners(r: Roles, r': Roles)
    requires OwnersOk(r)
    requires Opens(r, r')
    ensures OwnersOk(r')
  {
    forall c: nat | c < r'.created && c !in r'.shut ensures Owned(r', c) {
      assert c < r.created ==> Owned(r, c);
    }
  }

  /** One owner passes a client to another that had none, or closes it. */
  predicate Passes(r: Roles, r': Roles) {
    || (r.dialed.Some? && r.current.None? && r' == r.(current := r.dialed, dialed := None))
    || (r.dialed.Some? && r.current.Some? && r' == r.(current := r.dialed, dialed := None, closers := r.closers + {r.current.value}))
    || (r.dialed.Some? && r' == r.(dialed := None, shut := r.shut + {r.dialed.value}))
    || (r.connect.Some? && r.connect != r.closing && r.current.None? && r' == r.(current := r.connect, connect := None))
    || (r.connect.Some? && r' == r.(connect := None, shut := r.shut + {r.connect.value}))
    || (r.closing.None? && r' == r.(closing := r.connect))
    || (r.taken.None? && r' == r.(taken := r.current, current := None))
    || (r.closing.None? && r' == r.(closing := r.taken, taken := None))
    || (r.closing.Some? && r' == r.(shut := r.shut + {r.closing.value}))
    || (exists c :: c in r.closers && r' == r.(closers := r.closers - {c}, shut := r.shut + {c}))
  }

  lemma PassesKeepsOwners(r: Roles, r': Roles)
    requires OwnersOk(r) && Passes(r, r') && (r.connect.None? || (r.dialed.None? && r.closers == {}))
    ensures OwnersOk(r')
  {
    forall c: nat | c < r'.created && c !in r'.shut ensures Owned(r', c) {
      assert c !in r.shut ==> Owned(r, c);
    }
  }

  function RolesAt(s: State): Roles {
    RolesOf(s.life, s.handle, s.con, Redialer(s.handle, s.recs))
  }

  predicate Moves(s: State, s': State) {
    RolesAt(s') == RolesAt(s) || Opens(RolesAt(s), RolesAt(s')) || Passes(RolesAt(s), RolesAt(s'))
  }

  lemma RecMovesClients(s: State, t: nat, a: RecAct, s': State)
    requires RmuOk(s.handle, s.recs) && t < |s.recs| && RecNext(s, t, a) == Some(s')
    ensures Moves(s, s')
  {
    hide RecNext, Moves;
    var pc := s.recs[t].pc;
    if a.RecCancel? || !HoldsRmu(pc) || pc.NUnlock? {
      RecWaits(s, t, a, s');
      SameRolesMove(s, s');
    } else if pc.NDialing? {
      RecDials(s, t, a, s');
      DialMoves(s, t, s');
    } else if pc.NDialed? {
      RecInstalls(s, t, a, s');
      InstallMoves(s, t, s');
    } else if pc.NDrop? {
      RecDrops(s, t, a, s');
      DropMoves(s, t, s');
    } else {
      RecActs(s, t, a, s');
      RecLooks(s, t, a, s');
      SameRolesMove(s, s');
    }
  }

  lemma DialMoves(s: State, t: nat, s': State)
    requires t < |s.recs| == |s'.recs| && s.handle.rmu == Some(t) && s.recs[t].pc.NDialing?
    requires s'.recs == s.recs[t := s'.recs[t]]
    requires s'.life == s.life && s'.con == s.con && s'.handle == s.handle.(created := s'.handle.created)
    requires s'.recs[t].pc.NDialed?
    requires if s'.recs[t].pc.dialed.None? then s'.handle.created == s.handle.created
             else s'.recs[t].pc.dialed.value == s.handle.created && s'.handle.created == s.handle.created + 1
    ensures Moves(s, s')
  {
    hide Passes;
  }

  lemma InstallMoves(s: State, t: nat, s': State)
    requires t < |s.recs| == |s'.recs| && s.handle.rmu == Some(t) && s.recs[t].pc.NDialed?
    requires Installed(s.recs[t].pc.dialed, s, s', t)
    ensures Moves(s, s')
  {
    hide Opens;
  }

  lemma DropMoves(s: State, t: nat, s': State)
    requires t < |s.recs| == |s'.recs| && s.handle.rmu == Some(t) && s.recs[t].pc.NDrop?
    requires s'.recs == s.recs[t := s'.recs[t]]
    requires s'.life == s.life && s'.con == s.con && s'.recs[t].pc.NUnlock?
    requires s'.handle == s.handle.(shut := s.handle.shut + {s.recs[t].pc.client})
    ensures Moves(s, s')
  {
    hide Opens;
  }

  lemma DialMovesClients(s: State, a: ConAct, s': State)
    requires SetupNext(s, a) == Some(s')
    requires s.con.CDialing? || s.con.CDialed? || s.con.CCloseOwn? || s.con.CUnwind?
    ensures Moves(s, s') && s'.recs == s.recs
    ensures s'.handle == s.handle.(created := s'.handle.created, shut := s'.handle.shut)
    ensures s'.life == s.life.(setup := s'.life.setup)
  {
    hide Moves;
    if s.con.CDialing? {
      DialingMoves(s, a, s');
    } else if s.con.CCloseOwn? {
      CloseOwnMoves(s, a, s');
    } else {
      SameRolesMove(s, s');
    }
  }

  lemma DialingMoves(s: State, a: ConAct, s': State)
    requires s.con.CDialing? && SetupNext(s, a) == Some(s')
    ensures Moves(s, s')
  {
    hide Passes;
  }

  lemma CloseOwnMoves(s: State, a: ConAct, s': State)
    requires s.con.CCloseOwn? && SetupNext(s, a) == Some(s')
    ensures Moves(s, s')
  {
    hide Opens;
  }

  lemma ConsentMovesNone(s: State, a: ConAct, s': State)
    requires SetupNext(s, a) == Some(s')
    requires !s.con.CDialing? && !s.con.CDialed? && !s.con.CCloseOwn? && !s.con.CUnwind?
    ensures RolesAt(s') == RolesAt(s) && s'.recs == s.recs && s'.handle == s.handle && s'.life == s.life
  {
  }

  lemma InstallMovesClients(s: State, a: ConAct, s': State)
    requires InstallNext(s, a) == Some(s')
    ensures Moves(s, s') && s'.recs == s.recs && s'.handle == s.handle && s'.life == s.life && InSetup(s'.con)
  {
  }

  lemma SetupKeepsPhase(s: State, s': State)
    requires PhaseOk(s.life, s.handle, s.con, s.recs) && InSetup(s.con) && !s'.con.CPublished? && !s'.con.CDone?
    requires s'.life == s.life.(setup := s'.life.setup) && s'.recs == s.recs
    requires s'.handle == s.handle.(created := s'.handle.created, shut := s'.handle.shut)
    ensures PhaseOk(s'.life, s'.handle, s'.con, s'.recs)
  {
  }

  lemma SetupStays(s: State, a: ConAct, s': State)
    requires SetupNext(s, a) == Some(s')
    ensures !s'.con.CPublished? && !s'.con.CDone?
  {
  }

  lemma PublishMovesClients(s: State, a: ConAct, s': State)
    requires PublishNext(s, a) == Some(s') && PhaseOk(s.life, s.handle, s.con, s.recs)
    requires s.con.CListing? ==> s.life.via.None? || s.life.via.value.ByPending?
    ensures Moves(s, s') && s'.recs == s.recs && s'.handle.rmu == s.handle.rmu
  {
    hide PhaseOk, Moves;
    if s.con.CListing? {
      ListingMoves(s, a, s');
    } else if s.con.CFail? {
      FailingMoves(s, a, s');
    } else if s.con.CCloseAfter? {
      ClosingMoves(s, a, s');
    } else {
      SameRolesMove(s, s');
    }
  }

  lemma ListingMoves(s: State, a: ConAct, s': State)
    requires s.con.CListing? && PublishNext(s, a) == Some(s') && PhaseOk(s.life, s.handle, s.con, s.recs)
    requires s.life.via.None? || s.life.via.value.ByPending?
    ensures Moves(s, s') && s'.recs == s.recs && s'.handle.rmu == s.handle.rmu
  {
    hide Rank, Untouched, Opens;
  }

  lemma FailingMoves(s: State, a: ConAct, s': State)
    requires s.con.CFail? && PublishNext(s, a) == Some(s')
    ensures Moves(s, s') && s'.recs == s.recs && s'.handle.rmu == s.handle.rmu
  {
    hide Opens;
  }

  lemma ClosingMoves(s: State, a: ConAct, s': State)
    requires s.con.CCloseAfter? && PublishNext(s, a) == Some(s')
    ensures Moves(s, s') && s'.recs == s.recs && s'.handle.rmu == s.handle.rmu
  {
    hide Opens;
  }

  lemma PublishKeepsPhase(s: State, a: ConAct, s': State)
    requires PublishNext(s, a) == Some(s') && PhaseOk(s.life, s.handle, s.con, s.recs)
    ensures PhaseOk(s'.life, s'.handle, s'.con, s'.recs)
  {
    hide Untouched;
  }

  lemma ShutMovesClients(s: State, a: ShutAct, s': State)
    requires ShutNext(s, a) == Some(s') && PhaseOk(s.life, s.handle, s.con, s.recs) && !a.ShutStep?
    ensures Moves(s, s') && s'.recs == s.recs && s'.con == s.con && s'.handle.rmu == s.handle.rmu
  {
  }

  lemma ShutKeepsPhase(s: State, a: ShutAct, s': State)
    requires ShutNext(s, a) == Some(s') && PhaseOk(s.life, s.handle, s.con, s.recs) && !a.ShutStep?
    ensures PhaseOk(s'.life, s'.handle, s'.con, s'.recs)
  {
  }

  lemma ShutStepKeeps(l: Life, lockFree: bool, l': Life)
    requires ShutStepLife(l, lockFree) == Some(l')
    ensures l'.setup == l.setup && l'.bg == l.bg && l'.via == l.via && l'.closers == l.closers && l'.down == l.down
    ensures l'.pending == l.pending && l'.sawPending == l.sawPending && l'.published == l.published
    ensures l'.handleShut == l.handleShut
  {
  }

  lemma ShutStepOrder(l: Life, lockFree: bool, l': Life)
    requires ShutStepLife(l, lockFree) == Some(l')
    ensures l.shut != SIdle && l'.shut != SIdle && l'.shut != SMark && (l'.shut == SClose ==> l.shut == SMark)
    ensures l.shut != SClose ==> l'.closeStarted == l.closeStarted && l'.closeReturned == l.closeReturned
    ensures l.shut == SClose ==> l'.closeStarted == (l.closeStarted || ShutClient(l).Some?)
    ensures l.shut == SClose && l'.closeReturned ==> l.closeReturned || ShutClient(l).None?
    ensures Rank(l'.shut) >= 3 && Rank(l.shut) < 3 ==> l'.closeStarted || l'.closeReturned
  {
  }

  lemma ShutStepAtBg(l: Life, lockFree: bool, l': Life)
    requires ShutStepLife(l, lockFree) == Some(l') && Rank(l'.shut) >= 6 && Rank(l.shut) < 6
    ensures l.bg == 0
  {
  }

  lemma ShutStepKeepsPhase(l: Life, lockFree: bool, l': Life, h: Handle, con: ConPc, recs: seq<Reconnector>)
    requires ShutStepLife(l, lockFree) == Some(l') && PhaseOk(l, h, con, recs)
    ensures PhaseOk(l', h, con, recs)
  {
    ShutStepKeeps(l, lockFree, l');
    ShutStepOrder(l, lockFree, l');
    hide ShutStepLife, Untouched;
  }

  lemma DoShutdownKeepsPhase(s: State, s': State)
    requires DoShutdown(s) == Some(s') && PhaseOk(s.life, s.handle, s.con, s.recs)
    ensures PhaseOk(s'.life, s'.handle, s'.con, s'.recs)
    ensures RolesAt(s') == RolesAt(s) && s'.handle == s.handle && s'.recs == s.recs && s'.con == s.con
  {
    hide ShutStepCred, PhaseOk, ShutStepLife;
    ShutStepKeepsPhase(s.life, s.cred.lock.Free?, s'.life, s.handle, s.con, s.recs);
    ShutStepKeeps(s.life, s.cred.lock.Free?, s'.life);
  }

  // ---- every step

  lemma MovesKeepOwners(s: State, s': State)
    requires HandleInv(s.life, s.handle, s.con, s.recs) && Moves(s, s')
    ensures OwnersOk(RolesAt(s'))
  {
    var r := RolesAt(s);
    assert r.connect.None? || (r.dialed.None? && r.closers == {}) by {
      if r.connect.Some? {
        assert !s.life.published;
      }
    }
    hide HandleInv, OwnersOk, RolesOf;
    if Opens(r, RolesAt(s')) {
      OpensKeepsOwners(r, RolesAt(s'));
    } else if RolesAt(s') != r {
      PassesKeepsOwners(r, RolesAt(s'));
    }
  }

  lemma RecKeepsHandle(s: State, t: nat, a: RecAct, s': State)
    requires HandleInv(s.life, s.handle, s.con, s.recs) && t < |s.recs| && RecNext(s, t, a) == Some(s')
    ensures HandleInv(s'.life, s'.handle, s'.con, s'.recs)
  {
    RecKeepsRmu(s, t, a, s');
    RecKeepsCounts(s, t, a, s');
    RecMovesClients(s, t, a, s');
    RecKeepsPhase(s, t, a, s');
    MovesKeepOwners(s, s');
    RecKeepsBackground(s, t, a, s');
    hide RecNext, RmuOk, CountsOk, OwnersOk, PhaseOk;
  }

  lemma RecKeepsBackground(s: State, t: nat, a: RecAct, s': State)
    requires HandleInv(s.life, s.handle, s.con, s.recs) && t < |s.recs| && RecNext(s, t, a) == Some(s')
    ensures BackgroundOk(s'.life) && s'.life.bg == |s'.life.closers| && s'.con == s.con
    ensures ShutClient(s'.life).Some? && s'.life.closeReturned ==> ShutClient(s'.life).value in s'.handle.shut
  {
    hide RecNext, CountsOk, OwnersOk, Rank;
    var pc := s.recs[t].pc;
    if a.RecCancel? || !HoldsRmu(pc) || pc.NUnlock? {
      RecWaits(s, t, a, s');
    } else if pc.NDialing? {
      RecDials(s, t, a, s');
    } else if pc.NDialed? {
      RecInstalls(s, t, a, s');
      InstallKeepsBackground(s, t, s');
    } else if pc.NDrop? {
      RecDrops(s, t, a, s');
    } else {
      RecActs(s, t, a, s');
      RecLooks(s, t, a, s');
    }
  }

  lemma InstallKeepsBackground(s: State, t: nat, s': State)
    requires HandleInv(s.life, s.handle, s.con, s.recs) && t < |s.recs| && s.recs[t].pc.NDialed?
    requires Installed(s.recs[t].pc.dialed, s, s', t)
    ensures BackgroundOk(s'.life) && s'.life.bg == |s'.life.closers|
    ensures ShutClient(s'.life) == ShutClient(s.life) && s'.handle.shut == s.handle.shut
    ensures s'.life.closeReturned == s.life.closeReturned
  {
    hide RmuOk, CountsOk;
    assert !s.recs[t].pc.NIdle?;
    if Rank(s.life.shut) >= 6 && !PendingWon(s.life) {
      ShutOfOpenHandle(s);
    }
  }

  /** A shutdown this far, not of a published pending remote, has closed the handle or found nothing published. */
  lemma ShutOfOpenHandle(s: State)
    requires HandleInv(s.life, s.handle, s.con, s.recs) && Rank(s.life.shut) >= 6 && !PendingWon(s.life)
    ensures s.handle.closed || Untouched(s.recs)
  {
    hide RmuOk, CountsOk, ClientsOk, Untouched;
  }

  lemma SetupKeepsHandle(s: State, a: ConAct, s': State)
    requires HandleInv(s.life, s.handle, s.con, s.recs) && InSetup(s.con)
    requires SetupNext(s, a) == Some(s') || InstallNext(s, a) == Some(s')
    ensures HandleInv(s'.life, s'.handle, s'.con, s'.recs)
  {
    hide SetupNext, InstallNext, OwnersOk, InSetup, Moves;
    if InstallNext(s, a) == Some(s') {
      InstallMovesClients(s, a, s');
      InstallStays(s, a, s');
    } else {
      if s.con.CDialing? || s.con.CDialed? || s.con.CCloseOwn? || s.con.CUnwind? {
        DialMovesClients(s, a, s');
      } else {
        ConsentMovesNone(s, a, s');
        SameRolesMove(s, s');
      }
      SetupStays(s, a, s');
    }
    MovesKeepOwners(s, s');
    SetupKeepsPhase(s, s');
    hide PhaseOk;
  }

  lemma SameRolesMove(s: State, s': State)
    requires RolesAt(s') == RolesAt(s)
    ensures Moves(s, s')
  {
  }

  lemma InstallStays(s: State, a: ConAct, s': State)
    requires InstallNext(s, a) == Some(s')
    ensures !s'.con.CPublished? && !s'.con.CDone?
  {
  }

  lemma PublishKeepsHandle(s: State, a: ConAct, s': State)
    requires HandleInv(s.life, s.handle, s.con, s.recs) && PublishNext(s, a) == Some(s')
    ensures HandleInv(s'.life, s'.handle, s'.con, s'.recs)
  {
    hide OwnersOk, Moves, Untouched, RmuOk, PublishNext, Rank;
    PublishShape(s, a, s');
    PublishMovesClients(s, a, s');
    PublishKeepsPhase(s, a, s');
    MovesKeepOwners(s, s');
    SameRmu(s.handle, s'.handle, s.recs);
  }

  /** What publication leaves alone. */
  lemma PublishShape(s: State, a: ConAct, s': State)
    requires PublishNext(s, a) == Some(s')
    ensures s'.recs == s.recs && s'.handle == s.handle.(client := s'.handle.client, shut := s'.handle.shut)
    ensures s'.life.bg == s.life.bg && s'.life.closers == s.life.closers && s'.handle.shut >= s.handle.shut
    ensures s'.life.closeReturned == s.life.closeReturned
    ensures s.life.via.Some? ==> s'.life.via == s.life.via && s'.life.shut == s.life.shut
    ensures s.life.via.None? && s'.life.via.Some? ==> s'.life.shut.SMark? && s'.life.via.value.ByFailure?
    ensures s'.life.via.None? ==> s'.life.shut == s.life.shut
    ensures s'.life.published ==> s.life.published || s.con.CListing?
  {
  }

  lemma DoShutdownKeepsHandle(s: State, s': State)
    requires HandleInv(s.life, s.handle, s.con, s.recs) && DoShutdown(s) == Some(s')
    ensures HandleInv(s'.life, s'.handle, s'.con, s'.recs)
  {
    hide PhaseOk, OwnersOk, RmuOk, CountsOk, ShutStepLife, ShutStepCred;
    var free := s.cred.lock.Free?;
    DoShutdownKeepsPhase(s, s');
    ShutStepKeeps(s.life, free, s'.life);
    ShutStepOrder(s.life, free, s'.life);
    assert ShutClient(s'.life) == ShutClient(s.life);
    if Rank(s'.life.shut) >= 6 && Rank(s.life.shut) < 6 {
      ShutStepAtBg(s.life, free, s'.life);
    }
    hide Rank;
  }

  lemma ShutKeepsHandle(s: State, a: ShutAct, s': State)
    requires HandleInv(s.life, s.handle, s.con, s.recs) && ShutNext(s, a) == Some(s') && !a.ShutStep?
    ensures HandleInv(s'.life, s'.handle, s'.con, s'.recs)
  {
    hide OwnersOk;
    ShutMovesClients(s, a, s');
    ShutKeepsPhase(s, a, s');
    MovesKeepOwners(s, s');
  }

  lemma BackgroundMoves(s: State, c: nat, s': State)
    requires Next(s, OfBackground(c)) == Some(s')
    ensures Moves(s, s') && s'.life.bg == s.life.bg - 1 && |s'.life.closers| == |s.life.closers| - 1
    ensures s'.handle == s.handle.(shut := s.handle.shut + {c}) && s'.recs == s.recs && s'.con == s.con
    ensures s'.life == s.life.(bg := s'.life.bg, closers := s'.life.closers)
    ensures s.life.closers == {} ==> s'.life.closers == {}
  {
  }

  lemma BackgroundKeepsHandle(s: State, c: nat, s': State)
    requires HandleInv(s.life, s.handle, s.con, s.recs) && Next(s, OfBackground(c)) == Some(s')
    ensures HandleInv(s'.life, s'.handle, s'.con, s'.recs)
  {
    hide Next, OwnersOk, Moves, Untouched, RmuOk;
    BackgroundMoves(s, c, s');
    MovesKeepOwners(s, s');
    assert RmuOk(s'.handle, s'.recs) by {
      SameRmu(s.handle, s'.handle, s.recs);
    }
  }

  lemma SameRmu(h: Handle, h': Handle, recs: seq<Reconnector>)
    requires RmuOk(h, recs) && h'.rmu == h.rmu
    ensures RmuOk(h', recs) && Redialer(h', recs) == Redialer(h, recs)
  {
  }

  lemma ShutStepIs(s: State, s': State)
    requires ShutNext(s, ShutStep) == Some(s')
    ensures DoShutdown(s) == Some(s')
  {
  }

  lemma NextKeepsHandle(s: State, a: Action, s': State)
    requires HandleInv(s.life, s.handle, s.con, s.recs) && Next(s, a) == Some(s')
    ensures HandleInv(s'.life, s'.handle, s'.con, s'.recs)
  {
    hide HandleInv, ReqStep, SetupNext, InstallNext, PublishNext, ShutNext, RecNext;
    match a
    case OfRequest(t, r) =>
    case OfConnect(c) =>
      if InSetup(s.con) {
        SetupKeepsHandle(s, c, s');
      } else {
        PublishKeepsHandle(s, c, s');
      }
    case OfShutdown(x) =>
      if x.ShutStep? {
        ShutStepIs(s, s');
        DoShutdownKeepsHandle(s, s');
      } else {
        ShutKeepsHandle(s, x, s');
      }
    case OfReconnect(t, r) => RecKeepsHandle(s, t, r, s');
    case OfBackground(c) => BackgroundKeepsHandle(s, c, s');
  }

  lemma InitHandleHolds(requests: nat, reconnectors: nat)
    ensures var s := InitState(requests, reconnectors); HandleInv(s.life, s.handle, s.con, s.recs)
  {
  }

  lemma {:induction false} RunKeepsHandle(s: State, schedule: seq<Action>, s': State)
    requires HandleInv(s.life, s.handle, s.con, s.recs) && Run(s, schedule) == Some(s')
    ensures HandleInv(s'.life, s'.handle, s'.con, s'.recs)
  {
    hide HandleInv, Next;
    if schedule != [] {
      var mid := Run(s, schedule[..|schedule| - 1]).value;
      RunKeepsHandle(s, schedule[..|schedule| - 1], mid);
      NextKeepsHandle(mid, schedule[|schedule| - 1], s');
    }
  }
}
