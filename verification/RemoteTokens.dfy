/** The tokens a remote holds and sends are the ones issued last, and no other reply is ever installed. */
module RemoteTokens {
  import opened Wrappers
  import opened RemoteLog
  import opened RemoteModel
  import opened RemoteInvariant
  import opened RemoteRequestProof
  import opened RemoteLifecycleProof
  import opened RemoteHandleProof
  import opened RemoteTheorems
  import opened RemoteCalls

  /** The access token issued last. */
  function NewestAccess(l: Log): string {
    if l.Begun? then ""
    else if l.last.Installed? || l.last.Minted? then l.last.access
    else NewestAccess(l.prior)
  }

  /** The refresh token issued last: a refresh that brings none leaves the one before. */
  function NewestRefresh(l: Log): string {
    if l.Begun? then ""
    else if l.last.Installed? || (l.last.Minted? && l.last.refresh != "") then l.last.refresh
    else NewestRefresh(l.prior)
  }

  /** Every refresh was sent with the refresh token issued last. */
  predicate SentNewest(l: Log) {
    l.Then? ==> (l.last.RefreshSent? ==> l.last.value == NewestRefresh(l.prior) != "") && SentNewest(l.prior)
  }

  /** Until they are wiped the held tokens are the ones issued last, and before a failure none is missing. */
  predicate NewestOk(c: Cred, h: Option<LockedPc>, rank: nat) {
    SentNewest(c.log)
    && (AccessValue(c) != "" ==> AccessValue(c) == NewestAccess(c.log))
    && (RefreshValue(c) != "" ==> RefreshValue(c) == NewestRefresh(c.log))
    && (c.tok.Some? && rank <= 8 ==>
          RefreshValue(c) == NewestRefresh(c.log) || c.failure.Some? || AtTerminal(h))
  }

  predicate NewestInv(s: State) {
    NewestOk(s.cred, Holder(s), Rank(s.life.shut))
  }

  /** No token was issued or sent, and the held ones are the same or wiped by a shutdown that is this far. */
  predicate SameNewest(c: Cred, h: Option<LockedPc>, rank: nat, c': Cred, h': Option<LockedPc>, rank': nat) {
    c'.tok == c.tok && TokenEvents(c'.log) == TokenEvents(c.log) && rank <= rank'
    && (AccessValue(c') == AccessValue(c) || AccessValue(c') == "")
    && (RefreshValue(c') == RefreshValue(c) || (RefreshValue(c') == "" && (rank' > 8 || c'.tok.None?)))
    && (c.failure.Some? ==> c'.failure.Some?) && (AtTerminal(h) ==> AtTerminal(h') || c'.failure.Some?)
  }

  lemma {:induction false} NewestOfEvents(l: Log)
    ensures NewestAccess(TokenEvents(l)) == NewestAccess(l) && NewestRefresh(TokenEvents(l)) == NewestRefresh(l)
    ensures SentNewest(TokenEvents(l)) <==> SentNewest(l)
  {
    if l.Then? {
      NewestOfEvents(l.prior);
    }
  }

  lemma SameNewestKeeps(c: Cred, h: Option<LockedPc>, rank: nat, c': Cred, h': Option<LockedPc>, rank': nat)
    requires NewestOk(c, h, rank) && SameNewest(c, h, rank, c', h', rank')
    ensures NewestOk(c', h', rank')
  {
    hide AccessValue, RefreshValue, AtTerminal;
    NewestOfEvents(c.log);
    NewestOfEvents(c'.log);
  }

  lemma LookingKeepsNewest(pc: LockedPc, ctxDone: bool, c: Cred, closing: bool, a: ReqAct, m: LockedMove, rank: nat)
    requires !pc.Refreshing? && LockedStep(pc, ctxDone, c, closing, a) == Some(m) && NewestOk(c, Some(pc), rank)
    ensures NewestOk(m.c, HolderPc(m.pc), rank)
  {
    assert SameNewest(c, Some(pc), rank, m.c, HolderPc(m.pc), rank);
    SameNewestKeeps(c, Some(pc), rank, m.c, HolderPc(m.pc), rank);
  }

  lemma RefreshingKeepsNewest(pc: LockedPc, ctxDone: bool, c: Cred, closing: bool, a: ReqAct, m: LockedMove, rank: nat)
    requires pc.Refreshing? && LockedStep(pc, ctxDone, c, closing, a) == Some(m) && NewestOk(c, Some(pc), rank)
    requires TokenOk(c, Some(pc), rank) && InStore(c.store, TokIds(c.tok))
    ensures NewestOk(m.c, HolderPc(m.pc), rank)
  {
    if pc.at.RDecide? {
      DecidingKeepsNewest(pc, ctxDone, c, closing, a, m, rank);
    } else if pc.at.RTrack? || pc.at.RTrackMore? {
      var v := if pc.at.RTrack? then pc.at.reply.access else pc.at.reply.refresh;
      TrackExtends(c, v);
      ExtendsKeepsTok(c, Track(c, v));
      hide Track, TrackedAs, AccessValue, RefreshValue;
    } else {
      hide AccessValue, RefreshValue, TokenOk;
      AccessIgnoresRest(c, m.c);
    }
  }

  lemma AccessIgnoresRest(c: Cred, c': Cred)
    ensures c'.store == c.store && c'.tok == c.tok ==>
              AccessValue(c') == AccessValue(c) && RefreshValue(c') == RefreshValue(c)
  {
  }

  lemma DecidingKeepsNewest(pc: LockedPc, ctxDone: bool, c: Cred, closing: bool, a: ReqAct, m: LockedMove, rank: nat)
    requires pc.Refreshing? && pc.at.RDecide? && LockedStep(pc, ctxDone, c, closing, a) == Some(m)
    requires NewestOk(c, Some(pc), rank) && TokenOk(c, Some(pc), rank)
    ensures NewestOk(m.c, HolderPc(m.pc), rank)
  {
    hide LockedStep, TokenOk, AccessValue, RefreshValue;
    DecidingIs(pc, ctxDone, c, closing, a, m, rank);
    NewestOneMore(c.log, m.c.log);
  }

  lemma NewestOneMore(l: Log, l': Log)
    ensures l'.Then? && l'.prior == l && l'.last.Minted? ==>
              NewestAccess(l') == l'.last.access && (SentNewest(l') <==> SentNewest(l))
              && NewestRefresh(l') == if l'.last.refresh != "" then l'.last.refresh else NewestRefresh(l)
    ensures l'.Then? && l'.prior == l && l'.last.RefreshFailed? ==>
              NewestAccess(l') == NewestAccess(l) && NewestRefresh(l') == NewestRefresh(l)
              && (SentNewest(l') <==> SentNewest(l))
  {
  }

  /** What deciding does to the held tokens. */
  lemma DecidingIs(pc: LockedPc, ctxDone: bool, c: Cred, closing: bool, a: ReqAct, m: LockedMove, rank: nat)
    requires pc.Refreshing? && pc.at.RDecide? && LockedStep(pc, ctxDone, c, closing, a) == Some(m)
    requires TokenOk(c, Some(pc), rank)
    ensures pc.at.reply.Tokens? && c.tok.Some? && m.c.tok.Some? && m.pc.Locked? && m.c.failure == c.failure
    ensures var reply := pc.at.reply;
            if reply.access != "" && reply.bearer && reply.scoped then
              m.c.log == Then(c.log, Minted(reply.access, reply.refresh)) && AccessValue(m.c) == reply.access
              && RefreshValue(m.c) == if reply.refresh != "" then reply.refresh else RefreshValue(c)
            else
              m.c.log == Then(c.log, RefreshFailed) && m.pc.pc.Terminal? && m.c.tok == c.tok
              && (AccessValue(m.c) == AccessValue(c) || AccessValue(m.c) == "")
              && (RefreshValue(m.c) == RefreshValue(c) || RefreshValue(m.c) == "")
  {
    assert Carries(c, pc.at.reply, pc.at.ts);
    hide HolderCarries, RefreshCarries, AtTerminal;
  }

  /** A reply that is empty, not of the bearer type or out of scope is not installed, and what it brought is wiped. */
  lemma RefusedReplyIsWiped(pc: LockedPc, ctxDone: bool, c: Cred, closing: bool, a: ReqAct, m: LockedMove, rank: nat)
    requires pc.Refreshing? && pc.at.RDecide? && LockedStep(pc, ctxDone, c, closing, a) == Some(m)
    requires TokenOk(c, Some(pc), rank)
    requires var reply := pc.at.reply; reply.access == "" || !reply.bearer || !reply.scoped
    ensures m.pc == Locked(Terminal) && m.c.tok == c.tok
    ensures forall i :: i in SetIds(pc.at.ts) && i < |m.c.store| ==> m.c.store[i] == ""
    ensures pc.at.reply.access != "" && pc.at.reply.bearer && !pc.at.reply.scoped ==>
              AccessValue(m.c) == "" && RefreshValue(m.c) == ""
  {
  }

  /** The same for the consent flow's first reply. */
  lemma RefusedGrantIsWiped(s: State, a: ConAct, s': State)
    requires s.con.CDecide? && SetupNext(s, a) == Some(s') && s.con.reply.Tokens?
    requires var reply := s.con.reply; reply.access == "" || !reply.bearer || !reply.scoped
    ensures s'.con == CUnwind(None) && s'.cred.tok == s.cred.tok && s'.cred.log == s.cred.log
    ensures forall i :: i in SetIds(s.con.ts) && i < |s'.cred.store| ==> s'.cred.store[i] == ""
  {
  }

  lemma RequestKeepsNewest(s: State, t: nat, a: ReqAct, s': State)
    requires CredInv(s) && NewestInv(s) && t < |s.reqs| && ReqNext(s, t, a) == Some(s') && CredInv(s')
    ensures NewestInv(s')
  {
    hide CredInv, NewestOk, Rank, LockedStep, AnswerStep, EntryStep, Holder;
    var r, c := s.reqs[t], s.cred;
    if a.Cancel? {
      SameHolder(s, t, s');
    } else if r.pc.Locked? {
      RequestParts(s, t);
      var m := LockedStep(r.pc.pc, r.ctxDone, c, s.life.closing, a).value;
      LockedKeepsRequest(r.pc.pc, r.ctxDone, c, s.life.closing, a, Rank(s.life.shut), m);
      HolderAfter(s, t, s');
      if r.pc.pc.Refreshing? {
        RefreshingKeepsNewest(r.pc.pc, r.ctxDone, c, s.life.closing, a, m, Rank(s.life.shut));
      } else {
        LookingKeepsNewest(r.pc.pc, r.ctxDone, c, s.life.closing, a, m, Rank(s.life.shut));
      }
    } else {
      FreeRequestLeaves(s, t, a, s');
      SameNewestKeeps(c, Holder(s), Rank(s.life.shut), s'.cred, Holder(s'), Rank(s'.life.shut));
    }
  }

  lemma SameHolder(s: State, t: nat, s': State)
    requires t < |s.reqs| && s' == s.(reqs := s.reqs[t := s.reqs[t].(ctxDone := true)])
    ensures Holder(s') == Holder(s)
  {
  }

  lemma RequestParts(s: State, t: nat)
    requires CredInv(s) && t < |s.reqs| && s.reqs[t].pc.Locked?
    ensures Holder(s) == Some(s.reqs[t].pc.pc) && TokenOk(s.cred, Holder(s), Rank(s.life.shut))
    ensures HistoryOk(s.cred, Holder(s))
    ensures InStore(s.cred.store, TokIds(s.cred.tok)) && s.cred.lock == HeldByRequest(t)
  {
    hide RedactorOk, HistoryOk, RotationOk, MarkOk, AllWiped, ConOk, ShutOk, TokenOk;
    HolderIs(s, t);
  }

  lemma HolderAfter(s: State, t: nat, s': State)
    requires CredInv(s') && t < |s.reqs| == |s'.reqs| && s'.life == s.life
    requires s'.cred.lock == HeldByRequest(t) || s'.cred.lock.Free?
    ensures Holder(s') == HolderPc(s'.reqs[t].pc)
  {
    hide CredOk, ConOk, ShutOk;
    HolderIs(s', t);
  }

  lemma FreeRequestLeaves(s: State, t: nat, a: ReqAct, s': State)
    requires CredInv(s) && CredInv(s') && t < |s.reqs| && !s.reqs[t].pc.Locked? && ReqNext(s, t, a) == Some(s')
    ensures SameNewest(s.cred, Holder(s), Rank(s.life.shut), s'.cred, Holder(s'), Rank(s'.life.shut))
  {
    HolderIs(s, t);
    HolderIs(s', t);
    hide CredInv, Rank;
    FreeStepIs(t, s.reqs[t], s.cred, s.life.closing, a, ReqStep(t, s.reqs[t], s.cred, s.life.closing, a).value);
    hide ReqStep, AccessValue, RefreshValue;
    AccessIgnoresRest(s.cred, s'.cred);
    if s'.reqs[t].pc.Locked? {
      assert Holder(s).None?;
    } else {
      SameOtherHolder(s, t, s');
    }
  }

  lemma SameOtherHolder(s: State, t: nat, s': State)
    requires t < |s.reqs| == |s'.reqs| && s'.cred.lock == s.cred.lock && !s.reqs[t].pc.Locked? && !s'.reqs[t].pc.Locked?
    requires s'.reqs == s.reqs[t := s'.reqs[t]]
    ensures Holder(s') == Holder(s)
  {
  }

  lemma FreeStepIs(t: nat, r: Request, c: Cred, closing: bool, a: ReqAct, m: Moved)
    requires !r.pc.Locked? && ReqStep(t, r, c, closing, a) == Some(m)
    ensures SameBase(c, m.c) && (c.failure.Some? ==> m.c.failure.Some?)
    ensures if m.r.pc.Locked? then c.lock.Free? && m.c.lock == HeldByRequest(t) else m.c.lock == c.lock
  {
    hide LockedStep, AnswerStep, EntryStep;
    if !a.Cancel? {
      if r.pc.Sent? || r.pc.MarkLoad? || r.pc.MarkSwap? || r.pc.Terminate? {
        AnswerIs(r, c, a, m);
      } else {
        EntryIs(t, r, c, closing, a, m);
      }
    }
  }

  lemma AnswerIs(r: Request, c: Cred, a: ReqAct, m: Moved)
    requires AnswerStep(r, c, a) == Some(m)
    ensures SameBase(c, m.c) && (c.failure.Some? ==> m.c.failure.Some?) && !m.r.pc.Locked? && m.c.lock == c.lock
  {
  }

  lemma EntryIs(t: nat, r: Request, c: Cred, closing: bool, a: ReqAct, m: Moved)
    requires EntryStep(t, r, c, closing, a) == Some(m) && !r.pc.Locked?
    ensures SameBase(c, m.c) && m.c.failure == c.failure
    ensures if m.r.pc.Locked? then c.lock.Free? && m.c.lock == HeldByRequest(t) else m.c.lock == c.lock
  {
  }

  lemma ConnectKeepsNewest(s: State, a: ConAct, s': State)
    requires CredInv(s) && NewestInv(s) && ConNext(s, a) == Some(s') && CredInv(s')
    ensures NewestInv(s')
  {
    hide CredInv, NewestOk, Holder, ConNext, Rank;
    if !BeforeInstall(s.con) {
      ConnectLeaves(s, a, s');
      ConnectRanks(s, a, s');
      SameReqsHolder(s, s');
      assert SameNewest(s.cred, Holder(s), Rank(s.life.shut), s'.cred, Holder(s'), Rank(s'.life.shut));
      SameNewestKeeps(s.cred, Holder(s), Rank(s.life.shut), s'.cred, Holder(s'), Rank(s'.life.shut));
    } else if s.con.CInstall? {
      InstallIsNewest(s, a, s');
    } else {
      BeforeInstallLeaves(s, a, s');
    }
  }

  lemma SameReqsHolder(s: State, s': State)
    requires s'.reqs == s.reqs && s'.cred.lock == s.cred.lock
    ensures Holder(s') == Holder(s)
  {
  }

  lemma ConnectRanks(s: State, a: ConAct, s': State)
    requires ConNext(s, a) == Some(s') && CredInv(s)
    ensures Rank(s.life.shut) <= Rank(s'.life.shut)
  {
    IdleMeansNoVia(s);
    ConnectIsLater(s, a, s');
    hide CredInv, ConNext;
  }

  lemma NoTokenBefore(s: State)
    requires CredInv(s) && BeforeInstall(s.con)
    ensures s.cred.tok.None? && s.cred.log == Begun
  {
    hide StorageOk, RedactorOk, HistoryOk, RotationOk, MarkOk, AllWiped, RequestsOk, LocksOk;
  }

  lemma BeforeInstallLeaves(s: State, a: ConAct, s': State)
    requires CredInv(s) && BeforeInstall(s.con) && !s.con.CInstall? && ConNext(s, a) == Some(s') && CredInv(s')
    ensures NewestInv(s')
  {
    NoTokenBefore(s);
    StaysUninstalled(s, a, s');
    hide CredInv, ConNext;
  }

  lemma StaysUninstalled(s: State, a: ConAct, s': State)
    requires BeforeInstall(s.con) && !s.con.CInstall? && ConNext(s, a) == Some(s')
    ensures s'.cred.tok == s.cred.tok && s'.cred.log == s.cred.log
  {
    hide Track, TrackedAs, Wipe, Register, Stored, StoredAs;
    TokLeft(s.cred);
  }

  lemma TokLeft(c: Cred)
    ensures forall v :: Track(c, v).tok == c.tok && Track(c, v).log == c.log
    ensures forall v, w :: Register(Stored(c, v), w).tok == c.tok && Register(Stored(c, v), w).log == c.log
    ensures forall ids :: Wipe(c, ids).tok == c.tok && Wipe(c, ids).log == c.log
    ensures forall v, ids :: Wipe(Track(c, v), ids).tok == c.tok && Wipe(Track(c, v), ids).log == c.log
  {
  }

  lemma InstallIsNewest(s: State, a: ConAct, s': State)
    requires CredInv(s) && s.con.CInstall? && ConNext(s, a) == Some(s')
    ensures NewestInv(s')
  {
    NoTokenBefore(s);
    InstallIs(s, a, s');
    hide CredInv, ConNext, Holder, Rank, AccessValue, RefreshValue;
    assert NewestAccess(s'.cred.log) == AccessValue(s'.cred) && NewestRefresh(s'.cred.log) == RefreshValue(s'.cred);
    assert SentNewest(s'.cred.log.prior);
  }

  lemma InstallIs(s: State, a: ConAct, s': State)
    requires s.con.CInstall? && ConNext(s, a) == Some(s')
    ensures s'.cred.log == Then(s.cred.log, Installed(AccessValue(s'.cred), RefreshValue(s'.cred)))
  {
  }

  lemma ShutKeepsNewest(s: State, a: ShutAct, s': State)
    requires CredInv(s) && NewestInv(s) && ShutNext(s, a) == Some(s')
    ensures NewestInv(s')
  {
    ShutLeavesNewest(s, a, s');
    hide CredInv, NewestOk, ShutNext, Holder, Rank, SameNewest;
    SameNewestKeeps(s.cred, Holder(s), Rank(s.life.shut), s'.cred, Holder(s'), Rank(s'.life.shut));
  }

  lemma ShutLeavesNewest(s: State, a: ShutAct, s': State)
    requires CredInv(s) && ShutNext(s, a) == Some(s')
    ensures SameNewest(s.cred, Holder(s), Rank(s.life.shut), s'.cred, Holder(s'), Rank(s'.life.shut))
  {
    ShutLeavesRequests(s, a, s');
    IdleMeansNoVia(s);
    if a.ShutStep? {
      ShutStepLeavesNewest(s, s');
    } else {
      ShutActIsLater(s, a, s');
      ShutActLeavesCred(s, a, s');
      hide CredInv, ShutNext, Rank;
      SameReqsHolder(s, s');
    }
  }

  lemma ShutActLeavesCred(s: State, a: ShutAct, s': State)
    requires !a.ShutStep? && ShutNext(s, a) == Some(s')
    ensures s'.cred == s.cred
  {
  }

  lemma ShutStepLeavesNewest(s: State, s': State)
    requires CredInv(s) && DoShutdown(s) == Some(s')
    ensures SameNewest(s.cred, Holder(s), Rank(s.life.shut), s'.cred, Holder(s'), Rank(s'.life.shut))
  {
    HolderUnderShutdown(s);
    hide CredInv;
    DoShutdownIsLater(s, s');
    WipeEmpties(s.cred);
    if s.life.shut.SLock? || s.life.shut.SWipe? || s.life.shut.SUnlock? {
      assert Holder(s) == Holder(s') == None;
    } else {
      SameReqsHolder(s, s');
    }
  }

  lemma WipeEmpties(c: Cred)
    ensures forall ids :: (AccessValue(Wipe(c, ids)) == AccessValue(c) || AccessValue(Wipe(c, ids)) == "")
                       && (RefreshValue(Wipe(c, ids)) == RefreshValue(c) || RefreshValue(Wipe(c, ids)) == "")
  {
  }

  lemma HolderUnderShutdown(s: State)
    requires CredInv(s)
    ensures s.life.shut.SWipe? || s.life.shut.SUnlock? ==> s.cred.lock.HeldByShutdown?
  {
    hide CredOk, ConOk, RequestsOk, ShutOk;
  }

  lemma StepKeepsNewest(s: State, a: Action, s': State)
    requires CredInv(s) && NewestInv(s) && Next(s, a) == Some(s')
    ensures NewestInv(s')
  {
    NextKeepsInv(s, a, s');
    hide CredInv, NewestInv, ReqNext, ConNext, ShutNext, RecNext;
    match a
    case OfRequest(t, r) => RequestKeepsNewest(s, t, r, s');
    case OfConnect(c) => ConnectKeepsNewest(s, c, s');
    case OfShutdown(x) => ShutKeepsNewest(s, x, s');
    case OfReconnect(t, r) =>
      RecKeepsCred(s, t, r, s');
      SameNewestInv(s, s');
    case OfBackground(_) => SameNewestInv(s, s');
  }

  lemma SameNewestInv(s: State, s': State)
    requires NewestInv(s) && s'.cred == s.cred && s'.reqs == s.reqs && s'.life.shut == s.life.shut
    ensures NewestInv(s')
  {
    SameReqsHolder(s, s');
  }

  lemma {:induction false} RunKeepsNewest(s: State, schedule: seq<Action>, s': State)
    requires CredInv(s) && NewestInv(s) && Run(s, schedule) == Some(s')
    ensures NewestInv(s')
  {
    hide CredInv, NewestInv, Run, Next;
    if schedule == [] {
      RunNothing(s);
    } else {
      var mid := RunLast(s, schedule, s');
      RunKeepsNewest(s, schedule[..|schedule| - 1], mid);
      RunKeepsInv(s, schedule[..|schedule| - 1], mid);
      StepKeepsNewest(mid, schedule[|schedule| - 1], s');
    }
  }

  lemma ReachableNewest(s: State)
    requires Reachable(s)
    ensures NewestInv(s)
  {
    var n: nat, m: nat, schedule: seq<Action> :| Run(InitState(n, m), schedule) == Some(s);
    hide Run, CredInv;
    InitHolds(n, m);
    assert NewestInv(InitState(n, m));
    RunKeepsNewest(InitState(n, m), schedule, s);
  }

  /**
   Every refresh was sent with the refresh token issued last; the held tokens are the ones issued last; and while tokMu
   is free, nothing failed and nothing is zeroed, the refresh token is not missing.
   */
  lemma TokensAreNewest(s: State)
    requires Reachable(s)
    ensures SentNewest(s.cred.log)
    ensures AccessValue(s.cred) != "" ==> AccessValue(s.cred) == NewestAccess(s.cred.log)
    ensures s.cred.tok.Some? && s.cred.lock.Free? && s.cred.failure.None? && !s.cred.zeroed ==>
              RefreshValue(s.cred) == NewestRefresh(s.cred.log)
  {
    ReachableNewest(s);
    ReachableHolds(s);
    LockFreeMeansNoHolder(s);
    hide StorageOk, RedactorOk, HistoryOk, RotationOk, MarkOk, AllWiped, RequestsOk, ConOk, AccessValue, RefreshValue;
  }

  /** And a request is handed the access token issued last. */
  lemma HandedTokenIsNewest(s: State, t: nat, a: ReqAct, s': State)
    requires Reachable(s) && t < |s.reqs| && s.reqs[t].pc.Locked? && ReqNext(s, t, a) == Some(s') && s'.reqs[t].pc.Sent?
    ensures s'.reqs[t].pc.token == NewestAccess(s'.cred.log) != ""
  {
    ReachableHolds(s);
    TokensAreNewest(s);
    RequestParts(s, t);
    HandsOver(s, t, a, s');
    hide CredInv, HandleInv, Reachable, ReqNext;
  }

  lemma HandsOver(s: State, t: nat, a: ReqAct, s': State)
    requires t < |s.reqs| && s.reqs[t].pc.Locked? && TokenOk(s.cred, Some(s.reqs[t].pc.pc), Rank(s.life.shut))
    requires ReqNext(s, t, a) == Some(s') && s'.reqs[t].pc.Sent?
    ensures s'.reqs[t].pc.token == AccessValue(s.cred) != "" && s'.cred.log == s.cred.log
  {
    hide Track, TrackedAs, Install, Discard;
  }
}
