/** What a remote promises over every schedule of its goroutines and every answer of its server. */
module RemoteTheorems {
  import opened Wrappers
  import opened RemoteLog
  import opened RemoteModel
  import opened RemoteInvariant
  import opened RemoteRequestProof
  import opened RemoteLifecycleProof
  import opened RemoteHandleProof

  /** s can be reached by some number of requests and reconnecting callers. */
  ghost predicate Reachable(s: State) {
    exists requests: nat, reconnectors: nat, schedule: seq<Action> ::
      Run(InitState(requests, reconnectors), schedule) == Some(s)
  }

  lemma ReachableHolds(s: State)
    requires Reachable(s)
    ensures CredInv(s) && HandleInv(s.life, s.handle, s.con, s.recs)
  {
    var n: nat, m: nat, schedule: seq<Action> :| Run(InitState(n, m), schedule) == Some(s);
    hide Run, Next, CredInv, HandleInv;
    InitHolds(n, m);
    RunKeepsInv(InitState(n, m), schedule, s);
    InitHandleHolds(n, m);
    RunKeepsHandle(InitState(n, m), schedule, s);
  }

  // ---- refreshes

  /**
   No refresh follows a failed one or overlaps another; none resends a rotated token; none answers the 401 of a minted
   token that no request was accepted with, and, unless an accepted token is minted again, none that was not accepted
   since its mint.
   */
  lemma RefreshSafety(s: State)
    requires Reachable(s)
    ensures FailureIsFinal(s.cred.log)
    ensures AlwaysRotates(s.cred.log) ==> NeverResent(s.cred.log)
    ensures RejectedWasAccepted(s.cred.log)
    ensures MintsUnaccepted(s.cred.log) ==> RejectedWasProven(s.cred.log)
    ensures DistinctMints(s.cred.log) ==> MintsUnaccepted(s.cred.log)
    ensures HasFailed(s.cred.log) && s.cred.lock.Free? ==> s.cred.failure.Some?
  {
    ReachableHolds(s);
    LockFreeMeansNoHolder(s);
    hide StorageOk, RedactorOk, TokenOk, AllWiped, RequestsOk, ConOk;
    if MintsUnaccepted(s.cred.log) {
      AcceptedMeansProven(s.cred.log);
    }
    if DistinctMints(s.cred.log) {
      DistinctMintsAreUnaccepted(s.cred.log);
    }
  }

  lemma LockFreeMeansNoHolder(s: State)
    requires LocksOk(s)
    ensures s.cred.lock.Free? ==> Holder(s) == None
  {
  }

  /** A caller whose context had ended when its token call began never gets past LockCtx. */
  lemma EndedCallerStops(s: State, t: nat)
    requires Reachable(s) && t < |s.reqs| && s.reqs[t].bornDone
    ensures s.reqs[t].pc.Enter? || s.reqs[t].pc.Idle?
  {
    ReachableHolds(s);
    HolderIs(s, t);
    hide StorageOk, RedactorOk, SharedOk, AllWiped, ConOk, LocksOk;
  }

  /** There it sends nothing, records no failure and changes nothing anyone shares. */
  lemma EndedCallerIsInert(s: State, t: nat, a: ReqAct, s': State)
    requires Reachable(s) && t < |s.reqs| && s.reqs[t].bornDone && s.reqs[t].pc.Enter?
    requires ReqNext(s, t, a) == Some(s')
    ensures s'.cred == s.cred && s'.life == s.life && s'.handle == s.handle
    ensures s'.reqs[t].pc.Enter? || s'.reqs[t].pc.Idle?
  {
    ReachableHolds(s);
    HolderIs(s, t);
    assert s.reqs[t].ctxDone;
    hide Reachable, CredInv, HandleInv, RequestOk;
    EndedEntryTurnsAway(t, s.reqs[t], s.cred, s.life.closing, a);
    hide ReqStep;
  }

  lemma EndedEntryTurnsAway(t: nat, r: Request, c: Cred, closing: bool, a: ReqAct)
    requires r.ctxDone && r.pc.Enter? && ReqStep(t, r, c, closing, a).Some?
    ensures var m := ReqStep(t, r, c, closing, a).value; m.c == c && (m.r.pc.Enter? || m.r.pc.Idle?)
  {
    hide LockedStep, AnswerStep;
  }

  /** The first failure stays, whatever follows. */
  lemma {:induction false} FirstFailureStays(s: State, schedule: seq<Action>, s': State)
    requires Run(s, schedule) == Some(s') && s.cred.failure.Some?
    ensures s'.cred.failure == s.cred.failure
  {
    hide Next;
    if schedule != [] {
      var mid := Run(s, schedule[..|schedule| - 1]).value;
      FirstFailureStays(s, schedule[..|schedule| - 1], mid);
      StepKeepsFailure(mid, schedule[|schedule| - 1], s');
    }
  }

  lemma StepKeepsFailure(s: State, a: Action, s': State)
    requires Next(s, a) == Some(s') && s.cred.failure.Some?
    ensures s'.cred.failure == s.cred.failure
  {
    hide ReqNext, ConNext, ShutNext, RecNext;
    match a
    case OfRequest(t, r) => RequestKeepsFailure(s, t, r, s');
    case OfConnect(c) => ConnectKeepsFailure(s, c, s');
    case OfShutdown(x) => ShutdownKeepsFailure(s, x, s');
    case OfReconnect(t, r) => RecKeepsCred(s, t, r, s');
    case OfBackground(_) =>
  }

  lemma RequestKeepsFailure(s: State, t: nat, a: ReqAct, s': State)
    requires t < |s.reqs| && ReqNext(s, t, a) == Some(s') && s.cred.failure.Some?
    ensures s'.cred.failure == s.cred.failure
  {
    hide LockedStep, AnswerStep, EntryStep;
    var r, c, closing := s.reqs[t], s.cred, s.life.closing;
    if !a.Cancel? && r.pc.Locked? && c.lock == HeldByRequest(t) {
      LockedKeepsFailure(r.pc.pc, r.ctxDone, c, closing, a, LockedStep(r.pc.pc, r.ctxDone, c, closing, a).value);
    } else if r.pc.Sent? || r.pc.MarkLoad? || r.pc.MarkSwap? || r.pc.Terminate? {
      AnswerKeepsFailure(r, c, a);
    } else {
      EntryKeepsFailure(t, r, c, closing, a);
    }
  }

  lemma LockedKeepsFailure(pc: LockedPc, ctxDone: bool, c: Cred, closing: bool, a: ReqAct, m: LockedMove)
    requires LockedStep(pc, ctxDone, c, closing, a) == Some(m) && c.failure.Some?
    ensures m.c.failure == c.failure
  {
    hide WipeStore, StoredAs, Ids;
  }

  lemma AnswerKeepsFailure(r: Request, c: Cred, a: ReqAct)
    requires c.failure.Some?
    ensures AnswerStep(r, c, a).Some? ==> AnswerStep(r, c, a).value.c.failure == c.failure
  {
  }

  lemma EntryKeepsFailure(t: nat, r: Request, c: Cred, closing: bool, a: ReqAct)
    ensures EntryStep(t, r, c, closing, a).Some? ==> EntryStep(t, r, c, closing, a).value.c.failure == c.failure
  {
  }

  lemma ConnectKeepsFailure(s: State, a: ConAct, s': State)
    requires ConNext(s, a) == Some(s')
    ensures s'.cred.failure == s.cred.failure
  {
  }

  lemma ShutdownKeepsFailure(s: State, a: ShutAct, s': State)
    requires ShutNext(s, a) == Some(s')
    ensures s'.cred.failure == s.cred.failure
  {
  }

  // ---- credentials

  /** A token handed to a request is an issued one, never empty or wiped. */
  lemma HandedTokensAreIssued(s: State, t: nat)
    requires Reachable(s) && t < |s.reqs| && s.reqs[t].pc.Sent?
    ensures s.reqs[t].pc.token != "" && AccessIssued(s.cred.log, s.reqs[t].pc.token)
  {
    ReachableHolds(s);
    HolderIs(s, t);
    hide StorageOk, RedactorOk, SharedOk, AllWiped, ConOk, LocksOk;
  }

  /** While tokMu is free, nothing failed and nothing is zeroed, the held access token is live. */
  lemma FreeTokenIsLive(s: State)
    requires Reachable(s) && s.cred.lock.Free? && s.cred.tok.Some?
    requires s.cred.failure.None? && !s.cred.zeroed
    ensures AccessValue(s.cred) != ""
  {
    ReachableHolds(s);
    LockFreeMeansNoHolder(s);
    hide StorageOk, RedactorOk, HistoryOk, RotationOk, MarkOk, AllWiped, RequestsOk, ConOk;
  }

  /** No live credential is lost: the remote, a goroutine at work or the redactor still has it. */
  lemma LiveCredentialsAreOwned(s: State, i: nat)
    requires Reachable(s) && i < |s.cred.store| && s.cred.store[i] != ""
    ensures i in WorkIds(s.cred, HolderIds(Holder(s)) + ConHeld(s.con)) || i in s.cred.items
  {
    ReachableHolds(s);
    hide RedactorOk, SharedOk, AllWiped, RequestsOk, ConOk, LocksOk, WorkIds, HolderIds, ConHeld;
  }

  /** Until it closes, the redactor still knows every value it was given, and every live credential. */
  lemma RedactorKnowsCredentials(s: State, v: string)
    requires Reachable(s) && !s.cred.redClosed
    requires v in s.cred.tracked || exists i :: 0 <= i < |s.cred.store| && s.cred.store[i] == v && v != ""
    ensures v != "" && Known(s.cred, v)
  {
    ReachableHolds(s);
    hide StorageOk, SharedOk, AllWiped, RequestsOk, ConOk, LocksOk, Known;
  }

  // ---- shutdown

  /** The wipe begins only after Close returned and with no connect and no background close in flight. */
  lemma WipeComesLast(s: State)
    requires Reachable(s) && Rank(s.life.shut) >= Rank(SWipe)
    ensures s.life.closing && s.life.closeReturned && s.life.setup == 0 && !InSetup(s.con)
    ensures !PendingWon(s.life) ==> s.life.bg == 0 && s.life.closers == {}
    ensures ShutClient(s.life).Some? ==> ShutClient(s.life).value in s.handle.shut
  {
    hide CredInv, HandleInv, InSetup, OwnersOk, Reachable, Redialer;
    ReachableHolds(s);
    WipeParts(s);
  }

  lemma WipeParts(s: State)
    requires CredInv(s) && HandleInv(s.life, s.handle, s.con, s.recs)
    ensures ShutOk(s.life, s.con, s.cred) && BackgroundOk(s.life)
    ensures ClientsOk(s.life, s.handle, s.con, Redialer(s.handle, s.recs))
  {
  }

  predicate LaterLife(l: Life, l': Life) {
    && Rank(l.shut) <= Rank(l'.shut)
    && (l.via.Some? ==> l'.via == l.via)
    && (l.down ==> l'.down)
    && (l.down && !l.published ==> !l'.published)
  }

  lemma StepIsLater(s: State, a: Action, s': State)
    requires Next(s, a) == Some(s') && (s.life.shut.SIdle? <==> s.life.via.None?)
    ensures LaterLife(s.life, s'.life)
  {
    hide ReqStep, SetupNext, InstallNext, RecNext, DoShutdown;
    match a
    case OfConnect(c) =>
      hide PublishNext;
      ConnectIsLater(s, c, s');
    case OfShutdown(x) =>
      if x.ShutStep? {
        DoShutdownIsLater(s, s');
      } else {
        ShutActIsLater(s, x, s');
      }
      hide ShutNext;
    case OfReconnect(t, r) => RecKeepsCred(s, t, r, s');
    case _ =>
  }

  lemma ShutActIsLater(s: State, a: ShutAct, s': State)
    requires !a.ShutStep? && ShutNext(s, a) == Some(s') && (s.life.shut.SIdle? <==> s.life.via.None?)
    ensures LaterLife(s.life, s'.life)
  {
  }

  lemma DoShutdownIsLater(s: State, s': State)
    requires DoShutdown(s) == Some(s')
    ensures LaterLife(s.life, s'.life)
  {
    hide ShutStepCred;
  }

  lemma ConnectIsLater(s: State, a: ConAct, s': State)
    requires ConNext(s, a) == Some(s') && (s.life.shut.SIdle? <==> s.life.via.None?)
    ensures LaterLife(s.life, s'.life)
  {
    hide SetupNext, InstallNext;
    if InSetup(s.con) {
      if ConHolds(s.con) {
        InstallMovesClients(s, a, s');
      } else {
        SetupKeepsLife(s, a, s');
      }
    }
  }

  lemma SetupKeepsLife(s: State, a: ConAct, s': State)
    requires SetupNext(s, a) == Some(s')
    ensures s'.life == s.life.(setup := s'.life.setup)
  {
  }

  lemma RunLast(s: State, schedule: seq<Action>, s': State) returns (mid: State)
    requires schedule != [] && Run(s, schedule) == Some(s')
    ensures Run(s, schedule[..|schedule| - 1]) == Some(mid) && Next(mid, schedule[|schedule| - 1]) == Some(s')
  {
    hide Next;
    mid := Run(s, schedule[..|schedule| - 1]).value;
  }

  lemma RunOneMore(s: State, schedule: seq<Action>, mid: State, a: Action, s': State)
    requires Run(s, schedule) == Some(mid) && Next(mid, a) == Some(s')
    ensures Run(s, schedule + [a]) == Some(s')
  {
    hide Next;
    var more := schedule + [a];
    assert more[..|more| - 1] == schedule;
  }

  lemma RunNothing(s: State)
    ensures Run(s, []) == Some(s)
  {
  }

  lemma {:induction false} RunChains(s: State, first: seq<Action>, mid: State, second: seq<Action>, s': State)
    requires Run(s, first) == Some(mid) && Run(mid, second) == Some(s')
    ensures Run(s, first + second) == Some(s')
    decreases |second|
  {
    hide Run, Next;
    if second == [] {
      RunNothing(mid);
      assert first + second == first;
    } else {
      var n := |second| - 1;
      var before := RunLast(mid, second, s');
      RunChains(s, first, mid, second[..n], before);
      RunOneMore(s, first + second[..n], before, second[n], s');
      assert first + second[..n] + [second[n]] == first + second;
    }
  }

  lemma ReachableChains(s: State, schedule: seq<Action>, s': State)
    requires Reachable(s) && Run(s, schedule) == Some(s')
    ensures Reachable(s')
  {
    var n: nat, m: nat, first: seq<Action> :| Run(InitState(n, m), first) == Some(s);
    hide Next;
    RunChains(InitState(n, m), first, s, schedule, s');
  }

  lemma {:induction false} RunIsLater(s: State, schedule: seq<Action>, s': State)
    requires CredInv(s) && Run(s, schedule) == Some(s')
    ensures LaterLife(s.life, s'.life)
  {
    hide CredInv, Next;
    if schedule != [] {
      var mid := Run(s, schedule[..|schedule| - 1]).value;
      RunIsLater(s, schedule[..|schedule| - 1], mid);
      RunKeepsInv(s, schedule[..|schedule| - 1], mid);
      IdleMeansNoVia(mid);
      StepIsLater(mid, schedule[|schedule| - 1], s');
    }
  }

  lemma IdleMeansNoVia(s: State)
    requires CredInv(s)
    ensures s.life.shut.SIdle? <==> s.life.via.None?
  {
    hide CredOk, RequestsOk, ConOk, LocksOk;
  }

  /** And none of what the wipe waited for can begin again, however the run goes on. */
  lemma NothingRisesAfterWipe(s: State, schedule: seq<Action>, s': State)
    requires Reachable(s) && Rank(s.life.shut) >= Rank(SWipe) && Run(s, schedule) == Some(s')
    ensures s'.life.closing && s'.life.closeReturned && s'.life.setup == 0 && !InSetup(s'.con)
    ensures !PendingWon(s.life) ==> s'.life.bg == 0 && s'.life.closers == {}
    ensures Calm(s) ==> s'.life.bg == 0
  {
    hide CredInv, Run, Reachable, InSetup;
    if Calm(s) {
      CalmStays(s, schedule, s');
    }
    ReachableHolds(s);
    RunIsLater(s, schedule, s');
    ReachableChains(s, schedule, s');
    WipeComesLast(s');
    IdleMeansNoVia(s);
    hide RmuOk, CountsOk, ClientsOk, BackgroundOk;
  }

  // ---- background closes

  /** The reconnect under way may still put a client into the handle although the remote is closing. */
  predicate OpensSoon(pc: RecPc) {
    pc.NDialing? || (pc.NDialed? && pc.dialed.Some?)
  }

  /** No client is being closed in the background, and no reconnect can replace one any more. */
  predicate Calm(s: State) {
    s.life.bg == 0 && (s.handle.closed || !OpensSoon(Redialer(s.handle, s.recs)))
  }

  /** What concerns reconnects and background closes is left alone, but for a handle that is closed. */
  predicate SameCalm(s: State, s': State) {
    s'.life.bg == s.life.bg && s'.handle.rmu == s.handle.rmu && s'.recs == s.recs
    && (s.handle.closed ==> s'.handle.closed)
  }

  lemma SameCalmKeeps(s: State, s': State)
    requires Calm(s) && SameCalm(s, s')
    ensures Calm(s')
  {
  }

  lemma ConnectIsCalm(s: State, a: ConAct, s': State)
    requires ConNext(s, a) == Some(s')
    ensures SameCalm(s, s')
  {
    hide SetupNext, InstallNext, PublishNext, Moves, RolesAt;
    if !InSetup(s.con) {
      PublishShape(s, a, s');
    } else if ConHolds(s.con) {
      InstallMovesClients(s, a, s');
    } else if s.con.CDialing? || s.con.CDialed? || s.con.CCloseOwn? || s.con.CUnwind? {
      DialMovesClients(s, a, s');
    } else {
      ConsentMovesNone(s, a, s');
    }
  }

  lemma ShutIsCalm(s: State, a: ShutAct, s': State)
    requires ShutNext(s, a) == Some(s')
    ensures SameCalm(s, s')
  {
    hide ShutStepCred;
  }

  /** Once the remote is closing nobody gets as far as dialing. */
  lemma LooksWithoutDialing(s: State, t: nat, a: RecAct, s': State)
    requires t < |s.recs| && RecNext(s, t, a) == Some(s') && a.RecStep? && Looking(s.recs[t].pc) && s.life.closing
    ensures !OpensSoon(s'.recs[t].pc)
  {
  }

  lemma RecKeepsCalm(s: State, t: nat, a: RecAct, s': State)
    requires RmuOk(s.handle, s.recs) && t < |s.recs| && RecNext(s, t, a) == Some(s')
    requires s.life.closing && Calm(s)
    ensures Calm(s')
  {
    hide RecNext;
    var pc := s.recs[t].pc;
    if a.RecCancel? || !HoldsRmu(pc) || pc.NUnlock? {
      RecWaits(s, t, a, s');
    } else if pc.NDialing? {
      RecDials(s, t, a, s');
    } else if pc.NDialed? {
      RecInstalls(s, t, a, s');
    } else if pc.NDrop? {
      RecDrops(s, t, a, s');
    } else {
      RecActs(s, t, a, s');
      RecLooks(s, t, a, s');
      LooksWithoutDialing(s, t, a, s');
    }
  }

  lemma StepKeepsCalm(s: State, a: Action, s': State)
    requires RmuOk(s.handle, s.recs) && s.life.closing && Calm(s) && Next(s, a) == Some(s')
    ensures Calm(s')
  {
    hide ReqStep, ConNext, ShutNext, RecNext, RmuOk;
    match a
    case OfRequest(t, r) => SameCalmKeeps(s, s');
    case OfConnect(c) =>
      ConnectIsCalm(s, c, s');
      SameCalmKeeps(s, s');
    case OfShutdown(x) =>
      ShutIsCalm(s, x, s');
      SameCalmKeeps(s, s');
    case OfReconnect(t, r) => RecKeepsCalm(s, t, r, s');
    case OfBackground(_) =>
  }

  lemma ClosingStays(s: State, schedule: seq<Action>, s': State)
    requires Reachable(s) && Rank(s.life.shut) >= 2 && Run(s, schedule) == Some(s')
    ensures s'.life.closing && RmuOk(s'.handle, s'.recs)
  {
    hide CredOk, LocksOk, RequestsOk, ConOk, Reachable, Run, RmuOk, CountsOk, ClientsOk, PhaseOk, BackgroundOk;
    ReachableHolds(s);
    RunIsLater(s, schedule, s');
    ReachableChains(s, schedule, s');
    ReachableHolds(s');
  }

  /** Calm stays calm once the remote is closing. */
  lemma {:induction false} CalmStays(s: State, schedule: seq<Action>, s': State)
    requires Reachable(s) && Rank(s.life.shut) >= 2 && Calm(s) && Run(s, schedule) == Some(s')
    ensures Calm(s')
  {
    hide Next, Run, Reachable, Calm, RmuOk, Rank;
    if schedule == [] {
      RunNothing(s);
    } else {
      var mid := RunLast(s, schedule, s');
      CalmStays(s, schedule[..|schedule| - 1], mid);
      ClosingStays(s, schedule[..|schedule| - 1], mid);
      StepKeepsCalm(mid, schedule[|schedule| - 1], s');
    }
  }

  // ---- nothing is left

  /** Once everything is wiped: every storage ever issued is empty, and only reads remain. */
  predicate Empty(s: State) {
    && s.life.shut.SDone?
    && (forall i :: 0 <= i < |s.cred.store| ==> s.cred.store[i] == "")
    && s.cred.items == {} && s.cred.redClosed
  }

  lemma DoneMeansEmpty(s: State)
    requires Reachable(s) && s.life.shut.SDone?
    ensures Empty(s)
  {
    hide SharedOk, RequestsOk, ConOk, LocksOk, HolderIds, ConHeld, Reachable, HandleInv, InSetup;
    ReachableHolds(s);
    DoneHeldNothing(s);
    assert HolderIds(Holder(s)) + ConHeld(s.con) == {};
  }

  lemma DoneHeldNothing(s: State)
    requires CredInv(s) && s.life.shut.SDone?
    ensures HolderIds(Holder(s)) == {} && ConHeld(s.con) == {}
    ensures Holder(s).Some? ==> !PastZeroed(Holder(s).value)
  {
    hide StorageOk, RedactorOk, HistoryOk, RotationOk, MarkOk, AllWiped, RequestsOk, LocksOk;
  }

  lemma RequestAfterDone(s: State, t: nat, a: ReqAct, s': State)
    requires LocksOk(s) && t < |s.reqs| && ReqNext(s, t, a) == Some(s')
    requires Holder(s).Some? ==> !PastZeroed(Holder(s).value)
    ensures SameStorage(s.cred, s'.cred) && s'.life == s.life
  {
    hide EntryStep, LockedStep, AnswerStep, SameStorage;
    var r, c, closing := s.reqs[t], s.cred, s.life.closing;
    if a.Cancel? {
      UnmovedStorage(c);
    } else if r.pc.Locked? {
      LockedKeepsStorage(r.pc.pc, r.ctxDone, c, closing, a, LockedStep(r.pc.pc, r.ctxDone, c, closing, a).value);
    } else if r.pc.Sent? || r.pc.MarkLoad? || r.pc.MarkSwap? || r.pc.Terminate? {
      AnswerLeavesStorage(r, c, a);
    } else {
      EntryLeavesStorage(t, r, c, closing, a);
    }
  }

  lemma UnmovedStorage(c: Cred)
    ensures SameStorage(c, c)
  {
  }

  lemma AnswerLeavesStorage(r: Request, c: Cred, a: ReqAct)
    requires AnswerStep(r, c, a).Some?
    ensures SameStorage(c, AnswerStep(r, c, a).value.c)
  {
  }

  lemma EntryLeavesStorage(t: nat, r: Request, c: Cred, closing: bool, a: ReqAct)
    requires EntryStep(t, r, c, closing, a).Some?
    ensures SameStorage(c, EntryStep(t, r, c, closing, a).value.c)
  {
  }

  lemma ConnectAfterDone(s: State, a: ConAct, s': State)
    requires !InSetup(s.con) && ConNext(s, a) == Some(s')
    ensures s'.cred == s.cred
  {
  }

  lemma ShutdownAfterDone(s: State, a: ShutAct, s': State)
    requires s.life.shut.SDone? && ShutNext(s, a) == Some(s')
    ensures s'.cred == s.cred
  {
  }

  lemma StillEmpty(s: State, s': State)
    requires Empty(s) && SameStorage(s.cred, s'.cred) && LaterLife(s.life, s'.life)
    ensures Empty(s')
  {
  }

  lemma StepAfterDone(s: State, a: Action, s': State)
    requires CredInv(s) && Empty(s) && Next(s, a) == Some(s')
    ensures SameStorage(s.cred, s'.cred) && Empty(s')
  {
    hide CredInv, LocksOk, Holder, InSetup, HolderIds, ConHeld, PastZeroed, ReqNext, ConNext, RecNext, ShutNext,
      SameStorage, LaterLife;
    DoneHeldNothing(s);
    DoneParts(s);
    StepIsLater(s, a, s');
    UnmovedStorage(s.cred);
    match a {
      case OfRequest(t, r) => RequestAfterDone(s, t, r, s');
      case OfConnect(c) => ConnectAfterDone(s, c, s');
      case OfShutdown(x) => ShutdownAfterDone(s, x, s');
      case OfReconnect(t, r) => RecKeepsCred(s, t, r, s');
      case OfBackground(_) =>
    }
    StillEmpty(s, s');
  }

  lemma DoneParts(s: State)
    requires CredInv(s) && s.life.shut.SDone?
    ensures LocksOk(s) && !InSetup(s.con) && s.life.via.Some?
  {
    hide CredOk, RequestsOk, ConOk, LocksOk;
  }

  /** After shutdown every credential is gone and nothing is ever stored or installed again. */
  lemma {:induction false} NothingAfterShutdown(s: State, schedule: seq<Action>, s': State)
    requires Reachable(s) && s.life.shut.SDone? && Run(s, schedule) == Some(s')
    ensures Empty(s) && Empty(s') && SameStorage(s.cred, s'.cred)
    decreases |schedule|
  {
    DoneMeansEmpty(s);
    ReachableHolds(s);
    hide CredInv, Next, Reachable, Empty, HandleInv, SameStorage;
    if schedule == [] {
      UnmovedStorage(s.cred);
    } else {
      var mid := Run(s, schedule[..|schedule| - 1]).value;
      NothingAfterShutdown(s, schedule[..|schedule| - 1], mid);
      RunKeepsInv(s, schedule[..|schedule| - 1], mid);
      StepAfterDone(mid, schedule[|schedule| - 1], s');
      SameStorageChains(s.cred, mid.cred, s'.cred);
    }
  }

  lemma SameStorageChains(a: Cred, b: Cred, c: Cred)
    requires SameStorage(a, b) && SameStorage(b, c)
    ensures SameStorage(a, c)
  {
  }

  // ---- Close's session DELETE

  /** It is some request, sent once Close has begun. */
  predicate DeleteOk(s: State) {
    s.life.deleting.Some? ==> s.life.deleting.value < |s.reqs| && s.life.closeStarted
  }

  /** What of a step concerns it. */
  predicate DeleteStays(s: State, s': State) {
    |s'.reqs| == |s.reqs| && s'.life.deleting == s.life.deleting && (s.life.closeStarted ==> s'.life.closeStarted)
  }

  lemma ConnectLeavesDelete(s: State, a: ConAct, s': State)
    requires ConNext(s, a) == Some(s')
    ensures DeleteStays(s, s')
  {
    hide SetupNext, InstallNext, PublishNext;
    if InSetup(s.con) {
      if ConHolds(s.con) {
        InstallMovesClients(s, a, s');
        InstallLeavesRequests(s, a, s');
      } else {
        SetupKeepsLife(s, a, s');
        SetupLeavesRequests(s, a, s');
      }
    } else {
      PublishLeavesDelete(s, a, s');
    }
  }

  lemma InstallLeavesRequests(s: State, a: ConAct, s': State)
    requires InstallNext(s, a) == Some(s')
    ensures s'.reqs == s.reqs
  {
  }

  lemma SetupLeavesRequests(s: State, a: ConAct, s': State)
    requires SetupNext(s, a) == Some(s')
    ensures s'.reqs == s.reqs
  {
    hide Track, TrackedAs, Wipe, Register, Stored, StoredAs, Granted;
  }

  lemma PublishLeavesDelete(s: State, a: ConAct, s': State)
    requires PublishNext(s, a) == Some(s')
    ensures DeleteStays(s, s')
  {
  }

  lemma ShutKeepsDelete(s: State, a: ShutAct, s': State)
    requires DeleteOk(s) && ShutNext(s, a) == Some(s')
    ensures DeleteOk(s') && |s'.reqs| == |s.reqs|
  {
    hide ShutStepCred;
  }

  lemma StepKeepsDelete(s: State, a: Action, s': State)
    requires DeleteOk(s) && Next(s, a) == Some(s')
    ensures DeleteOk(s') && |s'.reqs| == |s.reqs|
  {
    hide ReqStep, ConNext, ShutNext, RecNext;
    match a
    case OfRequest(t, r) =>
    case OfConnect(c) => ConnectLeavesDelete(s, c, s');
    case OfShutdown(x) => ShutKeepsDelete(s, x, s');
    case OfReconnect(t, r) => RecKeepsCred(s, t, r, s');
    case OfBackground(_) =>
  }

  lemma {:induction false} RunKeepsDelete(s: State, schedule: seq<Action>, s': State)
    requires DeleteOk(s) && Run(s, schedule) == Some(s')
    ensures DeleteOk(s') && |s'.reqs| == |s.reqs|
  {
    hide DeleteOk, Next, Run;
    if schedule == [] {
      RunNothing(s);
    } else {
      var mid := RunLast(s, schedule, s');
      RunKeepsDelete(s, schedule[..|schedule| - 1], mid);
      StepKeepsDelete(mid, schedule[|schedule| - 1], s');
    }
  }

  lemma ReachableDelete(s: State)
    requires Reachable(s)
    ensures DeleteOk(s)
  {
    var n: nat, m: nat, schedule: seq<Action> :| Run(InitState(n, m), schedule) == Some(s);
    hide Run;
    RunKeepsDelete(InitState(n, m), schedule, s);
  }

  /** Until Close has returned nothing is wiped. */
  lemma NothingWipedBeforeClose(s: State)
    requires Reachable(s) && !s.life.closeReturned
    ensures !s.cred.zeroed && !s.cred.redClosed && Rank(s.life.shut) < 4
  {
    hide HandleInv, CredOk, RequestsOk, LocksOk, ConOk, Reachable;
    ReachableHolds(s);
  }

  lemma SendingMeansClosing(s: State)
    requires Reachable(s) && s.life.deleting.Some?
    ensures s.life.closing && s.life.closeStarted
  {
    hide CredOk, RequestsOk, LocksOk, ConOk, Reachable, RmuOk, CountsOk, ClientsOk, BackgroundOk, Untouched;
    ReachableDelete(s);
    ReachableHolds(s);
  }

  /**
   While Close waits for its DELETE, the DELETE's token call is turned away only for a recorded failure or for want of a
   token, and it never refreshes: step by step it gets to the token that is held.
   */
  lemma DeleteGetsItsToken(s: State, t: nat, a: ReqAct, s': State)
    requires Reachable(s) && s.life.deleting == Some(t) && !s.life.closeReturned && t < |s.reqs|
    requires s.cred.failure.None? && s.cred.tok.Some? && !a.Cancel?
    requires s.reqs[t].pc.Locked? && Asks(s.reqs[t].pc.pc) && s.reqs[t].pc.pc.call == First(true)
    requires ReqNext(s, t, a) == Some(s')
    ensures s'.reqs[t].pc
         == match s.reqs[t].pc.pc
            case SeeZeroed(_) => Locked(SeeTerminal(First(true)))
            case SeeTerminal(_) => Locked(SeeExpiry(First(true)))
            case SeeExpiry(_) => Locked(Give(First(true)))
            case _ => Sent(First(true), AccessValue(s.cred))
    ensures AccessValue(s.cred) != ""
  {
    hide Reachable, CredInv, HandleInv, ReqNext;
    NothingWipedBeforeClose(s);
    SendingMeansClosing(s);
    ReachableHolds(s);
    HeldTokenIsLive(s, t);
    assert ReqNext(s, t, a).Some?;
    AskingStep(s, t, a, s');
  }

  /** accessToken, before it refreshes anything. */
  predicate Asks(pc: LockedPc) {
    pc.SeeZeroed? || pc.SeeTerminal? || pc.SeeExpiry? || pc.Give?
  }

  lemma HeldTokenIsLive(s: State, t: nat)
    requires CredInv(s) && t < |s.reqs| && s.reqs[t].pc.Locked? && Asks(s.reqs[t].pc.pc) && !s.cred.zeroed
    requires s.cred.failure.None? && s.cred.tok.Some?
    ensures s.cred.lock == HeldByRequest(t) && AccessValue(s.cred) != ""
  {
    hide StorageOk, RedactorOk, HistoryOk, RotationOk, MarkOk, AllWiped, ConOk;
    HolderIs(s, t);
  }

  lemma AskingStep(s: State, t: nat, a: ReqAct, s': State)
    requires t < |s.reqs| && s.reqs[t].pc.Locked? && Asks(s.reqs[t].pc.pc) && s.reqs[t].pc.pc.call == First(true)
    requires s.cred.lock == HeldByRequest(t) && !s.cred.zeroed && s.cred.failure.None? && s.cred.tok.Some?
    requires s.life.closing && AccessValue(s.cred) != "" && !a.Cancel? && ReqNext(s, t, a) == Some(s')
    ensures s'.reqs[t].pc
         == match s.reqs[t].pc.pc
            case SeeZeroed(_) => Locked(SeeTerminal(First(true)))
            case SeeTerminal(_) => Locked(SeeExpiry(First(true)))
            case SeeExpiry(_) => Locked(Give(First(true)))
            case _ => Sent(First(true), AccessValue(s.cred))
  {
    hide RefreshStep;
  }

  // ---- reconnects and clients

  /** Over the life of a remote, reconnect dials at most maxRespawns times and the generation trails the count. */
  lemma ReconnectsAreBounded(s: State)
    requires Reachable(s)
    ensures s.handle.dials <= 3
    ensures s.handle.gen <= s.handle.reconnects <= s.handle.dials
  {
    ReachableHolds(s);
    hide CredInv, RmuOk, ClientsOk, PhaseOk, BackgroundOk;
  }

  /** A caller whose generation was replaced gets the current client and dials nothing. */
  lemma StaleCallerReusesClient(s: State, t: nat, a: RecAct, s': State)
    requires Reachable(s) && t < |s.recs| && s.recs[t].pc.NRead? && !a.RecCancel?
    requires !s.handle.closed && s.recs[t].pc.gen != s.handle.gen
    requires RecNext(s, t, a) == Some(s')
    ensures s.handle.client.Some? && s'.recs[t].pc == NUnlock(s.handle.client)
    ensures s'.handle == s.handle
  {
    ReachableHolds(s);
    hide CredInv, CountsOk, ClientsOk, BackgroundOk;
  }

  function Count(b: bool): nat {
    if b then 1 else 0
  }

  /** How many parties have the client. */
  function Duties(r: Roles, c: nat): nat {
    Count(Has(r.current, c)) + Count(c in r.closers) + Count(Has(r.dialed, c)) + Count(Has(r.connect, c))
    + Count(Has(r.taken, c)) + Count(Has(r.closing, c))
  }

  /**
   Every client ever opened is closed, or exactly one party has it; only the failing ConnectRemote still has the client
   that it gave to doShutdown, and closes it too.
   */
  lemma ClientsAreAccountedFor(s: State, c: nat)
    requires Reachable(s) && c < s.handle.created && c !in s.handle.shut
    ensures Duties(RolesAt(s), c) == 1
            || (Duties(RolesAt(s), c) == 2 && Has(RolesAt(s).connect, c) && Has(RolesAt(s).closing, c))
  {
    hide CredInv, Reachable, Redialer, Duties;
    ReachableHolds(s);
    hide RmuOk, CountsOk, PhaseOk, BackgroundOk;
    OwnersAreFew(RolesAt(s), c);
  }

  lemma OwnersAreFew(r: Roles, c: nat)
    requires OwnersOk(r) && c < r.created && c !in r.shut
    ensures Duties(r, c) == 1 || (Duties(r, c) == 2 && Has(r.connect, c) && Has(r.closing, c))
  {
    assert Owned(r, c);
  }

  lemma StepKeepsClosed(s: State, a: Action, s': State)
    requires Next(s, a) == Some(s') && s.handle.closed && s.life.published
    requires s.con.CPublished? || s.con.CDone?
    ensures s'.handle.closed
  {
    hide ReqStep, SetupNext, InstallNext, ShutStepLife, ShutStepCred;
  }

  /** After remoteHandle.shutdown the handle has no client, forever. */
  lemma {:induction false} ClosedHandleStaysEmpty(s: State, schedule: seq<Action>, s': State)
    requires Reachable(s) && s.handle.closed && Run(s, schedule) == Some(s')
    ensures s'.handle.closed && s'.handle.client.None?
    decreases |schedule|
  {
    hide CredInv, Next, Reachable;
    ReachableChains(s, schedule, s');
    ReachableHolds(s');
    if schedule != [] {
      var mid := Run(s, schedule[..|schedule| - 1]).value;
      ClosedHandleStaysEmpty(s, schedule[..|schedule| - 1], mid);
      ReachableChains(s, schedule[..|schedule| - 1], mid);
      ReachableHolds(mid);
      StepKeepsClosed(mid, schedule[|schedule| - 1], s');
    }
    hide RmuOk, CountsOk, ClientsOk, BackgroundOk;
  }

  // ---- is every client closed in the end?

  /** Everyone is done: connect, reconnects, background closes and every shutdown call. */
  predicate Quiet(s: State) {
    && s.con.CDone? && s.life.shut.SDone? && s.life.bg == 0
    && (forall t :: 0 <= t < |s.recs| ==> s.recs[t].pc.NIdle?)
    && (s.life.published ==> s.life.handleShut.HWon? || s.life.handleShut.HLost?)
  }

  ghost predicate AllClosed(h: Handle) {
    forall c: nat :: c < h.created ==> c in h.shut
  }

  lemma QuietOwners(s: State)
    requires HandleInv(s.life, s.handle, s.con, s.recs) && Quiet(s)
    ensures RolesAt(s).current.None? && RolesAt(s).closers == {} && RolesAt(s).dialed.None? && RolesAt(s).connect.None?
    ensures RolesAt(s).taken.Some? <==> OtherWon(s.life)
    ensures OwnersOk(RolesAt(s))
  {
    hide OwnersOk;
  }

  /**
   Exactly when shutdown was not first entered for a pending remote that was already published, nor by a second
   Manager.Shutdown that overtook the one with the client.
   */
  lemma AllClosedExactlyUnless(s: State)
    requires Reachable(s) && Quiet(s)
    ensures AllClosed(s.handle) <==> !OtherWon(s.life)
  {
    hide CredInv, Reachable, HandleInv, Redialer;
    ReachableHolds(s);
    QuietOwners(s);
    WipeComesLast(s);
    var r := RolesAt(s);
    if !OtherWon(s.life) {
      forall c: nat | c < r.created ensures c in r.shut {
        assert c !in r.shut ==> Owned(r, c);
      }
    }
  }
}
