/** Which client a reconnect replaces, what its callers get, and when none dials any more. */
module RemoteReconnects {
  import opened Wrappers
  import opened RemoteModel
  import opened RemoteInvariant
  import opened RemoteRequestProof
  import opened RemoteLifecycleProof
  import opened RemoteHandleProof
  import opened RemoteTheorems
  import opened RemoteCalls

  // ---- the handle over a step

  /** The generation names the client: another client means a later one, or a handle that is closed. */
  predicate NamedByGen(h: Handle, h': Handle) {
    h.gen <= h'.gen && (h.closed ==> h'.closed) && (h'.gen == h.gen && !h'.closed ==> h'.client == h.client)
  }

  lemma ConnectKeepsClient(s: State, a: ConAct, s': State)
    requires PhaseOk(s.life, s.handle, s.con, s.recs) && s.life.published && ConNext(s, a) == Some(s')
    ensures s'.handle == s.handle && s'.life.published
  {
    hide Untouched, Rank, SetupNext, InstallNext;
  }

  lemma ShutNames(s: State, a: ShutAct, s': State)
    requires ShutNext(s, a) == Some(s')
    ensures NamedByGen(s.handle, s'.handle) && s'.life.published == s.life.published
  {
    hide ShutStepCred;
  }

  lemma RecNames(s: State, t: nat, a: RecAct, s': State)
    requires t < |s.recs| && RecNext(s, t, a) == Some(s')
    ensures NamedByGen(s.handle, s'.handle) && s'.life.published == s.life.published
  {
    hide RecNext;
    var pc := s.recs[t].pc;
    if a.RecCancel? || !HoldsRmu(pc) || pc.NUnlock? {
      RecWaits(s, t, a, s');
    } else if pc.NDialing? {
      RecDials(s, t, a, s');
    } else if pc.NDialed? {
      RecInstalls(s, t, a, s');
    } else if pc.NDrop? {
      RecDrops(s, t, a, s');
    } else {
      RecActs(s, t, a, s');
      RecLooks(s, t, a, s');
    }
  }

  lemma StepNames(s: State, a: Action, s': State)
    requires PhaseOk(s.life, s.handle, s.con, s.recs) && s.life.published && Next(s, a) == Some(s')
    ensures NamedByGen(s.handle, s'.handle) && s'.life.published
  {
    hide PhaseOk, ReqStep, ConNext, ShutNext, RecNext;
    match a
    case OfRequest(t, r) =>
    case OfConnect(c) => ConnectKeepsClient(s, c, s');
    case OfShutdown(x) => ShutNames(s, x, s');
    case OfReconnect(t, r) => RecNames(s, t, r, s');
    case OfBackground(_) =>
  }

  lemma PhaseOf(s: State)
    requires Reachable(s)
    ensures PhaseOk(s.life, s.handle, s.con, s.recs) && RmuOk(s.handle, s.recs)
  {
    hide CredInv, PhaseOk, RmuOk, CountsOk, ClientsOk, BackgroundOk, Reachable;
    ReachableHolds(s);
  }

  lemma NamesChain(a: Handle, b: Handle, c: Handle)
    requires NamedByGen(a, b) && NamedByGen(b, c)
    ensures NamedByGen(a, c)
  {
  }

  /** Over any run a published handle has another client only under a later generation. */
  lemma {:induction false} GenerationNamesClient(s: State, schedule: seq<Action>, s': State)
    requires Reachable(s) && s.life.published && Run(s, schedule) == Some(s')
    ensures NamedByGen(s.handle, s'.handle) && s'.life.published
  {
    hide Reachable, Run, Next, NamedByGen, PhaseOk;
    if schedule == [] {
      RunNothing(s);
      NamedBySelf(s.handle);
    } else {
      var front := schedule[..|schedule| - 1];
      var mid := RunLast(s, schedule, s');
      GenerationNamesClient(s, front, mid);
      ReachableChains(s, front, mid);
      PhaseOf(mid);
      StepNames(mid, schedule[|schedule| - 1], s');
      NamesChain(s.handle, mid.handle, s'.handle);
    }
  }

  lemma NamedBySelf(h: Handle)
    ensures NamedByGen(h, h)
  {
  }

  // ---- the caller that holds the lock

  /** A caller that has found its generation current, and one that has its answer. */
  predicate CallersOk(h: Handle, recs: seq<Reconnector>) {
    forall t :: 0 <= t < |recs| ==> CallerOk(h, recs[t].pc)
  }

  predicate CallerOk(h: Handle, pc: RecPc) {
    (Counted(pc) ==> pc.gen == h.gen) && (pc.NUnlock? && pc.result.Some? ==> h.client == pc.result || h.closed)
  }

  lemma RecKeepsCallers(s: State, t: nat, a: RecAct, s': State)
    requires RmuOk(s.handle, s.recs) && CallersOk(s.handle, s.recs) && t < |s.recs| && RecNext(s, t, a) == Some(s')
    ensures CallersOk(s'.handle, s'.recs)
  {
    hide CallerOk, RecNext;
    NobodyElse(s, t, a, s');
    OwnCaller(s, t, a, s');
    forall u | 0 <= u < |s'.recs| ensures CallerOk(s'.handle, s'.recs[u].pc) {
      if u != t {
        OtherCaller(s, t, u, s');
      }
    }
  }

  /** While somebody else holds the lock a caller has neither found anything nor got an answer. */
  lemma OtherCaller(s: State, t: nat, u: nat, s': State)
    requires t < |s.recs| && u < |s.recs| && u != t && CallersOk(s.handle, s.recs)
    requires (s'.handle.gen == s.handle.gen && s'.handle.client == s.handle.client && s'.handle.closed == s.handle.closed)
             || !HoldsRmu(s.recs[u].pc)
    requires |s'.recs| == |s.recs| && s'.recs == s.recs[t := s'.recs[t]]
    ensures CallerOk(s'.handle, s'.recs[u].pc)
  {
    assert CallerOk(s.handle, s.recs[u].pc);
  }

  lemma NobodyElse(s: State, t: nat, a: RecAct, s': State)
    requires RmuOk(s.handle, s.recs) && t < |s.recs| && RecNext(s, t, a) == Some(s')
    ensures |s'.recs| == |s.recs| && s'.recs == s.recs[t := s'.recs[t]]
    ensures (s'.handle.gen == s.handle.gen && s'.handle.client == s.handle.client && s'.handle.closed == s.handle.closed)
            || forall u :: 0 <= u < |s.recs| && u != t ==> !HoldsRmu(s.recs[u].pc)
  {
    hide RecNext;
    var pc := s.recs[t].pc;
    if a.RecCancel? || !HoldsRmu(pc) || pc.NUnlock? {
      RecWaits(s, t, a, s');
    } else if pc.NDialing? {
      RecDials(s, t, a, s');
    } else if pc.NDialed? {
      RecInstalls(s, t, a, s');
    } else if pc.NDrop? {
      RecDrops(s, t, a, s');
    } else {
      RecActs(s, t, a, s');
      RecLooks(s, t, a, s');
    }
  }

  lemma OwnCaller(s: State, t: nat, a: RecAct, s': State)
    requires t < |s.recs| == |s'.recs| && CallerOk(s.handle, s.recs[t].pc) && RecNext(s, t, a) == Some(s')
    ensures CallerOk(s'.handle, s'.recs[t].pc)
  {
    var pc := s.recs[t].pc;
    if pc.NDialed? && !a.RecCancel? {
      RecInstalls(s, t, a, s');
      hide RecNext;
    } else if a.RecCancel? || !HoldsRmu(pc) || pc.NUnlock? {
      RecWaits(s, t, a, s');
      hide RecNext;
    }
  }

  lemma StepKeepsCallers(s: State, a: Action, s': State)
    requires RmuOk(s.handle, s.recs) && PhaseOk(s.life, s.handle, s.con, s.recs) && CallersOk(s.handle, s.recs)
    requires Next(s, a) == Some(s')
    ensures CallersOk(s'.handle, s'.recs)
  {
    hide PhaseOk, RmuOk, ReqStep, ConNext, ShutNext, RecNext, CallerOk;
    match a
    case OfRequest(t, r) =>
    case OfConnect(c) => ConnectKeepsCallers(s, c, s');
    case OfShutdown(x) => ShutKeepsCallers(s, x, s');
    case OfReconnect(t, r) => RecKeepsCallers(s, t, r, s');
    case OfBackground(_) =>
      forall u | 0 <= u < |s.recs| ensures CallerOk(s'.handle, s.recs[u].pc) {
        SameForCaller(s.handle, s'.handle, s.recs[u].pc);
      }
  }

  lemma SameForCaller(h: Handle, h': Handle, pc: RecPc)
    requires CallerOk(h, pc) && h'.gen == h.gen && (h.closed ==> h'.closed)
    requires h'.client == h.client || h'.closed || pc.NIdle?
    ensures CallerOk(h', pc)
  {
  }

  lemma ConnectKeepsCallers(s: State, a: ConAct, s': State)
    requires PhaseOk(s.life, s.handle, s.con, s.recs) && CallersOk(s.handle, s.recs) && ConNext(s, a) == Some(s')
    ensures CallersOk(s'.handle, s'.recs)
  {
    hide CallerOk, Rank;
    ConnectAndHandle(s, a, s');
    hide ConNext;
    forall u | 0 <= u < |s.recs| ensures CallerOk(s'.handle, s.recs[u].pc) {
      SameForCaller(s.handle, s'.handle, s.recs[u].pc);
    }
  }

  lemma ConnectAndHandle(s: State, a: ConAct, s': State)
    requires ConNext(s, a) == Some(s')
    ensures s'.recs == s.recs && s'.handle.gen == s.handle.gen && s'.handle.closed == s.handle.closed
    ensures s'.handle.client == s.handle.client || s.con.CListing?
  {
    hide SetupNext, InstallNext, Moves, RolesAt;
    if InSetup(s.con) {
      hide PublishNext;
      if ConHolds(s.con) {
        InstallMovesClients(s, a, s');
      } else if s.con.CDialing? || s.con.CDialed? || s.con.CCloseOwn? || s.con.CUnwind? {
        DialMovesClients(s, a, s');
      } else {
        ConsentMovesNone(s, a, s');
      }
    }
  }

  lemma ShutKeepsCallers(s: State, a: ShutAct, s': State)
    requires CallersOk(s.handle, s.recs) && ShutNext(s, a) == Some(s')
    ensures CallersOk(s'.handle, s'.recs)
  {
    hide CallerOk;
    ShutAndHandle(s, a, s');
    hide ShutNext;
    forall u | 0 <= u < |s.recs| ensures CallerOk(s'.handle, s.recs[u].pc) {
      SameForCaller(s.handle, s'.handle, s.recs[u].pc);
    }
  }

  lemma ShutAndHandle(s: State, a: ShutAct, s': State)
    requires ShutNext(s, a) == Some(s')
    ensures s'.recs == s.recs && s'.handle.gen == s.handle.gen && (s.handle.closed ==> s'.handle.closed)
    ensures s'.handle.client == s.handle.client || s'.handle.closed
  {
    hide ShutStepCred;
  }

  lemma {:induction false} RunKeepsCallers(s: State, schedule: seq<Action>, s': State)
    requires Reachable(s) && CallersOk(s.handle, s.recs) && Run(s, schedule) == Some(s')
    ensures CallersOk(s'.handle, s'.recs)
  {
    hide Reachable, Run, Next, CallersOk, PhaseOk, RmuOk;
    if schedule == [] {
      RunNothing(s);
    } else {
      var front := schedule[..|schedule| - 1];
      var mid := RunLast(s, schedule, s');
      RunKeepsCallers(s, front, mid);
      ReachableChains(s, front, mid);
      PhaseOf(mid);
      StepKeepsCallers(mid, schedule[|schedule| - 1], s');
    }
  }

  lemma ReachableCallers(s: State)
    requires Reachable(s)
    ensures CallersOk(s.handle, s.recs)
  {
    var n: nat, m: nat, schedule: seq<Action> :| Run(InitState(n, m), schedule) == Some(s);
    hide Run;
    RunNothing(InitState(n, m));
    assert Reachable(InitState(n, m));
    RunKeepsCallers(InitState(n, m), schedule, s);
  }

  /**
   A caller that goes on to dial replaces the very client its generation stood for, whatever happened since it took its
   snapshot: no client that replaced the failed one is ever replaced for it.
   */
  lemma ReplacesOnlyWhatFailed(s: State, schedule: seq<Action>, s': State, t: nat)
    requires Reachable(s) && s.life.published && Run(s, schedule) == Some(s') && t < |s'.recs|
    requires Counted(s'.recs[t].pc) && s'.recs[t].pc.gen == s.handle.gen
    ensures s'.handle.gen == s.handle.gen && (!s'.handle.closed ==> s'.handle.client == s.handle.client)
  {
    hide Reachable, Run;
    GenerationNamesClient(s, schedule, s');
    ReachableChains(s, schedule, s');
    ReachableCallers(s');
    assert CallerOk(s'.handle, s'.recs[t].pc);
  }

  /** The client a caller is given is the handle's, unless the handle has been closed since. */
  lemma AnswerIsCurrent(s: State, t: nat)
    requires Reachable(s) && t < |s.recs| && s.recs[t].pc.NUnlock? && s.recs[t].pc.result.Some?
    ensures s.handle.client == s.recs[t].pc.result || s.handle.closed
  {
    hide Reachable;
    ReachableCallers(s);
    assert CallerOk(s.handle, s.recs[t].pc);
  }

  // ---- no new dials

  /** The caller that holds the lock has looked at the manager's flag, and perhaps at the failure. */
  predicate PastDown(pc: RecPc) {
    pc.NFailure? || pc.NClosing?
  }

  /** Dials made or still to be made by a caller that has looked already. */
  function DialsSinceDown(s: State): nat {
    s.handle.dials + if PastDown(Redialer(s.handle, s.recs)) then 1 else 0
  }

  function DialsSinceFailure(s: State): nat {
    s.handle.dials + if Redialer(s.handle, s.recs).NClosing? then 1 else 0
  }

  predicate NoMore(s: State, s': State) {
    && (s.life.down ==> DialsSinceDown(s') <= DialsSinceDown(s))
    && (s.cred.failure.Some? ==> DialsSinceFailure(s') <= DialsSinceFailure(s))
    && (s.life.closing ==> s'.handle.dials <= s.handle.dials)
  }

  lemma RecNoMore(s: State, t: nat, a: RecAct, s': State)
    requires RmuOk(s.handle, s.recs) && t < |s.recs| && RecNext(s, t, a) == Some(s')
    ensures NoMore(s, s')
  {
    var pc := s.recs[t].pc;
    if a.RecCancel? || !HoldsRmu(pc) || pc.NUnlock? {
      RecWaits(s, t, a, s');
      hide RecNext;
    } else if pc.NDialing? {
      RecDials(s, t, a, s');
      hide RecNext;
    } else if pc.NDialed? {
      RecInstalls(s, t, a, s');
      hide RecNext;
    } else if pc.NDrop? {
      RecDrops(s, t, a, s');
      hide RecNext;
    } else {
      LookingNoMore(s, t, a, s');
      hide RecNext;
    }
  }

  lemma LookingNoMore(s: State, t: nat, a: RecAct, s': State)
    requires s.handle.rmu == Some(t) && t < |s.recs| && Looking(s.recs[t].pc) && !a.RecCancel?
    requires RecNext(s, t, a) == Some(s')
    ensures NoMore(s, s')
  {
  }

  lemma SameDials(s: State, s': State)
    requires s'.handle.dials == s.handle.dials && s'.handle.rmu == s.handle.rmu && s'.recs == s.recs
    ensures NoMore(s, s')
  {
  }

  lemma StepNoMore(s: State, a: Action, s': State)
    requires RmuOk(s.handle, s.recs) && Next(s, a) == Some(s')
    ensures NoMore(s, s')
  {
    hide RmuOk, ReqStep, ConNext, ShutNext, RecNext, NoMore;
    match a
    case OfRequest(t, r) => SameDials(s, s');
    case OfConnect(c) =>
      ConnectDials(s, c, s');
      SameDials(s, s');
    case OfShutdown(x) =>
      ShutDials(s, x, s');
      SameDials(s, s');
    case OfReconnect(t, r) => RecNoMore(s, t, r, s');
    case OfBackground(_) => SameDials(s, s');
  }

  lemma ConnectDials(s: State, a: ConAct, s': State)
    requires ConNext(s, a) == Some(s')
    ensures s'.handle.dials == s.handle.dials && s'.handle.rmu == s.handle.rmu && s'.recs == s.recs
  {
    hide SetupNext, InstallNext, PublishNext, Moves, RolesAt;
    if !InSetup(s.con) {
      PublishShape(s, a, s');
    } else if ConHolds(s.con) {
      InstallMovesClients(s, a, s');
    } else if s.con.CDialing? || s.con.CDialed? || s.con.CCloseOwn? || s.con.CUnwind? {
      DialMovesClients(s, a, s');
    } else {
      ConsentMovesNone(s, a, s');
    }
  }

  lemma ShutDials(s: State, a: ShutAct, s': State)
    requires ShutNext(s, a) == Some(s')
    ensures s'.handle.dials == s.handle.dials && s'.handle.rmu == s.handle.rmu && s'.recs == s.recs
  {
    hide ShutStepCred;
  }

  lemma FlagsStay(s: State, schedule: seq<Action>, s': State)
    requires Reachable(s) && Run(s, schedule) == Some(s')
    ensures (s.life.down ==> s'.life.down) && (s.life.closing ==> s'.life.closing)
    ensures s.cred.failure.Some? ==> s'.cred.failure.Some?
    ensures RmuOk(s'.handle, s'.recs)
  {
    hide Run, Reachable, RmuOk, CredInv, HandleInv, PhaseOk;
    ReachableHolds(s);
    RunIsLater(s, schedule, s');
    ReachableChains(s, schedule, s');
    PhaseOf(s');
    if s.cred.failure.Some? {
      FirstFailureStays(s, schedule, s');
    }
    if s.life.closing {
      ClosingMeansRank(s);
      ClosingStays(s, schedule, s');
    }
  }

  /**
   After Manager.Shutdown has set its flag, and after a failure, at most the caller that has looked before dials once
   more; once the remote is closing nobody does.
   */
  lemma {:induction false} NoNewDials(s: State, schedule: seq<Action>, s': State)
    requires Reachable(s) && Run(s, schedule) == Some(s')
    ensures NoMore(s, s')
  {
    hide Reachable, Run, Next, RmuOk, DialsSinceDown, DialsSinceFailure;
    if schedule == [] {
      RunNothing(s);
    } else {
      var front := schedule[..|schedule| - 1];
      var mid := RunLast(s, schedule, s');
      NoNewDials(s, front, mid);
      FlagsStay(s, front, mid);
      StepNoMore(mid, schedule[|schedule| - 1], s');
    }
  }

  // ---- no new sessions, no new tokens

  /** Sessions opened or still to be opened by those who have looked at the failure already. */
  function SessionsSinceFailure(s: State): nat {
    s.handle.created + (if s.con.CDialClosing? || s.con.CDialing? then 1 else 0)
    + if DialsBlindly(Redialer(s.handle, s.recs)) then 1 else 0
  }

  predicate DialsBlindly(pc: RecPc) {
    pc.NDialClosing? || pc.NDialing?
  }

  /** And by those who have looked at the closing flag. */
  function SessionsSinceClosing(s: State): nat {
    s.handle.created + (if s.con.CDialing? then 1 else 0) + if Redialer(s.handle, s.recs).NDialing? then 1 else 0
  }

  predicate NoMoreSessions(s: State, s': State) {
    && (s.cred.failure.Some? ==> SessionsSinceFailure(s') <= SessionsSinceFailure(s))
    && (s.life.closing ==> SessionsSinceClosing(s') <= SessionsSinceClosing(s))
    && (s.life.closing && s.cred.tok.None? && !s.con.CInstall? ==> s'.cred.tok.None? && !s'.con.CInstall?)
    && (s.con.CDone? ==> s'.con.CDone? && (!s.life.pending ==> !s'.life.pending))
  }

  lemma RequestOpensNone(s: State, t: nat, a: ReqAct, s': State)
    requires CredInv(s) && t < |s.reqs| && ReqNext(s, t, a) == Some(s')
    ensures s.cred.tok.None? ==> s'.cred.tok.None?
  {
    hide LockedStep, AnswerStep, EntryStep, CredInv;
    var r, c, closing := s.reqs[t], s.cred, s.life.closing;
    if !a.Cancel? {
      if r.pc.Locked? {
        var m := LockedStep(r.pc.pc, r.ctxDone, c, closing, a).value;
        if r.pc.pc.Refreshing? {
          RefreshKeepsRest(r.pc.pc, r.ctxDone, c, closing, a, m);
        } else {
          LockedKeepsRest(r.pc.pc, r.ctxDone, c, closing, a, m);
        }
      } else if r.pc.Sent? || r.pc.MarkLoad? || r.pc.MarkSwap? || r.pc.Terminate? {
        AnswerLeavesStorage(r, c, a);
      } else {
        EntryLeavesStorage(t, r, c, closing, a);
      }
    }
  }

  lemma ConnectOpensNone(s: State, a: ConAct, s': State)
    requires ConNext(s, a) == Some(s')
    ensures NoMoreSessions(s, s')
  {
    hide Track, TrackedAs, Wipe, Register, Stored, StoredAs, Granted, Redialer, PublishNext;
    if InSetup(s.con) {
      ConnectDials(s, a, s');
      SameRedialer(s, s');
      if ConHolds(s.con) {
        InstallOpensNone(s, a, s');
        hide InstallNext, SetupNext;
      } else if DialPc(s.con) {
        DialOpensNone(s, a, s');
        hide InstallNext, SetupNext;
      } else {
        ConsentOpensNone(s, a, s');
        hide InstallNext, SetupNext;
      }
    } else {
      PublishShape(s, a, s');
      SameRedialer(s, s');
      PublishOpensNone(s, a, s');
    }
  }

  lemma SameRedialer(s: State, s': State)
    requires s'.handle.rmu == s.handle.rmu && s'.recs == s.recs
    ensures Redialer(s'.handle, s'.recs) == Redialer(s.handle, s.recs)
  {
  }

  /** What of connect's step matters here. */
  predicate ConnectOpens(s: State, s': State) {
    && s'.life.closing == s.life.closing
    && (s.cred.failure.Some? ==>
          s'.handle.created + (if s'.con.CDialClosing? || s'.con.CDialing? then 1 else 0)
          <= s.handle.created + (if s.con.CDialClosing? || s.con.CDialing? then 1 else 0))
    && (s.life.closing ==>
          s'.handle.created + (if s'.con.CDialing? then 1 else 0)
          <= s.handle.created + (if s.con.CDialing? then 1 else 0))
    && (s.life.closing && s.cred.tok.None? && !s.con.CInstall? ==> s'.cred.tok.None? && !s'.con.CInstall?)
    && (s.con.CDone? ==> s'.con.CDone? && (!s.life.pending ==> !s'.life.pending))
  }

  lemma InstallOpensNone(s: State, a: ConAct, s': State)
    requires InstallNext(s, a) == Some(s')
    ensures ConnectOpens(s, s')
  {
  }

  lemma DialOpensNone(s: State, a: ConAct, s': State)
    requires DialPc(s.con) && SetupNext(s, a) == Some(s')
    ensures ConnectOpens(s, s')
  {
    hide Track, TrackedAs, Wipe, Register, Stored, StoredAs, Granted;
  }

  lemma ConsentOpensNone(s: State, a: ConAct, s': State)
    requires !DialPc(s.con) && SetupNext(s, a) == Some(s')
    ensures ConnectOpens(s, s')
  {
    TokStays(s.cred);
    hide Track, TrackedAs, Wipe, Register, Stored, StoredAs, Granted;
  }

  lemma TokStays(c: Cred)
    ensures forall v :: Track(c, v).tok == c.tok
    ensures forall v, w :: Register(Stored(c, v), w).tok == c.tok
    ensures forall ids :: Wipe(c, ids).tok == c.tok
    ensures forall v, ids :: Wipe(Track(c, v), ids).tok == c.tok
  {
  }

  lemma PublishOpensNone(s: State, a: ConAct, s': State)
    requires PublishNext(s, a) == Some(s')
    ensures ConnectOpens(s, s')
  {
  }

  lemma ShutOpensNone(s: State, a: ShutAct, s': State)
    requires ShutNext(s, a) == Some(s')
    ensures s'.handle.created == s.handle.created && s'.con == s.con && s'.cred.tok == s.cred.tok
    ensures s'.life.pending == s.life.pending
  {
  }

  lemma RecOpensNone(s: State, t: nat, a: RecAct, s': State)
    requires RmuOk(s.handle, s.recs) && t < |s.recs| && RecNext(s, t, a) == Some(s')
    ensures NoMoreSessions(s, s')
  {
    RecKeepsCred(s, t, a, s');
    var pc := s.recs[t].pc;
    if a.RecCancel? || !HoldsRmu(pc) || pc.NUnlock? {
      RecWaits(s, t, a, s');
      hide RecNext;
    } else if pc.NDialing? {
      RecDials(s, t, a, s');
      hide RecNext;
    } else if pc.NDialed? {
      RecInstalls(s, t, a, s');
      hide RecNext;
    } else if pc.NDrop? {
      RecDrops(s, t, a, s');
      hide RecNext;
    } else {
      RecActs(s, t, a, s');
      RecLooks(s, t, a, s');
      LooksBeforeDialing(s, t, a, s');
      hide RecNext;
    }
  }

  lemma LooksBeforeDialing(s: State, t: nat, a: RecAct, s': State)
    requires t < |s.recs| == |s'.recs| && Looking(s.recs[t].pc) && !a.RecCancel? && RecNext(s, t, a) == Some(s')
    ensures s.cred.failure.Some? && DialsBlindly(s'.recs[t].pc) ==> DialsBlindly(s.recs[t].pc)
    ensures s.life.closing ==> !s'.recs[t].pc.NDialing?
  {
  }

  lemma StepOpensNone(s: State, a: Action, s': State)
    requires CredInv(s) && RmuOk(s.handle, s.recs) && Next(s, a) == Some(s')
    ensures NoMoreSessions(s, s')
  {
    hide CredInv, RmuOk, ReqNext, ConNext, ShutNext, RecNext;
    match a
    case OfRequest(t, r) =>
      RequestOpensNone(s, t, r, s');
      RequestLeavesRest(s, t, r, s');
      SameRedialer(s, s');
    case OfConnect(c) => ConnectOpensNone(s, c, s');
    case OfShutdown(x) =>
      ShutOpensNone(s, x, s');
      ShutDials(s, x, s');
      SameRedialer(s, s');
    case OfReconnect(t, r) => RecOpensNone(s, t, r, s');
    case OfBackground(_) => SameRedialer(s, s');
  }

  lemma RequestLeavesRest(s: State, t: nat, a: ReqAct, s': State)
    requires t < |s.reqs| && ReqNext(s, t, a) == Some(s')
    ensures s'.life == s.life && s'.handle == s.handle && s'.con == s.con && s'.recs == s.recs
  {
    hide ReqStep;
  }

  /**
   After a failure only those who have looked at it before still open a session, and after the remote is closing only
   those who have looked at that; a remote without tokens that is closing installs none, unless connect is just doing
   so; and once ConnectRemote is over its remote is not pending any more.
   */
  lemma {:induction false} NoNewSessions(s: State, schedule: seq<Action>, s': State)
    requires Reachable(s) && Run(s, schedule) == Some(s')
    ensures NoMoreSessions(s, s')
  {
    hide Reachable, Run, Next, RmuOk, CredInv, SessionsSinceFailure, SessionsSinceClosing;
    if schedule == [] {
      RunNothing(s);
    } else {
      var front := schedule[..|schedule| - 1];
      var mid := RunLast(s, schedule, s');
      NoNewSessions(s, front, mid);
      FlagsStay(s, front, mid);
      ReachableChains(s, front, mid);
      CredOf(mid);
      StepOpensNone(mid, schedule[|schedule| - 1], s');
    }
  }

  lemma CredOf(s: State)
    requires Reachable(s)
    ensures CredInv(s)
  {
    hide CredInv, HandleInv, Reachable;
    ReachableHolds(s);
  }

  // ---- a session opened too late

  /** Connect is about to look whether to close its client, closes it, or it is closed. */
  predicate OwnClosing(s: State, cl: nat) {
    s.con == CDialed(cl) || s.con == CCloseOwn(cl) || cl in s.handle.shut
  }

  lemma ShutGrows(s: State, a: Action, s': State)
    requires Next(s, a) == Some(s')
    ensures s.handle.shut <= s'.handle.shut && (!a.OfConnect? ==> s'.con == s.con)
  {
    hide ReqStep, ConNext;
    match a
    case OfConnect(c) => ConnectShuts(s, c, s');
    case OfRequest(t, r) =>
    case OfShutdown(x) => ShutShuts(s, x, s');
    case OfReconnect(t, r) => RecShuts(s, t, r, s');
    case OfBackground(_) =>
  }

  lemma ShutShuts(s: State, a: ShutAct, s': State)
    requires ShutNext(s, a) == Some(s')
    ensures s.handle.shut <= s'.handle.shut && s'.con == s.con
  {
    hide ShutStepCred, ShutStepLife;
  }

  lemma RecShuts(s: State, t: nat, a: RecAct, s': State)
    requires t < |s.recs| && RecNext(s, t, a) == Some(s')
    ensures s.handle.shut <= s'.handle.shut && s'.con == s.con
  {
  }

  lemma ConnectShuts(s: State, a: ConAct, s': State)
    requires ConNext(s, a) == Some(s')
    ensures s.handle.shut <= s'.handle.shut
  {
    hide SetupNext, InstallNext, PublishNext;
    if !InSetup(s.con) {
      PublishShuts(s, a, s');
    } else if ConHolds(s.con) {
      InstallShuts(s, a, s');
    } else {
      SetupShuts(s, a, s');
    }
  }

  lemma PublishShuts(s: State, a: ConAct, s': State)
    requires PublishNext(s, a) == Some(s')
    ensures s.handle.shut <= s'.handle.shut
  {
  }

  lemma InstallShuts(s: State, a: ConAct, s': State)
    requires InstallNext(s, a) == Some(s')
    ensures s.handle.shut <= s'.handle.shut
  {
  }

  lemma SetupShuts(s: State, a: ConAct, s': State)
    requires SetupNext(s, a) == Some(s')
    ensures s.handle.shut <= s'.handle.shut
  {
    hide Track, TrackedAs, Wipe, Register, Stored, StoredAs, Granted;
  }

  lemma ConnectCloses(s: State, a: ConAct, s': State, cl: nat)
    requires ConNext(s, a) == Some(s') && s.life.closing && (s.con == CDialed(cl) || s.con == CCloseOwn(cl))
    ensures OwnClosing(s', cl)
  {
    hide InstallNext, PublishNext;
  }

  lemma OwnClosingStep(s: State, a: Action, s': State, cl: nat)
    requires OwnClosing(s, cl) && s.life.closing && Next(s, a) == Some(s')
    ensures OwnClosing(s', cl)
  {
    ShutGrows(s, a, s');
    hide ReqNext, ConNext, ShutNext, RecNext;
    if a.OfConnect? && cl !in s.handle.shut {
      ConnectCloses(s, a.connect, s', cl);
    }
  }

  /** A session that opens while shutdown has begun is closed by connect itself, before any credential is wiped. */
  lemma {:induction false} LateSessionIsClosed(s: State, cl: nat, schedule: seq<Action>, s': State)
    requires Reachable(s) && s.con == CDialed(cl) && s.life.closing && Run(s, schedule) == Some(s')
    ensures OwnClosing(s', cl) && (Rank(s'.life.shut) >= Rank(SWipe) ==> cl in s'.handle.shut)
  {
    hide Reachable, Run, Next, RmuOk, Rank;
    if schedule == [] {
      RunNothing(s);
    } else {
      var front, a := schedule[..|schedule| - 1], schedule[|schedule| - 1];
      var mid := RunLast(s, schedule, s');
      LateSessionIsClosed(s, cl, front, mid);
      ClosingMeansRank(s);
      ClosingStays(s, front, mid);
      OwnClosingStep(mid, a, s', cl);
    }
    ReachableChains(s, schedule, s');
    NotWipedInSetup(s');
  }

  lemma NotWipedInSetup(s: State)
    requires Reachable(s)
    ensures Rank(s.life.shut) >= Rank(SWipe) ==> !InSetup(s.con)
  {
    hide Reachable;
    if Rank(s.life.shut) >= Rank(SWipe) {
      WipeComesLast(s);
    }
  }

  lemma StepEndsPending(s: State, a: Action, s': State)
    requires Next(s, a) == Some(s') && (s.con.CDone? ==> !s.life.pending)
    ensures s'.con.CDone? ==> !s'.life.pending
  {
    hide ReqNext, SetupNext, InstallNext, ShutNext, RecNext;
    match a
    case OfRequest(t, r) => RequestLeavesRest(s, t, r, s');
    case OfConnect(c) =>
      if InSetup(s.con) {
        if ConHolds(s.con) {
          InstallMovesClients(s, c, s');
          InstallStays(s, c, s');
        } else {
          SetupStays(s, c, s');
        }
      }
    case OfShutdown(x) => ShutOpensNone(s, x, s');
    case OfReconnect(t, r) => RecKeepsCred(s, t, r, s');
    case OfBackground(_) =>
  }

  lemma {:induction false} RunEndsPending(s: State, schedule: seq<Action>, s': State)
    requires (s.con.CDone? ==> !s.life.pending) && Run(s, schedule) == Some(s')
    ensures s'.con.CDone? ==> !s'.life.pending
  {
    hide Run, Next;
    if schedule == [] {
      RunNothing(s);
    } else {
      var mid := RunLast(s, schedule, s');
      RunEndsPending(s, schedule[..|schedule| - 1], mid);
      StepEndsPending(mid, schedule[|schedule| - 1], s');
    }
  }

  /** The window in which a shutdown can take a published remote for a pending one closes with ConnectRemote. */
  lemma PendingIsOver(s: State)
    requires Reachable(s) && s.con.CDone?
    ensures !s.life.pending
  {
    var n: nat, m: nat, schedule: seq<Action> :| Run(InitState(n, m), schedule) == Some(s);
    hide Run;
    RunEndsPending(InitState(n, m), schedule, s);
  }
}
