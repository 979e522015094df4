/** A shutdown that has begun can always be finished: nobody waits for somebody who waits for it. */
module RemoteProgress {
  import opened Wrappers
  import opened RemoteLog
  import opened RemoteModel
  import opened RemoteInvariant
  import opened RemoteRequestProof
  import opened RemoteLifecycleProof
  import opened RemoteHandleProof
  import opened RemoteTheorems

  /** Some schedule goes from s to s'. */
  ghost predicate Leads(s: State, s': State) {
    exists schedule: seq<Action> :: Run(s, schedule) == Some(s')
  }

  ghost predicate Inv(s: State) {
    CredInv(s) && HandleInv(s.life, s.handle, s.con, s.recs) && DeleteOk(s)
  }

  lemma LeadsNowhere(s: State)
    ensures Leads(s, s)
  {
    assert Run(s, []) == Some(s);
  }

  lemma LeadsChains(a: State, b: State, c: State)
    requires Leads(a, b) && Leads(b, c)
    ensures Leads(a, c)
  {
    var first: seq<Action> :| Run(a, first) == Some(b);
    var second: seq<Action> :| Run(b, second) == Some(c);
    RunChains(a, first, b, second, c);
  }

  lemma StepLeads(s: State, a: Action, s': State)
    requires Next(s, a) == Some(s')
    ensures Leads(s, s')
  {
    hide Next;
    assert [a][..0] == [] && Run(s, []) == Some(s);
    assert Run(s, [a]) == Some(s');
  }

  lemma StepKeepsAll(s: State, a: Action, s': State)
    requires Inv(s) && Next(s, a) == Some(s')
    ensures Inv(s')
  {
    hide CredInv, HandleInv, DeleteOk, Next;
    NextKeepsInv(s, a, s');
    NextKeepsHandle(s, a, s');
    StepKeepsDelete(s, a, s');
  }

  // ---- a request that holds tokMu lets go of it

  /** What happens next to the holder: the user's context is not needed, a lost reply will do. */
  function NextOf(pc: LockedPc): ReqAct {
    if pc.SeeExpiry? then Clock(false)
    else if pc.Refreshing? && pc.at.RWait? then TokenReply(Lost)
    else Step
  }

  function RefreshLeft(at: RefreshPc): nat {
    match at
    case RStart => 8
    case RCtx => 7
    case RSend => 6
    case RWait => 5
    case RTrack(_) => 4
    case RTrackMore(_, _) => 3
    case RDecide(_, _) => 2
    case RMark(_) => 1
  }

  /** How many steps the holder has left at most. */
  function LockedLeft(pc: LockedPc): nat {
    match pc
    case SeeZeroed(_) => 17
    case SeeTerminal(_) => 16
    case SeeExpiry(_) => 15
    case Compare(_) => 14
    case SeeClosingLocked(_) => 13
    case SeeFresh(_) => 12
    case Refreshing(_, _, at) => 3 + RefreshLeft(at)
    case Terminal => 3
    case Give(_) => 2
    case Quit => 1
  }

  lemma LookMoves(pc: LockedPc, ctxDone: bool, c: Cred, closing: bool)
    requires !pc.Refreshing?
    ensures LockedStep(pc, ctxDone, c, closing, NextOf(pc)).Some?
    ensures var m := LockedStep(pc, ctxDone, c, closing, NextOf(pc)).value;
            if m.pc.Locked? then LockedLeft(m.pc.pc) < LockedLeft(pc) && m.c.lock == c.lock
            else m.c.lock.Free? && (m.pc.Sent? || m.pc.Idle?)
  {
  }

  lemma RefreshMoves(pc: LockedPc, ctxDone: bool, c: Cred, closing: bool, rank: nat)
    requires pc.Refreshing? && TokenOk(c, Some(pc), rank)
    ensures LockedStep(pc, ctxDone, c, closing, NextOf(pc)).Some?
    ensures var m := LockedStep(pc, ctxDone, c, closing, NextOf(pc)).value;
            m.pc.Locked? && LockedLeft(m.pc.pc) < LockedLeft(pc) && m.c.lock == c.lock
  {
  }

  lemma {:induction false} HolderLetsGo(s: State, t: nat) returns (s': State)
    requires Inv(s) && t < |s.reqs| && s.cred.lock == HeldByRequest(t)
    ensures Leads(s, s') && Inv(s') && s'.cred.lock.Free?
    ensures s' == s.(cred := s'.cred, reqs := s'.reqs) && |s'.reqs| == |s.reqs|
    ensures forall u :: 0 <= u < |s.reqs| && u != t ==> s'.reqs[u] == s.reqs[u]
    ensures s'.reqs[t].pc.Sent? || s'.reqs[t].pc.Idle?
    decreases if s.reqs[t].pc.Locked? then LockedLeft(s.reqs[t].pc.pc) else 0
  {
    hide LockedStep, LockedLeft, NextOf, Leads, HandleInv, TokenOk, CredInv;
    HolderOf(s, t);
    var pc, ctxDone, closing := s.reqs[t].pc.pc, s.reqs[t].ctxDone, s.life.closing;
    if pc.Refreshing? {
      RefreshMoves(pc, ctxDone, s.cred, closing, Rank(s.life.shut));
    } else {
      LookMoves(pc, ctxDone, s.cred, closing);
    }
    var m := LockedStep(pc, ctxDone, s.cred, closing, NextOf(pc)).value;
    var mid := HolderSteps(s, t, m);
    if m.pc.Locked? {
      s' := HolderLetsGo(mid, t);
      LeadsChains(s, mid, s');
    } else {
      s' := mid;
    }
  }

  lemma HolderOf(s: State, t: nat)
    requires Inv(s) && t < |s.reqs| && s.cred.lock == HeldByRequest(t)
    ensures s.reqs[t].pc.Locked? && TokenOk(s.cred, Some(s.reqs[t].pc.pc), Rank(s.life.shut))
  {
    hide StorageOk, RedactorOk, HistoryOk, RotationOk, MarkOk, AllWiped, ConOk, HandleInv, TokenOk, ShutOk, RequestOk;
    HolderIs(s, t);
  }

  lemma HolderSteps(s: State, t: nat, m: LockedMove) returns (s': State)
    requires Inv(s) && t < |s.reqs| && s.cred.lock == HeldByRequest(t) && s.reqs[t].pc.Locked?
    requires LockedStep(s.reqs[t].pc.pc, s.reqs[t].ctxDone, s.cred, s.life.closing, NextOf(s.reqs[t].pc.pc)) == Some(m)
    ensures Leads(s, s') && Inv(s') && s' == s.(cred := m.c, reqs := s'.reqs)
    ensures |s'.reqs| == |s.reqs| && s'.reqs[t].pc == m.pc
    ensures forall u :: 0 <= u < |s.reqs| && u != t ==> s'.reqs[u] == s.reqs[u]
  {
    hide LockedStep, Leads, Inv, LocksOk;
    var a := NextOf(s.reqs[t].pc.pc);
    assert !a.Cancel?;
    s' := s.(cred := m.c, reqs := s.reqs[t := s.reqs[t].(pc := m.pc)]);
    assert ReqNext(s, t, a) == Some(s');
    assert Next(s, OfRequest(t, a)) == Some(s');
    hide Next, NextOf, ReqNext;
    StepLeads(s, OfRequest(t, a), s');
    StepKeepsAll(s, OfRequest(t, a), s');
  }

  // ---- a connect in flight gives up once the remote is closing

  function NextOfCon(con: ConPc): ConAct {
    if con.CRegister? || con.CConsent? then ConsentFails else if con.CDialing? then DialFails else ConStep
  }

  function ConLeft(con: ConPc): nat {
    match con
    case CRegister => 16
    case CConsent(_) => 15
    case CTrack(_, _) => 14
    case CTrackMore(_, _, _) => 13
    case CDecide(_, _, _) => 12
    case CHave(_) => 11
    case CSeeClosing(_) => 10
    case CInstall(_) => 9
    case CReject(_) => 8
    case CWipe(_) => 7
    case CDialFailure => 6
    case CDialClosing => 5
    case CDialing => 4
    case CDialed(_) => 3
    case CCloseOwn(_) => 2
    case CUnwind(_) => 1
    case _ => 0
  }

  /** One step of the consent flow or of dialing, and what it leaves alone. */
  predicate MovesOn(s: State, s': State) {
    ConLeft(s'.con) < ConLeft(s.con) && s'.life == s.life.(setup := if InSetup(s'.con) then 1 else 0)
    && s'.reqs == s.reqs && s'.recs == s.recs && (s.con.CDone? <==> s'.con.CDone?)
  }

  lemma SetupMoves(s: State)
    requires InSetup(s.con) && !ConHolds(s.con) && s.life.setup == 1 && s.life.closing
    requires ConOk(s.cred, s.con) && (s.con.CHave? ==> s.cred.lock.Free?)
    ensures SetupNext(s, NextOfCon(s.con)).Some?
    ensures MovesOn(s, SetupNext(s, NextOfCon(s.con)).value)
  {
    if DialPc(s.con) {
      DialMovesOn(s);
    } else if s.con.CRegister? || s.con.CConsent? || s.con.CHave? || s.con.CWipe? {
      ConsentMovesOn(s);
    } else {
      ReplyMovesOn(s);
    }
    hide SetupNext, NextOfCon, ConOk, MovesOn, ConLeft;
  }

  lemma DialMovesOn(s: State)
    requires DialPc(s.con) && s.life.setup == 1
    ensures SetupNext(s, NextOfCon(s.con)).Some?
    ensures MovesOn(s, SetupNext(s, NextOfCon(s.con)).value)
  {
    if s.con.CDialed? || s.con.CCloseOwn? || s.con.CUnwind? {
      OpenedMovesOn(s);
    } else {
      hide Track, TrackedAs, Wipe, Register, Stored, StoredAs, Granted;
    }
  }

  lemma OpenedMovesOn(s: State)
    requires s.con.CDialed? || s.con.CCloseOwn? || s.con.CUnwind?
    requires s.life.setup == 1
    ensures SetupNext(s, NextOfCon(s.con)).Some?
    ensures MovesOn(s, SetupNext(s, NextOfCon(s.con)).value)
  {
    hide Track, TrackedAs, Wipe, Register, Stored, StoredAs, Granted;
  }

  lemma ConsentMovesOn(s: State)
    requires s.con.CRegister? || s.con.CConsent? || s.con.CHave? || s.con.CWipe?
    requires s.life.setup == 1 && (s.con.CHave? ==> s.cred.lock.Free?)
    ensures SetupNext(s, NextOfCon(s.con)).Some?
    ensures MovesOn(s, SetupNext(s, NextOfCon(s.con)).value)
  {
    hide Track, TrackedAs, Wipe, Register, Stored, StoredAs;
  }

  lemma ReplyMovesOn(s: State)
    requires s.con.CTrack? || s.con.CTrackMore? || s.con.CDecide?
    requires s.life.setup == 1 && ConOk(s.cred, s.con)
    ensures SetupNext(s, NextOfCon(s.con)).Some?
    ensures MovesOn(s, SetupNext(s, NextOfCon(s.con)).value)
  {
    hide Track, TrackedAs, Wipe, Reveal;
  }

  lemma InstallMoves(s: State)
    requires ConHolds(s.con)
    ensures InstallNext(s, NextOfCon(s.con)).Some?
    ensures var s' := InstallNext(s, NextOfCon(s.con)).value;
            ConLeft(s'.con) < ConLeft(s.con) && s'.life == s.life && InSetup(s'.con)
            && s'.reqs == s.reqs && s'.recs == s.recs && (ConHolds(s'.con) || s'.cred.lock.Free?)
  {
  }

  lemma ConStepLeads(s: State, s': State)
    requires Inv(s) && ConNext(s, NextOfCon(s.con)) == Some(s')
    ensures Leads(s, s') && Inv(s')
  {
    hide Inv, Leads, ConNext, NextOfCon;
    var a := OfConnect(NextOfCon(s.con));
    NextIsConnect(s, NextOfCon(s.con));
    StepLeads(s, a, s');
    StepKeepsAll(s, a, s');
  }

  lemma NextIsConnect(s: State, a: ConAct)
    ensures Next(s, OfConnect(a)) == ConNext(s, a)
  {
  }

  lemma SetupParts(s: State)
    requires Inv(s) && InSetup(s.con)
    ensures s.life.setup == 1 && ConOk(s.cred, s.con) && (ConHolds(s.con) <==> s.cred.lock.HeldByConnect?)
    ensures Rank(s.life.shut) < 8 ==> !s.cred.lock.HeldByShutdown?
    ensures s.cred.lock.HeldByRequest? ==> s.cred.lock.t < |s.reqs|
  {
    hide CredOk, ConOk, HandleInv, RequestsOk;
  }

  lemma {:induction false} SetupEnds(s: State) returns (s': State)
    requires Inv(s) && InSetup(s.con) && s.life.closing && Rank(s.life.shut) < 8
    ensures Leads(s, s') && Inv(s') && !InSetup(s'.con) && s'.life == s.life.(setup := 0) && s'.recs == s.recs
    decreases ConLeft(s.con), if s.cred.lock.HeldByRequest? then 1 else 0
  {
    hide Inv, Leads, SetupNext, InstallNext, ConOk, ConLeft, InSetup, Rank, NextOfCon;
    SetupParts(s);
    var mid;
    if s.con.CHave? && s.cred.lock.HeldByRequest? {
      mid := HolderLetsGo(s, s.cred.lock.t);
      SetupParts(mid);
    } else {
      if ConHolds(s.con) {
        InstallMoves(s);
        mid := InstallNext(s, NextOfCon(s.con)).value;
      } else {
        SetupMoves(s);
        mid := SetupNext(s, NextOfCon(s.con)).value;
      }
      ConNextIs(s, mid);
      ConStepLeads(s, mid);
    }
    if InSetup(mid.con) {
      s' := SetupEnds(mid);
      LeadsChains(s, mid, s');
    } else {
      s' := mid;
    }
  }

  lemma ConNextIs(s: State, s': State)
    requires InSetup(s.con) && s.life.setup == 1 && (ConHolds(s.con) <==> s.cred.lock.HeldByConnect?)
    requires Some(s') == if ConHolds(s.con) then InstallNext(s, NextOfCon(s.con)) else SetupNext(s, NextOfCon(s.con))
    ensures ConNext(s, NextOfCon(s.con)) == Some(s')
  {
    hide InstallNext, SetupNext;
  }

  // ---- a request comes to its end

  /** connect lets go of tokMu within a few steps. */
  lemma {:induction false} ConnectLetsGo(s: State) returns (s': State)
    requires Inv(s) && ConHolds(s.con)
    ensures Leads(s, s') && Inv(s') && s'.cred.lock.Free?
    ensures s'.life == s.life && s'.reqs == s.reqs && s'.recs == s.recs && InSetup(s'.con)
    decreases ConLeft(s.con)
  {
    hide Inv, Leads, InstallNext, ConOk, ConLeft, InSetup, Rank, NextOfCon;
    HoldingIsSetup(s.con);
    SetupParts(s);
    InstallMoves(s);
    var mid := InstallNext(s, NextOfCon(s.con)).value;
    ConNextIs(s, mid);
    ConStepLeads(s, mid);
    if ConHolds(mid.con) {
      s' := ConnectLetsGo(mid);
      LeadsChains(s, mid, s');
    } else {
      s' := mid;
    }
  }

  lemma HoldingIsSetup(con: ConPc)
    requires ConHolds(con)
    ensures InSetup(con)
  {
  }

  lemma WhoHolds(s: State)
    requires Inv(s) && Rank(s.life.shut) < 8
    ensures s.cred.lock.Free? || ConHolds(s.con) || (s.cred.lock.HeldByRequest? && s.cred.lock.t < |s.reqs|)
    ensures forall t :: 0 <= t < |s.reqs| ==> (s.reqs[t].pc.Locked? <==> s.cred.lock == HeldByRequest(t))
  {
    hide CredOk, ConOk, HandleInv, RequestsOk;
  }

  /** Before the wipe tokMu comes free, and nobody but its holder has moved. */
  lemma LockComesFree(s: State) returns (s': State)
    requires Inv(s) && Rank(s.life.shut) < 8
    ensures Leads(s, s') && Inv(s') && s'.cred.lock.Free? && s'.life == s.life && s'.recs == s.recs
    ensures |s'.reqs| == |s.reqs| && (s.con.CDone? ==> s'.con.CDone?)
    ensures forall t :: 0 <= t < |s.reqs| && !s.reqs[t].pc.Locked? ==> s'.reqs[t] == s.reqs[t]
  {
    hide Inv, Leads, ConHolds, Rank;
    WhoHolds(s);
    if s.cred.lock.Free? {
      s' := s;
      LeadsNowhere(s);
    } else if ConHolds(s.con) {
      s' := ConnectLetsGo(s);
      HoldingIsSetup(s.con);
      DoneIsNotSetup(s.con);
    } else {
      s' := HolderLetsGo(s, s.cred.lock.t);
    }
  }

  /** What happens next to a request that does not hold tokMu; its context need not end. */
  function NextOfReq(pc: ReqPc): ReqAct {
    if pc.Sent? then NetworkError else Step
  }

  function ReqLeft(pc: ReqPc): nat {
    match pc
    case SeeFailure(_) => 9
    case SeeClosing(_) => 8
    case Enter(_) => 7
    case Await(_) => 6
    case Locked(_) => 5
    case Sent(_, _) => 4
    case MarkLoad(_, _) => 3
    case MarkSwap(_, _, _) => 2
    case Terminate(_) => 1
    case Idle => 0
  }

  lemma RequestMoves(t: nat, r: Request, c: Cred, closing: bool)
    requires !r.pc.Locked? && !r.pc.Idle? && (r.pc.Await? ==> c.lock.Free?)
    ensures ReqStep(t, r, c, closing, NextOfReq(r.pc)).Some?
    ensures ReqLeft(ReqStep(t, r, c, closing, NextOfReq(r.pc)).value.r.pc) < ReqLeft(r.pc)
  {
  }

  lemma RequestSteps(s: State, t: nat) returns (s': State)
    requires Inv(s) && t < |s.reqs| && !s.reqs[t].pc.Locked? && !s.reqs[t].pc.Idle?
    requires s.reqs[t].pc.Await? ==> s.cred.lock.Free?
    ensures Leads(s, s') && Inv(s') && s' == s.(cred := s'.cred, reqs := s'.reqs)
    ensures |s'.reqs| == |s.reqs| && ReqLeft(s'.reqs[t].pc) < ReqLeft(s.reqs[t].pc)
  {
    hide Inv, Leads, ReqStep, ReqLeft;
    var r := s.reqs[t];
    var a := NextOfReq(r.pc);
    RequestMoves(t, r, s.cred, s.life.closing);
    var m := ReqStep(t, r, s.cred, s.life.closing, a).value;
    s' := s.(cred := m.c, reqs := s.reqs[t := m.r]);
    assert Next(s, OfRequest(t, a)) == Some(s');
    hide Next, NextOfReq;
    StepLeads(s, OfRequest(t, a), s');
    StepKeepsAll(s, OfRequest(t, a), s');
  }

  /** Wherever a request stands, it can come to its end while Close is waited for. */
  lemma {:induction false} RequestEnds(s: State, t: nat) returns (s': State)
    requires Inv(s) && t < |s.reqs| && Rank(s.life.shut) < 8
    ensures Leads(s, s') && Inv(s') && s'.life == s.life && s'.recs == s.recs
    ensures |s'.reqs| == |s.reqs| && s'.reqs[t].pc.Idle? && (s.con.CDone? ==> s'.con.CDone?)
    decreases ReqLeft(s.reqs[t].pc)
  {
    hide Inv, Leads, ReqLeft, Rank;
    LeadsNowhere(s);
    var ready, mid := s, s;
    if s.reqs[t].pc.Locked? {
      WhoHolds(s);
      mid := HolderLetsGo(s, t);
      LockedIsBefore(s.reqs[t].pc, mid.reqs[t].pc);
    } else if !s.reqs[t].pc.Idle? {
      if s.reqs[t].pc.Await? {
        ready := LockComesFree(s);
      }
      mid := RequestSteps(ready, t);
      LeadsChains(s, ready, mid);
    }
    if s.reqs[t].pc.Idle? {
      s' := s;
    } else {
      s' := RequestEnds(mid, t);
      LeadsChains(s, mid, s');
    }
  }

  lemma LockedIsBefore(pc: ReqPc, pc': ReqPc)
    requires pc.Locked? && (pc'.Sent? || pc'.Idle?)
    ensures ReqLeft(pc') < ReqLeft(pc)
  {
  }

  // ---- background closes return

  lemma {:induction false} BackgroundEnds(s: State) returns (s': State)
    requires Inv(s)
    ensures Leads(s, s') && Inv(s') && s'.life == s.life.(bg := 0, closers := {})
    ensures s' == s.(life := s'.life, handle := s'.handle)
    decreases s.life.bg
  {
    hide Leads, Inv;
    BackgroundCounts(s);
    if s.life.bg == 0 {
      s' := s;
      LeadsNowhere(s);
    } else {
      assert s.life.closers != {};
      var c :| c in s.life.closers;
      var mid := Next(s, OfBackground(c)).value;
      StepLeads(s, OfBackground(c), mid);
      StepKeepsAll(s, OfBackground(c), mid);
      s' := BackgroundEnds(mid);
      LeadsChains(s, mid, s');
    }
  }

  lemma BackgroundCounts(s: State)
    requires Inv(s)
    ensures s.life.bg == |s.life.closers|
  {
    hide CredInv, RmuOk, CountsOk, PhaseOk, OwnersOk;
  }

  // ---- and so does the shutdown

  lemma CloseCanReturn(s: State)
    requires Inv(s) && s.life.shut.SJoinClose? && !s.life.closeReturned && DeleteEnded(s)
    ensures Next(s, OfShutdown(CloseReturns)).Some?
    ensures var s' := Next(s, OfShutdown(CloseReturns)).value;
            s' == s.(life := s.life.(closeReturned := true), handle := s'.handle)
  {
    hide CredInv, RmuOk, CountsOk, ClientsOk, BackgroundOk, Untouched;
  }

  lemma WaitingForLock(s: State)
    requires Inv(s) && s.life.shut.SLock? && !s.cred.lock.Free?
    ensures s.cred.lock.HeldByRequest? && s.cred.lock.t < |s.reqs|
  {
    hide CredOk, ConOk, HandleInv, RequestsOk;
  }

  lemma SetupIsOne(s: State)
    requires Inv(s)
    ensures s.life.setup == if InSetup(s.con) then 1 else 0
    ensures Rank(s.life.shut) >= 2 ==> s.life.closing
  {
    hide CredOk, ConOk, HandleInv, RequestsOk, LocksOk;
  }

  lemma DeleteParts(s: State)
    requires Inv(s)
    ensures s.life.deleting.Some? ==> s.life.deleting.value < |s.reqs|
  {
    hide CredInv, HandleInv;
  }

  /** Close can return: its DELETE, if it has sent one, comes to its end first. */
  lemma CloseEnds(s: State) returns (s': State)
    requires Inv(s) && s.life.shut.SJoinClose? && !s.life.closeReturned
    ensures Leads(s, s') && Inv(s') && s'.life == s.life.(closeReturned := true) && s'.recs == s.recs
    ensures s.con.CDone? ==> s'.con.CDone?
  {
    hide Inv, Leads, Next;
    var ready := s;
    LeadsNowhere(s);
    DeleteParts(s);
    if s.life.deleting.Some? {
      ready := RequestEnds(s, s.life.deleting.value);
    }
    CloseCanReturn(ready);
    s' := Next(ready, OfShutdown(CloseReturns)).value;
    StepLeads(ready, OfShutdown(CloseReturns), s');
    StepKeepsAll(ready, OfShutdown(CloseReturns), s');
    LeadsChains(s, ready, s');
  }

  lemma JoinSetupEnds(s: State) returns (s': State)
    requires Inv(s) && s.life.shut.SJoinSetup? && ShutWaits(s.life, s.cred.lock.Free?)
    ensures Leads(s, s') && Inv(s') && s'.life == s.life.(setup := 0) && Kept(s, s')
  {
    hide Inv, Leads, InSetup;
    SetupIsOne(s);
    s' := SetupEnds(s);
    DoneIsNotSetup(s.con);
  }

  lemma LockWaitEnds(s: State) returns (s': State)
    requires Inv(s) && s.life.shut.SLock? && !s.cred.lock.Free?
    ensures Leads(s, s') && Inv(s') && s'.life == s.life && s'.cred.lock.Free? && Kept(s, s')
  {
    hide Inv, Leads;
    WaitingForLock(s);
    s' := HolderLetsGo(s, s.cred.lock.t);
  }

  /** What shutdown waits for can be brought about. */
  lemma WaitEnds(s: State) returns (s': State)
    requires Inv(s) && Rank(s.life.shut) >= 1 && !s.life.shut.SDone? && ShutWaits(s.life, s.cred.lock.Free?)
    ensures Leads(s, s') && Inv(s') && s'.life.shut == s.life.shut && !ShutWaits(s'.life, s'.cred.lock.Free?)
    ensures Kept(s, s')
  {
    hide Inv, Leads, Next;
    match s.life.shut
    case SJoinClose => s' := CloseEnds(s);
    case SJoinSetup => s' := JoinSetupEnds(s);
    case SJoinBg => s' := BackgroundEnds(s);
    case SLock => s' := LockWaitEnds(s);
  }

  lemma DoneIsNotSetup(con: ConPc)
    requires InSetup(con)
    ensures !con.CDone?
  {
  }

  /** Who began it, what was published and what the reconnecting callers do stays as it is. */
  predicate Kept(s: State, s': State) {
    s'.life.via == s.life.via && s'.life.published == s.life.published && s'.life.handleShut == s.life.handleShut
    && s'.recs == s.recs && (s.con.CDone? ==> s'.con.CDone?) && (s.life.bg == 0 ==> s'.life.bg == 0)
  }

  lemma ShutdownSteps(s: State) returns (s': State)
    requires Inv(s) && !ShutWaits(s.life, s.cred.lock.Free?)
    ensures Leads(s, s') && Inv(s') && s'.life.shut == ShutAfter(s.life.shut) && Kept(s, s')
  {
    hide Inv, Leads;
    s' := s.(life := ShutStepLife(s.life, s.cred.lock.Free?).value, cred := ShutStepCred(s.life.shut, s.cred));
    hide ShutStepCred, ShutWaits;
    assert Next(s, OfShutdown(ShutStep)) == Some(s');
    hide Next;
    StepLeads(s, OfShutdown(ShutStep), s');
    StepKeepsAll(s, OfShutdown(ShutStep), s');
  }

  lemma RankAfter(pc: ShutPc)
    requires !pc.SIdle? && !pc.SDone?
    ensures Rank(ShutAfter(pc)) == Rank(pc) + 1
  {
  }

  lemma {:induction false} ShutdownGoesOn(s: State) returns (s': State)
    requires Inv(s) && !s.life.shut.SIdle?
    ensures Leads(s, s') && Inv(s') && s'.life.shut.SDone? && Kept(s, s')
    decreases 11 - Rank(s.life.shut)
  {
    hide Inv, Leads, ShutWaits, ShutAfter;
    if s.life.shut.SDone? {
      s' := s;
      LeadsNowhere(s);
    } else {
      var ready := s;
      LeadsNowhere(s);
      if ShutWaits(s.life, s.cred.lock.Free?) {
        ready := WaitEnds(s);
      }
      var mid := ShutdownSteps(ready);
      RankAfter(s.life.shut);
      assert Rank(mid.life.shut) == Rank(s.life.shut) + 1;
      RankDone(mid.life.shut);
      s' := ShutdownGoesOn(mid);
      LeadsChains(s, ready, mid);
      LeadsChains(s, mid, s');
    }
  }

  lemma RankDone(pc: ShutPc)
    ensures Rank(pc) <= 11
  {
  }

  /** From every reachable state in which it has begun, some schedule brings shutdown to its end. */
  lemma ShutdownCanFinish(s: State) returns (s': State)
    requires Reachable(s) && s.life.via.Some?
    ensures Leads(s, s') && Reachable(s') && s'.life.shut.SDone? && Kept(s, s')
  {
    ReachableHolds(s);
    ReachableDelete(s);
    IdleMeansNoVia(s);
    hide CredInv, HandleInv, DeleteOk, Leads, Kept, Reachable;
    s' := ShutdownGoesOn(s);
    LeadsReaches(s, s');
  }

  lemma LeadsReaches(s: State, s': State)
    requires Reachable(s) && Leads(s, s')
    ensures Reachable(s')
  {
    hide Reachable;
    var schedule: seq<Action> :| Run(s, schedule) == Some(s');
    ReachableChains(s, schedule, s');
  }

  // ---- when a background close can run during the wipe

  lemma PublishedHasClient(s: State)
    requires Inv(s) && s.life.published && !s.handle.closed
    ensures s.handle.client.Some?
    ensures forall t :: 0 <= t < |s.recs| ==> (HoldsRmu(s.recs[t].pc) <==> s.handle.rmu == Some(t))
  {
    hide CredInv, CountsOk, ClientsOk, BackgroundOk, Untouched;
  }

  /** The client just dialed replaces the handle's, which is then closed in the background. */
  lemma InstallRises(s: State, t: nat) returns (s': State)
    requires Inv(s) && s.life.published && !s.handle.closed && t < |s.recs| && s.handle.rmu == Some(t)
    requires s.recs[t].pc.NDialed? && s.recs[t].pc.dialed.Some?
    ensures Leads(s, s') && s'.life.bg > 0 && s'.life.shut == s.life.shut
  {
    hide Inv, Leads;
    PublishedHasClient(s);
    s' := Next(s, OfReconnect(t, RecStep)).value;
    hide Next;
    StepLeads(s, OfReconnect(t, RecStep), s');
  }

  lemma DialRises(s: State, t: nat) returns (s': State)
    requires Inv(s) && s.life.published && !s.handle.closed && t < |s.recs| && s.handle.rmu == Some(t)
    requires s.recs[t].pc.NDialing?
    ensures Leads(s, s') && s'.life.bg > 0 && s'.life.shut == s.life.shut
  {
    hide Inv, Leads;
    var mid := Next(s, OfReconnect(t, RecDialOk)).value;
    assert mid.life == s.life && mid.handle == s.handle.(created := s.handle.created + 1);
    assert |mid.recs| == |s.recs| && mid.recs[t].pc.NDialed? && mid.recs[t].pc.dialed.Some?;
    hide Next;
    StepLeads(s, OfReconnect(t, RecDialOk), mid);
    StepKeepsAll(s, OfReconnect(t, RecDialOk), mid);
    s' := InstallRises(mid, t);
    LeadsChains(s, mid, s');
  }

  ghost predicate Rises(s: State, s': State) {
    Leads(s, s') && s'.life.bg > 0
  }

  /**
   From the wipe on a client can be closed in the background exactly when a pending shutdown of a published remote got
   in first, and one is being closed already or the handle is open and a reconnect has got as far as dialing.
   */
  lemma BackgroundAfterWipeExactlyWhen(s: State)
    requires Reachable(s) && Rank(s.life.shut) >= Rank(SWipe)
    ensures (exists s' :: Rises(s, s')) <==> PendingWon(s.life) && !Calm(s)
  {
    hide Inv, Leads, Reachable, Next, Run;
    if PendingWon(s.life) && !Calm(s) {
      var s' := CanRise(s);
      assert Rises(s, s');
    } else {
      forall s' ensures !Rises(s, s') {
        if Rises(s, s') {
          NeverRises(s, s');
        }
      }
    }
  }

  lemma CanRise(s: State) returns (s': State)
    requires Reachable(s) && PendingWon(s.life) && !Calm(s)
    ensures Leads(s, s') && s'.life.bg > 0 && s'.life.shut == s.life.shut
  {
    ReachableHolds(s);
    ReachableDelete(s);
    assert Inv(s);
    hide Inv, Leads, Reachable, CredInv, HandleInv, DeleteOk;
    if s.life.bg > 0 {
      s' := s;
      LeadsNowhere(s);
    } else {
      var t := s.handle.rmu.value;
      if s.recs[t].pc.NDialing? {
        s' := DialRises(s, t);
      } else {
        s' := InstallRises(s, t);
      }
    }
  }

  lemma NeverRises(s: State, s': State)
    requires Reachable(s) && Rank(s.life.shut) >= Rank(SWipe) && Leads(s, s')
    requires !PendingWon(s.life) || Calm(s)
    ensures s'.life.bg == 0
  {
    hide Reachable, Run, InSetup;
    var schedule: seq<Action> :| Run(s, schedule) == Some(s');
    if Calm(s) {
      CalmStays(s, schedule, s');
    } else {
      NothingRisesAfterWipe(s, schedule, s');
    }
  }
}
