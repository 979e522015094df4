/** What a request is given, when it is turned away, and what its answer does to the remote. */
module RemoteCalls {
  import opened Wrappers
  import opened RemoteLog
  import opened RemoteModel
  import opened RemoteInvariant
  import opened RemoteRequestProof
  import opened RemoteLifecycleProof
  import opened RemoteHandleProof
  import opened RemoteTheorems

  // ---- a token call, from the lock to the request

  /** The log without what requests report about accepted tokens, which needs no lock. */
  function TokenEvents(l: Log): Log {
    if l.Begun? then Begun
    else if l.last.Accepted? then TokenEvents(l.prior)
    else Then(TokenEvents(l.prior), l.last)
  }

  /** The log and the tokens when the call got the lock. */
  datatype Base = Base(log: Log, access: string, refresh: string)

  function BaseOf(c: Cred): Base {
    Base(TokenEvents(c.log), AccessValue(c), RefreshValue(c))
  }

  function CauseOf(call: Call): Cause {
    if call.First? then Expiring else Rejected(call.used)
  }

  /** Nothing was sent or minted, and the tokens are the same. */
  predicate Unchanged(c: Cred, b: Base) {
    BaseOf(c) == b
  }

  predicate HasSent(c: Cred, b: Base, cause: Cause) {
    TokenEvents(c.log) == Then(b.log, RefreshSent(b.refresh, cause))
  }

  /** One refresh with the old refresh token was sent, and it minted this access token. */
  predicate HasMinted(l: Log, b: Base, cause: Cause, access: string) {
    TokenEvents(l).Then? && TokenEvents(l).last.Minted? && TokenEvents(l).last.access == access
    && TokenEvents(l).prior == Then(b.log, RefreshSent(b.refresh, cause))
  }

  /** Before the call has decided anything. */
  predicate Looks(pc: LockedPc, call: Call, c: Cred, b: Base) {
    Unchanged(c, b)
    && match pc
       case SeeZeroed(x) => x == call
       case SeeTerminal(x) => x == call
       case SeeExpiry(x) => x == call && call.First?
       case Compare(used) => call == Retry(used)
       case SeeClosingLocked(used) => call == Retry(used) && b.access == used
       case SeeFresh(used) => call == Retry(used) && b.access == used
       case _ => false
  }

  /** The call refreshes, has refreshed, or gives up. */
  predicate Refreshes(pc: LockedPc, call: Call, c: Cred, b: Base) {
    match pc
    case Refreshing(cause, x, at) =>
      x == call && cause == CauseOf(call)
      && (match at
          case RStart => Unchanged(c, b)
          case RCtx => Unchanged(c, b)
          case RSend => Unchanged(c, b)
          case RMark(_) => HasMinted(c.log, b, CauseOf(call), AccessValue(c))
          case _ => HasSent(c, b, CauseOf(call)))
    case Give(x) => x == call && HasMinted(c.log, b, CauseOf(call), AccessValue(c))
    case Terminal => true
    case Quit => true
    case _ => false
  }

  /** The call gives out what was there, and a retry only what it was not rejected with. */
  predicate Keeps(pc: LockedPc, call: Call, c: Cred, b: Base) {
    match pc
    case Give(x) => x == call && Unchanged(c, b) && (call.Retry? ==> b.access != call.used)
    case _ => false
  }

  /** The same with the refresh abandoned. */
  predicate KeepsOrQuits(pc: LockedPc, call: Call, c: Cred, b: Base) {
    Keeps(pc, call, c, b) || pc.Quit? || pc.Terminal?
  }

  /** The request has what the call was given. */
  predicate Given(pc: ReqPc, call: Call, c: Cred, b: Base, minted: bool) {
    pc.Sent? ==>
      pc.call == call
      && if minted then HasMinted(c.log, b, CauseOf(call), pc.token)
         else pc.token == b.access && TokenEvents(c.log) == b.log && (call.Retry? ==> pc.token != call.used)
  }

  // ---- its own steps

  lemma LookingStep(pc: LockedPc, call: Call, ctxDone: bool, c: Cred, closing: bool, a: ReqAct, m: LockedMove, b: Base)
    requires Looks(pc, call, c, b) && LockedStep(pc, ctxDone, c, closing, a) == Some(m)
    ensures m.pc.Locked?
    ensures Looks(m.pc.pc, call, m.c, b) || Refreshes(m.pc.pc, call, m.c, b) || KeepsOrQuits(m.pc.pc, call, m.c, b)
  {
    hide RefreshStep;
  }

  lemma KeepingStep(pc: LockedPc, call: Call, ctxDone: bool, c: Cred, closing: bool, a: ReqAct, m: LockedMove, b: Base)
    requires KeepsOrQuits(pc, call, c, b) && LockedStep(pc, ctxDone, c, closing, a) == Some(m)
    ensures if m.pc.Locked? then KeepsOrQuits(m.pc.pc, call, m.c, b) else Given(m.pc, call, m.c, b, false)
  {
    hide RefreshStep;
  }

  lemma RefreshingStep(pc: LockedPc, call: Call, ctxDone: bool, c: Cred, closing: bool, a: ReqAct, m: LockedMove,
                       b: Base, rank: nat)
    requires Refreshes(pc, call, c, b) && LockedStep(pc, ctxDone, c, closing, a) == Some(m)
    requires TokenOk(c, Some(pc), rank)
    ensures if m.pc.Locked? then Refreshes(m.pc.pc, call, m.c, b) else Given(m.pc, call, m.c, b, true)
  {
    if pc.Refreshing? {
      if pc.at.RDecide? {
        DecidingStep(pc, call, ctxDone, c, closing, a, m, b, rank);
      }
      hide Track, TrackedAs, Install, Discard, AccessValue, RefreshValue;
    } else {
      hide RefreshStep;
    }
  }

  lemma DecidingStep(pc: LockedPc, call: Call, ctxDone: bool, c: Cred, closing: bool, a: ReqAct, m: LockedMove,
                     b: Base, rank: nat)
    requires Refreshes(pc, call, c, b) && LockedStep(pc, ctxDone, c, closing, a) == Some(m)
    requires pc.Refreshing? && pc.at.RDecide? && TokenOk(c, Some(pc), rank)
    ensures m.pc.Locked? && Refreshes(m.pc.pc, call, m.c, b)
  {
    if Granted(pc.at.reply) {
      assert Carries(c, pc.at.reply, pc.at.ts);
    }
  }

  // ---- everybody else's steps

  /** The tokens and the log, but for accepted tokens, are as they were. */
  predicate SameBase(c: Cred, c': Cred) {
    c'.store == c.store && c'.tok == c.tok && TokenEvents(c'.log) == TokenEvents(c.log)
  }

  lemma SameBaseIs(c: Cred, c': Cred)
    requires SameBase(c, c')
    ensures BaseOf(c') == BaseOf(c)
  {
  }

  /** Another goroutine moved, or the context of this request ended. */
  predicate Others(t: nat, a: Action) {
    a.OfRequest? && a.t == t ==> a.req.Cancel?
  }

  lemma OtherRequestLeaves(s: State, t: nat, u: nat, a: ReqAct, s': State)
    requires t < |s.reqs| && u < |s.reqs| && s.cred.lock == HeldByRequest(t) && (u == t ==> a.Cancel?)
    requires u != t ==> !s.reqs[u].pc.Locked?
    requires ReqNext(s, u, a) == Some(s')
    ensures |s'.reqs| == |s.reqs| && s'.reqs[t].pc == s.reqs[t].pc && SameBase(s.cred, s'.cred)
  {
    hide LockedStep;
  }

  lemma ConnectLeaves(s: State, a: ConAct, s': State)
    requires !BeforeInstall(s.con) && ConNext(s, a) == Some(s')
    ensures s'.cred == s.cred && s'.reqs == s.reqs
  {
    hide PublishNext;
    if !InSetup(s.con) {
      PublishLeavesCred(s, a, s');
    }
    hide Track, TrackedAs, Wipe, Register, Stored, StoredAs, Granted, InstallNext;
  }

  lemma PublishLeavesCred(s: State, a: ConAct, s': State)
    requires PublishNext(s, a) == Some(s')
    ensures s'.cred == s.cred && s'.reqs == s.reqs
  {
  }

  lemma ShutdownLeaves(s: State, a: ShutAct, s': State)
    requires Rank(s.life.shut) <= 7 && !s.cred.lock.Free? && ShutNext(s, a) == Some(s')
    ensures SameBase(s.cred, s'.cred) && s'.reqs == s.reqs
  {
    hide Wipe;
  }

  lemma HolderParts(s: State, t: nat)
    requires CredInv(s) && t < |s.reqs| && s.reqs[t].pc.Locked? && PastZeroed(s.reqs[t].pc.pc)
    ensures s.cred.lock == HeldByRequest(t) && !BeforeInstall(s.con) && Rank(s.life.shut) <= 7
    ensures TokenOk(s.cred, Some(s.reqs[t].pc.pc), Rank(s.life.shut))
    ensures forall u :: 0 <= u < |s.reqs| && u != t ==> !s.reqs[u].pc.Locked?
  {
    hide StorageOk, RedactorOk, HistoryOk, RotationOk, MarkOk, AllWiped, ShutOk, HolderCarries;
    HolderIs(s, t);
  }

  lemma OthersLeaveToken(s: State, t: nat, a: Action, s': State)
    requires CredInv(s) && t < |s.reqs| && s.reqs[t].pc.Locked? && PastZeroed(s.reqs[t].pc.pc)
    requires Next(s, a) == Some(s') && Others(t, a)
    ensures |s'.reqs| == |s.reqs| && s'.reqs[t].pc == s.reqs[t].pc && SameBase(s.cred, s'.cred)
  {
    hide CredInv, BeforeInstall, TokenOk, PastZeroed, Rank, ReqNext, ConNext, ShutNext, RecNext;
    HolderParts(s, t);
    match a
    case OfRequest(u, r) => OtherRequestLeaves(s, t, u, r, s');
    case OfConnect(x) => ConnectLeaves(s, x, s');
    case OfShutdown(x) => ShutdownLeaves(s, x, s');
    case OfReconnect(u, r) => RecKeepsCred(s, u, r, s');
    case OfBackground(_) =>
  }

  // ---- the whole call

  /** The request keeps tokMu before each step of the schedule. */
  ghost predicate HoldsLock(s: State, t: nat, schedule: seq<Action>) {
    forall k :: 0 <= k < |schedule| ==> HoldsAt(Run(s, schedule[..k]), t)
  }

  predicate HoldsAt(s: Option<State>, t: nat) {
    s.Some? && t < |s.value.reqs| && s.value.reqs[t].pc.Locked?
  }

  /** Where a call can be that began so. */
  datatype Course = Any | Refresh | Keep

  predicate OnCourse(pc: LockedPc, call: Call, c: Cred, b: Base, course: Course) {
    match course
    case Any => Looks(pc, call, c, b) || Refreshes(pc, call, c, b) || KeepsOrQuits(pc, call, c, b)
    case Refresh => Refreshes(pc, call, c, b)
    case Keep => KeepsOrQuits(pc, call, c, b)
  }

  predicate Ends(pc: ReqPc, call: Call, c: Cred, b: Base, course: Course) {
    match course
    case Any => Given(pc, call, c, b, true) || Given(pc, call, c, b, false)
    case Refresh => Given(pc, call, c, b, true)
    case Keep => Given(pc, call, c, b, false)
  }

  predicate Follows(pc: ReqPc, call: Call, c: Cred, b: Base, course: Course) {
    if pc.Locked? then OnCourse(pc.pc, call, c, b, course) else Ends(pc, call, c, b, course)
  }

  lemma OwnStepFollows(pc: LockedPc, call: Call, ctxDone: bool, c: Cred, closing: bool, a: ReqAct, m: LockedMove,
                       b: Base, course: Course, rank: nat)
    requires OnCourse(pc, call, c, b, course) && LockedStep(pc, ctxDone, c, closing, a) == Some(m)
    requires TokenOk(c, Some(pc), rank)
    ensures Follows(m.pc, call, m.c, b, course)
  {
    hide LockedStep, Looks, Refreshes, KeepsOrQuits, Given, TokenOk;
    if Looks(pc, call, c, b) && course.Any? {
      LookingStep(pc, call, ctxDone, c, closing, a, m, b);
    } else if Refreshes(pc, call, c, b) && !course.Keep? {
      RefreshingStep(pc, call, ctxDone, c, closing, a, m, b, rank);
    } else {
      KeepingStep(pc, call, ctxDone, c, closing, a, m, b);
    }
  }

  lemma SameCourse(pc: LockedPc, call: Call, c: Cred, c': Cred, b: Base, course: Course)
    requires OnCourse(pc, call, c, b, course) && SameBase(c, c')
    ensures OnCourse(pc, call, c', b, course)
  {
    SameBaseIs(c, c');
  }

  lemma CourseStep(s: State, t: nat, a: Action, s': State, call: Call, b: Base, course: Course)
    requires CredInv(s) && t < |s.reqs| && s.reqs[t].pc.Locked? && Next(s, a) == Some(s')
    requires OnCourse(s.reqs[t].pc.pc, call, s.cred, b, course) && !s.reqs[t].pc.pc.SeeZeroed?
    ensures |s'.reqs| == |s.reqs| && Follows(s'.reqs[t].pc, call, s'.cred, b, course)
    ensures s'.reqs[t].pc.Locked? ==> !s'.reqs[t].pc.pc.SeeZeroed?
  {
    var pc := s.reqs[t].pc.pc;
    hide CredInv, OnCourse, Ends;
    if pc.Terminal? || pc.Quit? {
      QuittingStep(s, t, a, s', call, b, course);
    } else if Others(t, a) {
      OthersLeaveToken(s, t, a, s');
      hide Next;
      SameCourse(pc, call, s.cred, s'.cred, b, course);
    } else {
      OwnStepIs(s, t, a.req, s');
      hide Next;
      var m := LockedStep(pc, s.reqs[t].ctxDone, s.cred, s.life.closing, a.req).value;
      hide LockedStep, Follows;
      OwnStepFollows(pc, call, s.reqs[t].ctxDone, s.cred, s.life.closing, a.req, m, b, course, Rank(s.life.shut));
      NeverLooksBack(pc, s.reqs[t].ctxDone, s.cred, s.life.closing, a.req, m);
    }
  }

  lemma OwnStepIs(s: State, t: nat, a: ReqAct, s': State)
    requires CredInv(s) && t < |s.reqs| && s.reqs[t].pc.Locked? && PastZeroed(s.reqs[t].pc.pc)
    requires Next(s, OfRequest(t, a)) == Some(s') && !a.Cancel?
    ensures TokenOk(s.cred, Some(s.reqs[t].pc.pc), Rank(s.life.shut))
    ensures var m := LockedStep(s.reqs[t].pc.pc, s.reqs[t].ctxDone, s.cred, s.life.closing, a);
            m.Some? && |s'.reqs| == |s.reqs| && s'.reqs[t].pc == m.value.pc && s'.cred == m.value.c
  {
    HolderParts(s, t);
    hide CredInv, LockedStep, TokenOk, BeforeInstall, Rank;
  }

  lemma NeverLooksBack(pc: LockedPc, ctxDone: bool, c: Cred, closing: bool, a: ReqAct, m: LockedMove)
    requires LockedStep(pc, ctxDone, c, closing, a) == Some(m)
    ensures m.pc.Locked? ==> !m.pc.pc.SeeZeroed?
  {
    hide Track, TrackedAs, Install, Discard;
  }

  lemma QuittingStep(s: State, t: nat, a: Action, s': State, call: Call, b: Base, course: Course)
    requires CredInv(s) && t < |s.reqs| && s.reqs[t].pc.Locked? && Next(s, a) == Some(s')
    requires s.reqs[t].pc.pc.Terminal? || s.reqs[t].pc.pc.Quit?
    ensures |s'.reqs| == |s.reqs| && Follows(s'.reqs[t].pc, call, s'.cred, b, course)
    ensures s'.reqs[t].pc.Locked? ==> !s'.reqs[t].pc.pc.SeeZeroed?
  {
    LeavesThere(s, t, a, s');
    hide CredInv, Next;
  }

  lemma LeavesThere(s: State, t: nat, a: Action, s': State)
    requires CredInv(s) && t < |s.reqs| && s.reqs[t].pc.Locked? && Next(s, a) == Some(s')
    requires s.reqs[t].pc.pc.Terminal? || s.reqs[t].pc.pc.Quit?
    ensures |s'.reqs| == |s.reqs|
    ensures s'.reqs[t].pc.Idle? || s'.reqs[t].pc == Locked(Terminal) || s'.reqs[t].pc == Locked(Quit)
  {
    hide CredInv, ConNext, ShutNext, RecNext, AnswerStep, EntryStep, RefreshStep;
    match a
    case OfRequest(u, r) =>
    case OfConnect(x) => ConnectLeavesDelete(s, x, s');
      ConnectLeavesRequests(s, x, s');
    case OfShutdown(x) => ShutLeavesRequests(s, x, s');
    case OfReconnect(u, r) => RecKeepsCred(s, u, r, s');
    case OfBackground(_) =>
  }

  lemma ShutLeavesRequests(s: State, a: ShutAct, s': State)
    requires ShutNext(s, a) == Some(s')
    ensures s'.reqs == s.reqs
  {
    hide ShutStepCred;
  }

  lemma ConnectLeavesRequests(s: State, a: ConAct, s': State)
    requires ConNext(s, a) == Some(s')
    ensures s'.reqs == s.reqs
  {
    hide SetupNext, InstallNext, PublishNext;
    if !InSetup(s.con) {
      PublishLeavesCred(s, a, s');
    } else if ConHolds(s.con) {
      InstallLeavesRequests(s, a, s');
    } else {
      SetupLeavesRequests(s, a, s');
    }
  }

  lemma {:induction false} CourseIsKept(s: State, t: nat, schedule: seq<Action>, s': State, call: Call, b: Base,
                                        course: Course)
    requires CredInv(s) && t < |s.reqs| && s.reqs[t].pc.Locked? && Run(s, schedule) == Some(s')
    requires OnCourse(s.reqs[t].pc.pc, call, s.cred, b, course) && !s.reqs[t].pc.pc.SeeZeroed?
    requires HoldsLock(s, t, schedule)
    ensures t < |s'.reqs| && Follows(s'.reqs[t].pc, call, s'.cred, b, course)
    ensures s'.reqs[t].pc.Locked? ==> !s'.reqs[t].pc.pc.SeeZeroed?
    decreases |schedule|
  {
    hide CredInv, Run, Next, OnCourse, Ends;
    if schedule == [] {
      RunNothing(s);
    } else {
      var n := |schedule| - 1;
      var front := schedule[..n];
      var mid := RunLast(s, schedule, s');
      forall k | 0 <= k < n ensures HoldsAt(Run(s, front[..k]), t) {
        assert front[..k] == schedule[..k];
      }
      CourseIsKept(s, t, front, mid, call, b, course);
      RunKeepsInv(s, front, mid);
      assert HoldsAt(Run(s, schedule[..n]), t);
      CourseStep(mid, t, schedule[n], s', call, b, course);
    }
  }

  /** What a call is given when it keeps tokMu up to its request. */
  ghost predicate GetsWith(s: State, t: nat, schedule: seq<Action>, s': State, call: Call, token: string) {
    Reachable(s) && t < |s.reqs| && s.reqs[t].pc.Locked? && Run(s, schedule) == Some(s') && HoldsLock(s, t, schedule)
    && t < |s'.reqs| && s'.reqs[t].pc == Sent(call, token)
  }

  /** A token about to expire is refreshed: what is sent is what one refresh with the old refresh token minted. */
  lemma DueTokenIsRefreshed(s: State, t: nat, d: bool, schedule: seq<Action>, s': State, token: string)
    requires GetsWith(s, t, schedule, s', First(d), token) && s.reqs[t].pc == Locked(SeeExpiry(First(d)))
    requires schedule != [] && schedule[0] == OfRequest(t, Clock(true)) && !s.life.closing
    ensures HasMinted(s'.cred.log, BaseOf(s.cred), Expiring, token)
  {
    var mid := AfterClock(s, t, d, true, schedule, s');
    hide CredInv, HandleInv, Reachable, Run, Next;
    CourseIsKept(mid, t, schedule[1..], s', First(d), BaseOf(s.cred), Refresh);
  }

  /** One that is not, or whose remote is closing, is sent as it is, and nothing is refreshed. */
  lemma OtherTokenIsSentAsItIs(s: State, t: nat, d: bool, due: bool, schedule: seq<Action>, s': State, token: string)
    requires GetsWith(s, t, schedule, s', First(d), token) && s.reqs[t].pc == Locked(SeeExpiry(First(d)))
    requires schedule != [] && schedule[0] == OfRequest(t, Clock(due)) && (!due || s.life.closing)
    ensures token == AccessValue(s.cred) && TokenEvents(s'.cred.log) == TokenEvents(s.cred.log)
  {
    var mid := AfterClock(s, t, d, due, schedule, s');
    hide CredInv, HandleInv, Reachable, Run, Next;
    CourseIsKept(mid, t, schedule[1..], s', First(d), BaseOf(s.cred), Keep);
  }

  /** The first step of such a schedule, and the rest of it. */
  lemma AfterClock(s: State, t: nat, d: bool, due: bool, schedule: seq<Action>, s': State) returns (mid: State)
    requires Reachable(s) && t < |s.reqs| && s.reqs[t].pc == Locked(SeeExpiry(First(d)))
    requires schedule != [] && schedule[0] == OfRequest(t, Clock(due)) && Run(s, schedule) == Some(s')
    requires HoldsLock(s, t, schedule) && t < |s'.reqs| && !s'.reqs[t].pc.Locked?
    ensures CredInv(mid) && t < |mid.reqs| && mid.cred == s.cred
    ensures mid.reqs[t].pc == Locked(if due && !s.life.closing then Refreshing(Expiring, First(d), RStart)
                                     else Give(First(d)))
    ensures Run(mid, schedule[1..]) == Some(s') && HoldsLock(mid, t, schedule[1..])
  {
    mid := FirstStep(s, schedule, s');
    ReachableHolds(s);
    hide Run, Reachable, CredInv, HandleInv;
    ClockStep(s, t, d, due, mid);
    NextKeepsInv(s, schedule[0], mid);
    hide Next;
    forall k | 0 <= k < |schedule[1..]| ensures HoldsAt(Run(mid, schedule[1..][..k]), t) {
      assert HoldsAt(Run(s, schedule[..k + 1]), t);
      RunAfter(s, schedule, k, mid);
    }
  }

  lemma ClockStep(s: State, t: nat, d: bool, due: bool, s': State)
    requires CredInv(s) && t < |s.reqs| && s.reqs[t].pc == Locked(SeeExpiry(First(d)))
    requires Next(s, OfRequest(t, Clock(due))) == Some(s')
    ensures t < |s'.reqs| && s'.cred == s.cred
    ensures s'.reqs[t].pc == Locked(if due && !s.life.closing then Refreshing(Expiring, First(d), RStart)
                                    else Give(First(d)))
  {
    HolderIs(s, t);
    hide CredInv, RefreshStep;
  }

  lemma {:induction false} FirstStep(s: State, schedule: seq<Action>, s': State) returns (mid: State)
    requires schedule != [] && Run(s, schedule) == Some(s')
    ensures Next(s, schedule[0]) == Some(mid) && Run(mid, schedule[1..]) == Some(s')
    decreases |schedule|
  {
    hide Run, Next;
    var n := |schedule| - 1;
    var last := RunLast(s, schedule, s');
    if n == 0 {
      assert schedule[..0] == [];
      RunNothing(s);
      RunNothing(s');
      mid := s';
      assert schedule[1..] == [];
    } else {
      mid := FirstStep(s, schedule[..n], last);
      assert schedule[..n][0] == schedule[0];
      RunOneMore(mid, schedule[..n][1..], last, schedule[n], s');
      assert schedule[..n][1..] + [schedule[n]] == schedule[1..];
    }
  }

  lemma {:induction false} RunAfter(s: State, schedule: seq<Action>, k: nat, mid: State)
    requires k < |schedule| && Next(s, schedule[0]) == Some(mid) && Run(s, schedule[..k + 1]).Some?
    ensures Run(mid, schedule[1..][..k]) == Run(s, schedule[..k + 1])
  {
    hide Run, Next;
    var s' := Run(s, schedule[..k + 1]).value;
    var other := FirstStep(s, schedule[..k + 1], s');
    assert schedule[..k + 1][1..] == schedule[1..][..k];
  }

  /**
   After a 401 the retry carries another token: one that was there already, or what one refresh minted that this 401
   caused.
   */
  lemma RejectedTokenIsReplaced(s: State, t: nat, used: string, schedule: seq<Action>, s': State, token: string)
    requires GetsWith(s, t, schedule, s', Retry(used), token) && s.reqs[t].pc == Locked(SeeTerminal(Retry(used)))
    ensures HasMinted(s'.cred.log, BaseOf(s.cred), Rejected(used), token)
            || (token == AccessValue(s.cred) != used && TokenEvents(s'.cred.log) == TokenEvents(s.cred.log))
  {
    ReachableHolds(s);
    hide CredInv, HandleInv, Reachable, Run;
    CourseIsKept(s, t, schedule, s', Retry(used), BaseOf(s.cred), Any);
  }

  // ---- who is turned away

  /** A request's counter after any step: moved by its own step, or as it was. */
  lemma CounterStep(s: State, t: nat, a: Action, s': State)
    requires t < |s.reqs| && Next(s, a) == Some(s')
    ensures |s'.reqs| == |s.reqs|
    ensures Others(t, a) ==> s'.reqs[t].pc == s.reqs[t].pc
    ensures !Others(t, a) ==>
              var m := ReqStep(t, s.reqs[t], s.cred, s.life.closing, a.req);
              m.Some? && s'.reqs[t] == m.value.r && s'.cred == m.value.c
  {
    hide ReqStep, ConNext, ShutNext, RecNext;
    match a
    case OfRequest(u, r) =>
      if r.Cancel? {
        CancelIs(u, s.reqs[u], s.cred, s.life.closing);
      }
    case OfConnect(x) => ConnectLeavesRequests(s, x, s');
    case OfShutdown(x) => ShutLeavesRequests(s, x, s');
    case OfReconnect(u, r) => RecKeepsCred(s, u, r, s');
    case OfBackground(_) =>
  }

  lemma CancelIs(t: nat, r: Request, c: Cred, closing: bool)
    ensures ReqStep(t, r, c, closing, Cancel) == Some(Moved(r.(ctxDone := true), c))
  {
  }

  /** A request that has not seen yet whether the remote has failed. */
  predicate BeforeFailureCheck(pc: ReqPc) {
    pc.Idle? || pc.SeeFailure? || pc.SeeClosing? || pc.Enter? || pc.Await? || pc.Terminate?
    || (pc.Locked? && (pc.pc.SeeZeroed? || pc.pc.SeeTerminal? || pc.pc.Terminal? || pc.pc.Quit?
                       || (pc.pc.Refreshing? && pc.pc.at.RStart?)))
  }

  lemma FailedStep(t: nat, r: Request, c: Cred, closing: bool, a: ReqAct, m: Moved)
    requires c.failure.Some? && BeforeFailureCheck(r.pc) && ReqStep(t, r, c, closing, a) == Some(m)
    ensures BeforeFailureCheck(m.r.pc)
  {
  }

  /** Once the remote has failed no request that had not looked before is ever sent. */
  lemma {:induction false} NothingSentAfterFailure(s: State, t: nat, schedule: seq<Action>, s': State)
    requires s.cred.failure.Some? && t < |s.reqs| && BeforeFailureCheck(s.reqs[t].pc) && Run(s, schedule) == Some(s')
    ensures t < |s'.reqs| && BeforeFailureCheck(s'.reqs[t].pc) && !s'.reqs[t].pc.Sent?
  {
    hide Run, Next, BeforeFailureCheck, ReqStep;
    if schedule == [] {
      RunNothing(s);
    } else {
      var front, a := schedule[..|schedule| - 1], schedule[|schedule| - 1];
      var mid := RunLast(s, schedule, s');
      NothingSentAfterFailure(s, t, front, mid);
      FirstFailureStays(s, front, mid);
      CounterStep(mid, t, a, s');
      if !Others(t, a) {
        var m := ReqStep(t, mid.reqs[t], mid.cred, mid.life.closing, a.req).value;
        FailedStep(t, mid.reqs[t], mid.cred, mid.life.closing, a.req, m);
      }
    }
    NotSent(s'.reqs[t].pc);
  }

  /** A request that has not begun, looks whether the remote has failed, or records a failure. */
  predicate AtTheDoor(pc: ReqPc) {
    pc.Idle? || pc.SeeFailure? || pc.Terminate?
  }

  lemma DoorStep(t: nat, r: Request, c: Cred, closing: bool, a: ReqAct, m: Moved)
    requires c.failure.Some? && AtTheDoor(r.pc) && ReqStep(t, r, c, closing, a) == Some(m)
    ensures AtTheDoor(m.r.pc)
  {
  }

  /** Once the remote has failed a request that begins is turned away before it asks for a token. */
  lemma {:induction false} NoTokenCallAfterFailure(s: State, t: nat, schedule: seq<Action>, s': State)
    requires s.cred.failure.Some? && t < |s.reqs| && AtTheDoor(s.reqs[t].pc) && Run(s, schedule) == Some(s')
    ensures t < |s'.reqs| && AtTheDoor(s'.reqs[t].pc)
  {
    hide Run, Next, AtTheDoor, ReqStep;
    if schedule == [] {
      RunNothing(s);
    } else {
      var front, a := schedule[..|schedule| - 1], schedule[|schedule| - 1];
      var mid := RunLast(s, schedule, s');
      NoTokenCallAfterFailure(s, t, front, mid);
      FirstFailureStays(s, front, mid);
      CounterStep(mid, t, a, s');
      if !Others(t, a) {
        var m := ReqStep(t, mid.reqs[t], mid.cred, mid.life.closing, a.req).value;
        DoorStep(t, mid.reqs[t], mid.cred, mid.life.closing, a.req, m);
      }
    }
  }

  lemma NotSent(pc: ReqPc)
    ensures BeforeFailureCheck(pc) || OnlyDelete(pc) ==> (pc.Sent? ==> pc.call == First(true))
    ensures BeforeFailureCheck(pc) ==> !pc.Sent?
  {
  }

  /** A request that has not seen yet whether the remote is closing, or a session DELETE. */
  predicate OnlyDelete(pc: ReqPc) {
    match pc
    case Idle => true
    case SeeFailure(_) => true
    case SeeClosing(_) => true
    case Terminate(_) => true
    case Enter(call) => call == First(true)
    case Await(call) => call == First(true)
    case Sent(call, _) => call == First(true)
    case Locked(SeeZeroed(call)) => call == First(true)
    case Locked(SeeTerminal(call)) => call == First(true)
    case Locked(SeeExpiry(call)) => call == First(true)
    case Locked(Give(call)) => call == First(true)
    case Locked(Quit) => true
    case _ => false
  }

  lemma ClosingStep(t: nat, r: Request, c: Cred, a: ReqAct, m: Moved)
    requires OnlyDelete(r.pc) && ReqStep(t, r, c, true, a) == Some(m)
    ensures OnlyDelete(m.r.pc)
  {
    hide RefreshStep;
  }

  /** Once the remote is closing no request that had not looked before is sent but a DELETE, and none refreshes. */
  lemma {:induction false} OnlyDeletesAfterClosing(s: State, t: nat, schedule: seq<Action>, s': State)
    requires Reachable(s) && s.life.closing && t < |s.reqs| && OnlyDelete(s.reqs[t].pc) && Run(s, schedule) == Some(s')
    ensures t < |s'.reqs| && OnlyDelete(s'.reqs[t].pc) && (s'.reqs[t].pc.Sent? ==> s'.reqs[t].pc.call == First(true))
  {
    hide Run, Next, OnlyDelete, ReqStep, Reachable, Rank, RmuOk;
    if schedule == [] {
      RunNothing(s);
    } else {
      var front, a := schedule[..|schedule| - 1], schedule[|schedule| - 1];
      var mid := RunLast(s, schedule, s');
      OnlyDeletesAfterClosing(s, t, front, mid);
      ClosingMeansRank(s);
      ClosingStays(s, front, mid);
      CounterStep(mid, t, a, s');
      if !Others(t, a) {
        ClosingStep(t, mid.reqs[t], mid.cred, a.req, ReqStep(t, mid.reqs[t], mid.cred, true, a.req).value);
      }
    }
    NotSent(s'.reqs[t].pc);
  }

  lemma ClosingMeansRank(s: State)
    requires Reachable(s) && s.life.closing
    ensures Rank(s.life.shut) >= 2
  {
    hide CredOk, LocksOk, RequestsOk, ConOk, Reachable, HandleInv;
    ReachableHolds(s);
  }

  /** A request that has not found, with the remote still open, that it has to refresh. */
  predicate NotRefreshing(pc: ReqPc) {
    !(pc.Locked? && (pc.pc.SeeFresh? || pc.pc.Refreshing?))
  }

  lemma StaysUnrefreshed(t: nat, r: Request, c: Cred, a: ReqAct, m: Moved)
    requires NotRefreshing(r.pc) && ReqStep(t, r, c, true, a) == Some(m)
    ensures NotRefreshing(m.r.pc)
  {
    hide RefreshStep;
  }

  /** Once the remote is closing no refresh begins any more, for an expiring token or after a 401. */
  lemma {:induction false} NoNewRefreshAfterClosing(s: State, t: nat, schedule: seq<Action>, s': State)
    requires Reachable(s) && s.life.closing && t < |s.reqs| && NotRefreshing(s.reqs[t].pc) && Run(s, schedule) == Some(s')
    ensures t < |s'.reqs| && NotRefreshing(s'.reqs[t].pc)
  {
    hide Run, Next, NotRefreshing, ReqStep, Reachable, Rank, RmuOk;
    if schedule == [] {
      RunNothing(s);
    } else {
      var front, a := schedule[..|schedule| - 1], schedule[|schedule| - 1];
      var mid := RunLast(s, schedule, s');
      NoNewRefreshAfterClosing(s, t, front, mid);
      ClosingMeansRank(s);
      ClosingStays(s, front, mid);
      CounterStep(mid, t, a, s');
      if !Others(t, a) {
        StaysUnrefreshed(t, mid.reqs[t], mid.cred, a.req, ReqStep(t, mid.reqs[t], mid.cred, true, a.req).value);
      }
    }
  }

  /** The request has not sent a refresh. */
  predicate NoRefreshSent(pc: ReqPc) {
    !(pc.Locked? && pc.pc.Refreshing? && !pc.pc.at.RStart? && !pc.pc.at.RCtx?)
  }

  lemma EndedStep(t: nat, r: Request, c: Cred, closing: bool, a: ReqAct, m: Moved)
    requires r.ctxDone && NoRefreshSent(r.pc) && !r.pc.Idle? && ReqStep(t, r, c, closing, a) == Some(m)
    ensures m.r.pc.Idle? || (m.r.ctxDone && NoRefreshSent(m.r.pc))
  {
    hide Track, TrackedAs, Install, Discard;
  }

  /** A request whose context has ended before sends no refresh any more, up to its end. */
  lemma {:induction false} EndedContextSendsNoRefresh(s: State, t: nat, schedule: seq<Action>, s': State)
    requires t < |s.reqs| && s.reqs[t].ctxDone && NoRefreshSent(s.reqs[t].pc) && Run(s, schedule) == Some(s')
    requires forall k :: 0 <= k < |schedule| ==> UnderWay(Run(s, schedule[..k]), t)
    ensures t < |s'.reqs| && (s'.reqs[t].pc.Idle? || (s'.reqs[t].ctxDone && NoRefreshSent(s'.reqs[t].pc)))
    decreases |schedule|
  {
    hide Run, Next, ReqStep, NoRefreshSent;
    if schedule == [] {
      RunNothing(s);
    } else {
      var n := |schedule| - 1;
      var front, a := schedule[..n], schedule[n];
      var mid := RunLast(s, schedule, s');
      forall k | 0 <= k < n ensures UnderWay(Run(s, front[..k]), t) {
        assert front[..k] == schedule[..k];
      }
      EndedContextSendsNoRefresh(s, t, front, mid);
      assert UnderWay(Run(s, schedule[..n]), t);
      CounterStep(mid, t, a, s');
      if Others(t, a) {
        ContextStays(mid, t, a, s');
      } else {
        var m := ReqStep(t, mid.reqs[t], mid.cred, mid.life.closing, a.req).value;
        EndedStep(t, mid.reqs[t], mid.cred, mid.life.closing, a.req, m);
      }
    }
  }

  predicate UnderWay(s: Option<State>, t: nat) {
    s.Some? && t < |s.value.reqs| && !s.value.reqs[t].pc.Idle?
  }

  lemma ContextStays(s: State, t: nat, a: Action, s': State)
    requires t < |s.reqs| && Next(s, a) == Some(s') && Others(t, a) && s.reqs[t].ctxDone
    ensures t < |s'.reqs| && s'.reqs[t].ctxDone
  {
    hide ReqStep, ConNext, ShutNext, RecNext;
    match a
    case OfRequest(u, r) =>
      if r.Cancel? {
        CancelIs(u, s.reqs[u], s.cred, s.life.closing);
      }
    case OfConnect(x) => ConnectLeavesRequests(s, x, s');
    case OfShutdown(x) => ShutLeavesRequests(s, x, s');
    case OfReconnect(u, r) => RecKeepsCred(s, u, r, s');
    case OfBackground(_) =>
  }

  // ---- an accepted token

  /** The mark that was stored as the p-th is not there, and never will be again. */
  predicate MarkGone(c: Cred, p: nat) {
    p < c.marks && (c.mark.Some? ==> c.mark.value.ptr != p)
  }

  /** A step leaves the mark, takes it away or stores a new one. */
  predicate MarksLater(c: Cred, c': Cred) {
    c'.marks >= c.marks && (c'.mark.Some? ==> c'.mark == c.mark || c'.mark.value.ptr >= c.marks)
  }

  lemma RequestMarks(t: nat, r: Request, c: Cred, closing: bool, a: ReqAct, m: Moved)
    requires ReqStep(t, r, c, closing, a) == Some(m)
    ensures MarksLater(c, m.c)
  {
    hide LockedStep, AnswerStep, MarksLater;
    SameMarks(c);
    if !a.Cancel? {
      if r.pc.Locked? {
        LockedMarks(r.pc.pc, r.ctxDone, c, closing, a, LockedStep(r.pc.pc, r.ctxDone, c, closing, a).value);
      } else if r.pc.Sent? || r.pc.MarkLoad? || r.pc.MarkSwap? || r.pc.Terminate? {
        AnswerMarks(r, c, a, m);
      } else {
        EntryMarks(t, r, c, closing, a, m);
      }
    }
  }

  lemma AnswerMarks(r: Request, c: Cred, a: ReqAct, m: Moved)
    requires AnswerStep(r, c, a) == Some(m)
    ensures MarksLater(c, m.c)
  {
  }

  lemma EntryMarks(t: nat, r: Request, c: Cred, closing: bool, a: ReqAct, m: Moved)
    requires EntryStep(t, r, c, closing, a) == Some(m)
    ensures MarksLater(c, m.c)
  {
  }

  lemma LockedMarks(pc: LockedPc, ctxDone: bool, c: Cred, closing: bool, a: ReqAct, m: LockedMove)
    requires LockedStep(pc, ctxDone, c, closing, a) == Some(m)
    ensures MarksLater(c, m.c)
  {
    if pc.Refreshing? {
      RefreshMarks(pc, ctxDone, c, a, m);
    }
    hide RefreshStep, AccessValue;
  }

  lemma RefreshMarks(pc: LockedPc, ctxDone: bool, c: Cred, a: ReqAct, m: LockedMove)
    requires pc.Refreshing? && RefreshStep(pc.cause, pc.call, pc.at, ctxDone, c, a) == Some(m)
    ensures MarksLater(c, m.c)
  {
    hide AccessValue, RefreshValue;
  }

  lemma ConnectMarks(s: State, a: ConAct, s': State)
    requires ConNext(s, a) == Some(s')
    ensures MarksLater(s.cred, s'.cred)
  {
    hide SetupNext, InstallNext, PublishNext;
    if !InSetup(s.con) {
      PublishLeavesCred(s, a, s');
    } else if ConHolds(s.con) {
      InstallMarks(s, a, s');
    } else {
      SetupMarks(s, a, s');
    }
  }

  lemma InstallMarks(s: State, a: ConAct, s': State)
    requires InstallNext(s, a) == Some(s')
    ensures MarksLater(s.cred, s'.cred)
  {
  }

  lemma SetupMarks(s: State, a: ConAct, s': State)
    requires SetupNext(s, a) == Some(s')
    ensures MarksLater(s.cred, s'.cred)
  {
    hide StoredAs, Granted;
  }

  lemma StepMarks(s: State, a: Action, s': State)
    requires Next(s, a) == Some(s')
    ensures MarksLater(s.cred, s'.cred)
  {
    hide ReqStep, ConNext, RecNext, MarksLater;
    match a
    case OfRequest(u, r) =>
      RequestMarks(u, s.reqs[u], s.cred, s.life.closing, r, ReqStep(u, s.reqs[u], s.cred, s.life.closing, r).value);
    case OfConnect(x) => ConnectMarks(s, x, s');
    case OfShutdown(x) => ShutMarks(s, x, s');
    case OfReconnect(u, r) =>
      RecKeepsCred(s, u, r, s');
      SameMarks(s.cred);
    case OfBackground(_) => SameMarks(s.cred);
  }

  lemma SameMarks(c: Cred)
    ensures MarksLater(c, c)
  {
  }

  lemma ShutMarks(s: State, a: ShutAct, s': State)
    requires ShutNext(s, a) == Some(s')
    ensures MarksLater(s.cred, s'.cred)
  {
    ShutStepMarks(s.life.shut, s.cred);
    SameMarks(s.cred);
    hide ShutStepCred, MarksLater, ShutStepLife;
  }

  lemma ShutStepMarks(shut: ShutPc, c: Cred)
    ensures MarksLater(c, ShutStepCred(shut, c))
  {
  }

  /** The mark is gone, or the request that was accepted with its token is about to take it away. */
  predicate Clears(s: State, t: nat, tok: string, p: nat) {
    t < |s.reqs| && p < s.cred.marks && (s.cred.mark.Some? && s.cred.mark.value.ptr == p ==> s.cred.mark.value.token == tok)
    && (MarkGone(s.cred, p)
        || (s.reqs[t].pc.MarkLoad? && s.reqs[t].pc.token == tok)
        || (s.reqs[t].pc.MarkSwap? && s.reqs[t].pc.token == tok && s.reqs[t].pc.ptr == p))
  }

  lemma ClearsOnce(t: nat, r: Request, c: Cred, closing: bool, a: ReqAct, m: Moved, tok: string, p: nat)
    requires p < c.marks && (c.mark.Some? && c.mark.value.ptr == p ==> c.mark.value.token == tok) && !a.Cancel?
    requires (r.pc.MarkLoad? && r.pc.token == tok) || (r.pc.MarkSwap? && r.pc.token == tok && r.pc.ptr == p)
    requires ReqStep(t, r, c, closing, a) == Some(m)
    ensures MarkGone(m.c, p) || (m.r.pc == MarkSwap(tok, p, r.pc.after) && m.c == c)
  {
  }

  lemma {:induction false} ClearingGoesOn(s: State, t: nat, tok: string, p: nat, schedule: seq<Action>, s': State)
    requires Clears(s, t, tok, p) && Run(s, schedule) == Some(s')
    ensures Clears(s', t, tok, p)
  {
    hide Run, Next, ReqStep;
    if schedule == [] {
      RunNothing(s);
    } else {
      var mid := RunLast(s, schedule, s');
      ClearingGoesOn(s, t, tok, p, schedule[..|schedule| - 1], mid);
      var a := schedule[|schedule| - 1];
      StepMarks(mid, a, s');
      CounterStep(mid, t, a, s');
      if !Others(t, a) && !MarkGone(mid.cred, p) {
        ClearsOnce(t, mid.reqs[t], mid.cred, mid.life.closing, a.req,
                   ReqStep(t, mid.reqs[t], mid.cred, mid.life.closing, a.req).value, tok, p);
      }
    }
  }

  /**
   A request is answered with the newest minted token, and not by a 401: by the time it is over, the mark that calls this
   token unproven is gone for good.
   */
  lemma AcceptedTokenIsProven(s: State, t: nat, token: string, p: nat, after: After, schedule: seq<Action>, s': State)
    requires Reachable(s) && t < |s.reqs| && s.reqs[t].pc.Sent? && s.reqs[t].pc.token == token
    requires s.reqs[t].pc.call != First(true) && s.cred.mark == Some(FreshMark(p, token))
    requires schedule != [] && schedule[0] == OfRequest(t, Answered(after)) && Run(s, schedule) == Some(s')
    ensures t < |s'.reqs| && (s'.reqs[t].pc.Idle? || s'.reqs[t].pc.Terminate? ==> MarkGone(s'.cred, p))
  {
    hide Run, Next, Reachable, CredInv, ReqStep;
    MarkIsOld(s);
    var mid := FirstStep(s, schedule, s');
    CounterStep(s, t, schedule[0], mid);
    BeginsClearing(t, s.reqs[t], s.cred, s.life.closing, after);
    ClearingGoesOn(mid, t, token, p, schedule[1..], s');
  }

  lemma BeginsClearing(t: nat, r: Request, c: Cred, closing: bool, after: After)
    requires r.pc.Sent? && r.pc.call != First(true)
    ensures var m := ReqStep(t, r, c, closing, Answered(after));
            m.Some? && m.value.r.pc == MarkLoad(r.pc.token, after) && m.value.c.mark == c.mark && m.value.c.marks == c.marks
  {
  }

  lemma MarkIsOld(s: State)
    requires Reachable(s)
    ensures s.cred.mark.Some? ==> s.cred.mark.value.ptr < s.cred.marks
  {
    ReachableHolds(s);
    hide StorageOk, RedactorOk, HistoryOk, RotationOk, AllWiped, RequestsOk, ConOk, TokenOk, ShutOk, Reachable, HandleInv;
  }

  // ---- what ends the remote

  /** The answer to a sent request, or to a body being read, that no refresh can mend; and how it fails the remote. */
  function FatalAnswer(pc: ReqPc, a: ReqAct): Option<FailureKind> {
    if pc.Idle? && a.Overflow? then Some(Protocol)
    else if pc.Sent? && pc.call.Retry? && a.Unauthorized? then Some(TerminalAuth)
    else if pc.Sent? && pc.call == First(false) && a == Unauthorized(false) then Some(TerminalAuth)
    else if pc.Sent? && pc.call != First(true) && a.Answered? && a.after.Refuse? then Some(a.after.kind)
    else None
  }

  /**
   A refresh that cannot go on: the rejected token is itself unproven, there is no refresh token, no reply comes, or the
   reply has no token, is not of the bearer type or out of scope.
   */
  predicate FatalRefresh(pc: ReqPc, a: ReqAct, c: Cred) {
    match pc
    case Locked(SeeFresh(used)) => c.mark.Some? && c.mark.value.token == used
    case Locked(Refreshing(_, _, RSend)) => RefreshValue(c) == ""
    case Locked(Refreshing(_, _, RWait)) => a == TokenReply(Lost)
    case Locked(Refreshing(_, _, RDecide(reply, _))) =>
      reply.Tokens? && (reply.access == "" || !reply.bearer || !reply.scoped)
    case _ => false
  }

  function Fatal(pc: ReqPc, a: ReqAct, c: Cred): Option<FailureKind> {
    if !a.Cancel? && FatalRefresh(pc, a, c) then Some(TerminalAuth) else FatalAnswer(pc, a)
  }

  /** The request is about to record a failure. */
  predicate Dooming(pc: ReqPc, kind: FailureKind) {
    match pc
    case Terminate(k) => k == kind
    case MarkLoad(_, after) => after == Refuse(kind)
    case MarkSwap(_, _, after) => after == Refuse(kind)
    case Locked(Terminal) => kind == TerminalAuth
    case _ => false
  }

  lemma DoomedStep(t: nat, r: Request, c: Cred, closing: bool, a: ReqAct, m: Moved, kind: FailureKind)
    requires Dooming(r.pc, kind) && ReqStep(t, r, c, closing, a) == Some(m)
    ensures Dooming(m.r.pc, kind) || m.c.failure == if c.failure.None? then Some(kind) else c.failure
    ensures Dooming(m.r.pc, kind) || m.r.pc.Idle? || m.r.pc == Locked(Quit)
  {
    hide RefreshStep;
  }

  lemma FatalStep(t: nat, r: Request, c: Cred, closing: bool, a: ReqAct, m: Moved)
    requires Fatal(r.pc, a, c).Some? && ReqStep(t, r, c, closing, a) == Some(m)
    ensures Dooming(m.r.pc, Fatal(r.pc, a, c).value)
  {
    hide Track, TrackedAs, Wipe;
  }

  /** Unless the remote has failed before, it has this failure once the request is over. */
  predicate Failed(s: State, t: nat, kind: FailureKind) {
    t < |s.reqs| && (Dooming(s.reqs[t].pc, kind) || s.cred.failure.Some?)
  }

  /**
   A 401 for a fresh token or for a request that cannot be sent again, a refused body or one too long, and a refresh
   that cannot go on end the remote.
   */
  lemma {:induction false} FatalAnswersFail(s: State, t: nat, a: ReqAct, schedule: seq<Action>, s': State)
    requires t < |s.reqs| && Fatal(s.reqs[t].pc, a, s.cred).Some?
    requires schedule != [] && schedule[0] == OfRequest(t, a) && Run(s, schedule) == Some(s')
    ensures Failed(s', t, Fatal(s.reqs[t].pc, a, s.cred).value)
    ensures s'.reqs[t].pc.Idle? ==> s'.cred.failure.Some?
    decreases |schedule|
  {
    hide Run, Next, Fatal, Dooming, ReqStep;
    var n := |schedule| - 1;
    var kind := Fatal(s.reqs[t].pc, a, s.cred).value;
    var mid := RunLast(s, schedule, s');
    if n == 0 {
      assert schedule[..0] == [];
      RunNothing(s);
      CounterStep(s, t, schedule[0], s');
      NoFatalCancel(s.reqs[t].pc, s.cred);
      FatalStep(t, s.reqs[t], s.cred, s.life.closing, a, ReqStep(t, s.reqs[t], s.cred, s.life.closing, a).value);
    } else {
      FatalAnswersFail(s, t, a, schedule[..n], mid);
      CounterStep(mid, t, schedule[n], s');
      if mid.cred.failure.Some? {
        StepKeepsFailure(mid, schedule[n], s');
      } else if !Others(t, schedule[n]) {
        var b := schedule[n].req;
        var m := ReqStep(t, mid.reqs[t], mid.cred, mid.life.closing, b).value;
        DoomedStep(t, mid.reqs[t], mid.cred, mid.life.closing, b, m, kind);
      }
    }
    NotDoomed(s'.reqs[t].pc, kind);
  }

  lemma NoFatalCancel(pc: ReqPc, c: Cred)
    ensures Fatal(pc, Cancel, c).None?
  {
  }

  lemma NotDoomed(pc: ReqPc, kind: FailureKind)
    ensures pc.Idle? ==> !Dooming(pc, kind)
  {
  }

  /** The answer to a DELETE changes nothing, whatever it is. */
  lemma DeleteChangesNothing(s: State, t: nat, token: string, a: ReqAct, s': State)
    requires t < |s.reqs| && s.reqs[t].pc == Sent(First(true), token) && !a.Cancel? && ReqNext(s, t, a) == Some(s')
    ensures s'.cred == s.cred && s'.life == s.life && s'.reqs[t].pc.Idle?
  {
  }
}
