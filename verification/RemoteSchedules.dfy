/** Schedules that show that the exceptions the theorems name do happen. */
module RemoteSchedules {
  import opened Wrappers
  import opened RemoteLog
  import opened RemoteModel
  import opened RemoteInvariant
  import opened RemoteHandleProof
  import opened RemoteTheorems
  import opened RemoteProgress

  /** One more step of a run that is under way. */
  lemma Go(s: State, a: Action) returns (s': State)
    requires Reachable(s) && Next(s, a).Some?
    ensures Next(s, a) == Some(s') && Reachable(s')
  {
    hide Next, Reachable;
    s' := Next(s, a).value;
    StepLeads(s, a, s');
    LeadsReaches(s, s');
  }

  lemma AtFirst(n: nat, m: nat) returns (s: State)
    ensures Reachable(s) && s == InitState(n, m)
  {
    s := InitState(n, m);
    assert Run(s, []) == Some(s);
  }

  // ---- the connecting call

  /** A fresh remote with one connect in flight; nobody else has done anything. */
  predicate Connecting(s: State, n: nat, m: nat, con: ConPc, created: nat) {
    && s.con == con && s.reqs == InitState(n, m).reqs && s.recs == InitState(n, m).recs
    && s.life == InitState(n, m).life.(setup := 1)
    && s.handle == InitState(n, m).handle.(created := created)
    && s.cred.failure.None? && !s.cred.zeroed && s.cred.lock.Free? && s.cred.mark.None?
  }

  /** Both tokens are held and live. */
  predicate Holds(c: Cred, ts: TokenSet, access: string, refresh: string) {
    Reveal(c.store, ts.access) == access != "" && Reveal(c.store, ts.refresh) == refresh != ""
  }

  lemma SomeoneConsents(n: nat, m: nat) returns (s: State)
    ensures Reachable(s) && Connecting(s, n, m, CConsent({}), 0) && s.cred == InitState(n, m).cred
  {
    hide Reachable;
    s := AtFirst(n, m);
    s := Go(s, OfConnect(ConStep));
    s := Go(s, OfConnect(Registered("", true)));
  }

  /** The user approves and the server grants tokens. */
  lemma SomeoneApproves(n: nat, m: nat, access: string, refresh: string) returns (s: State, ts: TokenSet)
    requires access != "" && refresh != ""
    ensures Reachable(s) && Connecting(s, n, m, CHave(ts), 0)
    ensures Holds(s.cred, ts, access, refresh) && s.cred.tok.None? && s.cred.log == Begun
  {
    hide Reachable;
    s := SomeoneConsents(n, m);
    s := Go(s, OfConnect(Exchanged(Tokens(access, refresh, true, true))));
    s := Go(s, OfConnect(ConStep));
    s := Go(s, OfConnect(ConStep));
    s := Go(s, OfConnect(ConStep));
    ts := s.con.ts;
  }

  /** ConnectRemote installs them. */
  lemma SomeoneInstalls(n: nat, m: nat, access: string, refresh: string) returns (s: State)
    requires access != "" && refresh != ""
    ensures Reachable(s) && Connecting(s, n, m, CDialFailure, 0) && s.cred.tok.Some?
    ensures Holds(s.cred, s.cred.tok.value, access, refresh) && s.cred.log == Then(Begun, Installed(access, refresh))
  {
    hide Reachable;
    var ts;
    s, ts := SomeoneApproves(n, m, access, refresh);
    s := Go(s, OfConnect(ConStep));
    s := Go(s, OfConnect(ConStep));
    s := Go(s, OfConnect(ConStep));
  }

  lemma SomeoneDials(m: nat) returns (s: State)
    ensures Reachable(s) && Connecting(s, 0, m, CDialing, 0)
  {
    hide Reachable, Holds;
    s := SomeoneInstalls(0, m, "t", "r");
    s := Go(s, OfConnect(ConStep));
    s := Go(s, OfConnect(ConStep));
  }

  /** And opens the session. */
  lemma SomeoneConnects(m: nat) returns (s: State)
    ensures Reachable(s) && Connecting(s, 0, m, CUnwind(Some(0)), 1)
  {
    hide Reachable;
    s := SomeoneDials(m);
    s := Go(s, OfConnect(DialOk));
    s := Go(s, OfConnect(ConStep));
  }

  /** The remote is published and, perhaps, Manager.Shutdown has begun. */
  predicate Published(s: State, m: nat, down: bool) {
    && s.con.CPublished? && s.recs == InitState(0, m).recs
    && s.life == InitState(0, m).life.(published := true, down := down)
    && s.handle == InitState(0, m).handle.(created := 1, client := Some(0))
    && s.cred.failure.None? && s.cred.lock.Free?
  }

  lemma SomeonePublishes(m: nat) returns (s: State)
    ensures Reachable(s) && Published(s, m, false)
  {
    hide Reachable;
    s := SomeoneConnects(m);
    s := Go(s, OfConnect(ConStep));
    s := Go(s, OfConnect(Publish));
  }

  lemma SomeoneGoesDown() returns (s: State)
    ensures Reachable(s) && Published(s, 0, true)
  {
    hide Reachable;
    s := SomeonePublishes(0);
    s := Go(s, OfShutdown(ManagerDown));
  }

  // ---- a session that shutdown leaves open

  /** A handle's shutdown that lost the race leaves its session open once everybody is done. */
  lemma LostSessionStaysOpen(s: State) returns (s': State)
    requires Reachable(s) && OtherWon(s.life) && s.life.published && s.life.handleShut.HLost?
    requires s.con.CDone? && s.life.bg == 0 && s.recs == []
    ensures Reachable(s') && Quiet(s') && !AllClosed(s'.handle) && s'.life.via == s.life.via
  {
    hide Reachable;
    s' := ShutdownCanFinish(s);
    AllClosedExactlyUnless(s');
  }

  /** Manager.Shutdown finds the remote both published and still pending; the pending path gets in first. */
  lemma PendingShutdownWins() returns (s: State)
    ensures Reachable(s) && s.life.via == Some(ByPending) && s.life.published && s.life.handleShut == HTaken(Some(0))
    ensures s.con.CDone? && s.life.bg == 0 && s.recs == []
  {
    hide Reachable;
    s := SomeoneGoesDown();
    s := Go(s, OfShutdown(ReadPending));
    s := Go(s, OfShutdown(PendingOnce));
    s := Go(s, OfConnect(ConStep));
    s := Go(s, OfShutdown(CloseHandle));
  }

  /** So a connected remote can be shut down completely with its session still open. */
  lemma SessionCanStayOpen() returns (s: State)
    ensures Reachable(s) && Quiet(s) && s.life.via == Some(ByPending) && !AllClosed(s.handle)
  {
    hide Reachable;
    s := PendingShutdownWins();
    s := Go(s, OfShutdown(HandleOnce));
    s := LostSessionStaysOpen(s);
  }

  /** One Manager.Shutdown takes the client from the handle; another finds it empty and gets in first. */
  lemma LateShutdownWins() returns (s: State)
    ensures Reachable(s) && s.life.via == Some(ByLate) && s.life.published && s.life.handleShut == HTaken(Some(0))
    ensures s.con.CDone? && s.life.bg == 0 && s.recs == []
  {
    hide Reachable;
    s := SomeoneGoesDown();
    s := Go(s, OfConnect(ConStep));
    s := Go(s, OfShutdown(CloseHandle));
    s := Go(s, OfShutdown(LateOnce));
  }

  /** The same without anything pending: two overlapping calls of Manager.Shutdown are enough. */
  lemma SessionCanStayOpenLate() returns (s: State)
    ensures Reachable(s) && Quiet(s) && s.life.via == Some(ByLate) && !AllClosed(s.handle)
  {
    hide Reachable;
    s := LateShutdownWins();
    s := Go(s, OfShutdown(HandleOnce));
    s := LostSessionStaysOpen(s);
  }

  // ---- a background close during the wipe

  /** A published remote whose one reconnecting caller is at work while shutdown is where it is. */
  predicate Redialing(s: State, pc: RecPc, l: Life) {
    && s.con.CPublished? && s.recs == [Reconnector(pc, false)] && s.life == l
    && s.handle.rmu == Some(0) && s.handle.client == Some(0) && !s.handle.closed && s.handle.gen == 0
    && s.handle.created == 1 && s.handle.reconnects == 0 && s.handle.dials == (if pc.NDialing? then 1 else 0)
    && s.cred.failure.None? && s.cred.lock.Free?
  }

  function Running(): Life {
    InitState(0, 1).life.(published := true)
  }

  lemma CallerWaits() returns (s: State)
    ensures Reachable(s) && Redialing(s, NCtx(0), Running())
  {
    hide Reachable;
    s := SomeonePublishes(1);
    s := Go(s, OfReconnect(0, Snapshot));
    s := Go(s, OfReconnect(0, RecStep));
    s := Go(s, OfReconnect(0, RecStep));
  }

  lemma CallerLooks() returns (s: State)
    ensures Reachable(s) && Redialing(s, NFailure(0, 0), Running())
  {
    hide Reachable;
    s := CallerWaits();
    s := Go(s, OfReconnect(0, RecStep));
    s := Go(s, OfReconnect(0, RecStep));
    s := Go(s, OfReconnect(0, RecStep));
  }

  lemma CallerDials() returns (s: State)
    ensures Reachable(s) && Redialing(s, NDialing(0, 0), Running())
  {
    hide Reachable;
    s := CallerLooks();
    s := Go(s, OfReconnect(0, RecStep));
    s := Go(s, OfReconnect(0, RecStep));
    s := Go(s, OfReconnect(0, RecStep));
    s := Go(s, OfReconnect(0, RecStep));
  }

  /** Manager.Shutdown found the remote pending and has come this far. */
  function Pending(shut: ShutPc): Life {
    var l := Running().(down := true, sawPending := Some(true), via := Some(ByPending), shut := shut);
    if Rank(shut) >= 3 then l.(closing := true, closeReturned := true) else l
  }

  lemma PendingShutdownBegins() returns (s: State)
    ensures Reachable(s)
    ensures Redialing(s, NDialing(0, 0), Pending(SMark))
  {
    hide Reachable;
    s := CallerDials();
    s := Go(s, OfShutdown(ManagerDown));
    s := Go(s, OfShutdown(ReadPending));
    s := Go(s, OfShutdown(PendingOnce));
  }

  /** doShutdown, given no client, waits for nothing but the lock. */
  lemma JoinsAreOver() returns (s: State)
    ensures Reachable(s) && Redialing(s, NDialing(0, 0), Pending(SJoinBg))
  {
    hide Reachable;
    s := PendingShutdownBegins();
    s := Go(s, OfShutdown(ShutStep));
    s := Go(s, OfShutdown(ShutStep));
    s := Go(s, OfShutdown(ShutStep));
    s := Go(s, OfShutdown(ShutStep));
  }

  lemma WipeBegins() returns (s: State)
    ensures Reachable(s) && s.recs == [Reconnector(NDialing(0, 0), false)] && s.life == Pending(SWipe)
    ensures s.handle.rmu == Some(0) && s.handle.client == Some(0) && !s.handle.closed
  {
    hide Reachable;
    s := JoinsAreOver();
    s := Go(s, OfShutdown(ShutStep));
    s := Go(s, OfShutdown(ShutStep));
    s := Go(s, OfShutdown(ShutStep));
  }

  /** So a client can be in the middle of its background close while the credentials are wiped. */
  lemma BackgroundCanRunDuringWipe() returns (s: State)
    ensures Reachable(s) && s.life.shut.SWipe? && s.life.bg == 1 && PendingWon(s.life)
  {
    hide Reachable;
    s := WipeBegins();
    s := Go(s, OfReconnect(0, RecDialOk));
    s := Go(s, OfReconnect(0, RecStep));
  }

  // ---- a token that the server issues again

  /** The state with one request's record and the credentials put in. */
  function With(s: State, t: nat, r: Request, c: Cred): State
    requires t < |s.reqs|
  {
    s.(cred := c, reqs := s.reqs[t := r])
  }

  /** A step of one request, as it concerns that request and the credentials. */
  lemma Moves(s: State, t: nat, r: Request, c: Cred, a: ReqAct, r': Request, c': Cred)
    requires t < |s.reqs| && Reachable(With(s, t, r, c))
    requires ReqStep(t, r, c, s.life.closing, a) == Some(Moved(r', c'))
    ensures Reachable(With(s, t, r', c'))
  {
    hide Reachable, ReqStep;
    var before := With(s, t, r, c);
    var after := Go(before, OfRequest(t, a));
    assert after == With(s, t, r', c');
  }

  function Fresh(pc: ReqPc): Request {
    Request(pc, false, false)
  }

  /** Nothing stands in the way of a token call. */
  predicate Open(c: Cred, closing: bool, access: string) {
    c.lock.Free? && c.failure.None? && !c.zeroed && !closing && c.tok.Some? && AccessValue(c) == access != ""
  }

  /** A request is given the token. */
  lemma GetsToken(s: State, t: nat, c: Cred, access: string)
    requires t < |s.reqs| && Reachable(With(s, t, Fresh(Idle), c)) && Open(c, s.life.closing, access)
    ensures Reachable(With(s, t, Fresh(Sent(First(false), access)), c))
  {
    hide Reachable, With;
    var f, held := First(false), c.(lock := HeldByRequest(t));
    ComesToExpiry(s, t, c, access);
    Moves(s, t, Fresh(Locked(SeeExpiry(f))), held, Clock(false), Fresh(Locked(Give(f))), held);
    assert held.(lock := Free) == c;
    Moves(s, t, Fresh(Locked(Give(f))), held, Step, Fresh(Sent(f, access)), c);
  }

  /** It has the lock and is about to look at the clock. */
  lemma ComesToExpiry(s: State, t: nat, c: Cred, access: string)
    requires t < |s.reqs| && Reachable(With(s, t, Fresh(Idle), c)) && Open(c, s.life.closing, access)
    ensures Reachable(With(s, t, Fresh(Locked(SeeExpiry(First(false)))), c.(lock := HeldByRequest(t))))
  {
    hide Reachable, With;
    var f, held := First(false), c.(lock := HeldByRequest(t));
    Moves(s, t, Fresh(Idle), c, Begin(false), Fresh(SeeFailure(false)), c);
    Moves(s, t, Fresh(SeeFailure(false)), c, Step, Fresh(SeeClosing(false)), c);
    Moves(s, t, Fresh(SeeClosing(false)), c, Step, Fresh(Enter(f)), c);
    Moves(s, t, Fresh(Enter(f)), c, Step, Fresh(Await(f)), c);
    Moves(s, t, Fresh(Await(f)), c, Step, Fresh(Locked(SeeZeroed(f))), held);
    Moves(s, t, Fresh(Locked(SeeZeroed(f))), held, Step, Fresh(Locked(SeeTerminal(f))), held);
    Moves(s, t, Fresh(Locked(SeeTerminal(f))), held, Step, Fresh(Locked(SeeExpiry(f))), held);
  }

  /** Its 401 takes the lock and finds the token unmarked. */
  lemma StartsRefresh(s: State, t: nat, c: Cred, access: string)
    requires t < |s.reqs| && Reachable(With(s, t, Fresh(Sent(First(false), access)), c))
    requires Open(c, s.life.closing, access) && c.mark.None?
    ensures Reachable(With(s, t, Fresh(Locked(Refreshing(Rejected(access), Retry(access), RStart))),
                           c.(lock := HeldByRequest(t))))
  {
    hide Reachable, With;
    var f, held := Retry(access), c.(lock := HeldByRequest(t));
    Moves(s, t, Fresh(Sent(First(false), access)), c, Unauthorized(true), Fresh(Enter(f)), c);
    Moves(s, t, Fresh(Enter(f)), c, Step, Fresh(Await(f)), c);
    Moves(s, t, Fresh(Await(f)), c, Step, Fresh(Locked(SeeZeroed(f))), held);
    Moves(s, t, Fresh(Locked(SeeZeroed(f))), held, Step, Fresh(Locked(SeeTerminal(f))), held);
    Moves(s, t, Fresh(Locked(SeeTerminal(f))), held, Step, Fresh(Locked(Compare(access))), held);
    Moves(s, t, Fresh(Locked(Compare(access))), held, Step, Fresh(Locked(SeeClosingLocked(access))), held);
    Moves(s, t, Fresh(Locked(SeeClosingLocked(access))), held, Step, Fresh(Locked(SeeFresh(access))), held);
    Moves(s, t, Fresh(Locked(SeeFresh(access))), held, Step,
          Fresh(Locked(Refreshing(Rejected(access), f, RStart))), held);
  }

  function InRefreshPc(cause: Cause, call: Call, at: RefreshPc): Request {
    Fresh(Locked(Refreshing(cause, call, at)))
  }

  /** The refresh leaves. */
  lemma SendsRefresh(s: State, t: nat, c: Cred, cause: Cause, call: Call)
    requires t < |s.reqs| && Reachable(With(s, t, InRefreshPc(cause, call, RStart), c))
    requires c.lock == HeldByRequest(t) && c.failure.None? && RefreshValue(c) != ""
    ensures Reachable(With(s, t, InRefreshPc(cause, call, RWait), Note(c, RefreshSent(RefreshValue(c), cause))))
  {
    hide Reachable, With;
    Moves(s, t, InRefreshPc(cause, call, RStart), c, Step, InRefreshPc(cause, call, RCtx), c);
    Moves(s, t, InRefreshPc(cause, call, RCtx), c, Step, InRefreshPc(cause, call, RSend), c);
    Moves(s, t, InRefreshPc(cause, call, RSend), c, Step, InRefreshPc(cause, call, RWait),
          Note(c, RefreshSent(RefreshValue(c), cause)));
  }

  /** The credentials when a granted reply has been installed and marked, and the lock released. */
  function Refreshed(c: Cred, access: string, refresh: string): Cred
    requires c.tok.Some?
  {
    var reply := Tokens(access, refresh, true, true);
    var c1, first := Track(c, access), TrackedAs(c, access);
    var c2 := Install(Track(c1, refresh), reply, TokenSet(first, TrackedAs(c1, refresh)));
    c2.(mark := Some(FreshMark(c2.marks, access)), marks := c2.marks + 1, lock := Free)
  }

  /** The server's reply carries these tokens, and they are installed. */
  lemma TakesReply(s: State, t: nat, c: Cred, cause: Cause, call: Call, access: string,
                  refresh: string)
    requires t < |s.reqs| && Reachable(With(s, t, InRefreshPc(cause, call, RWait), c))
    requires c.lock == HeldByRequest(t) && c.tok.Some? && access != ""
    ensures Reachable(With(s, t, Fresh(Sent(call, AccessValue(Refreshed(c, access, refresh)))),
                           Refreshed(c, access, refresh)))
  {
    hide Reachable, With, Track, TrackedAs, Install, AccessValue;
    var reply := Tokens(access, refresh, true, true);
    var c1, first := Track(c, access), TrackedAs(c, access);
    var c2, ts := Track(c1, refresh), TokenSet(first, TrackedAs(c1, refresh));
    TracksTwice(c, access, refresh);
    var c3 := Install(c2, reply, ts);
    var c4 := c3.(mark := Some(FreshMark(c3.marks, access)), marks := c3.marks + 1);
    Moves(s, t, InRefreshPc(cause, call, RWait), c, TokenReply(reply), InRefreshPc(cause, call, RTrack(reply)), c);
    Moves(s, t, InRefreshPc(cause, call, RTrack(reply)), c, Step, InRefreshPc(cause, call, RTrackMore(reply, first)), c1);
    Moves(s, t, InRefreshPc(cause, call, RTrackMore(reply, first)), c1, Step, InRefreshPc(cause, call, RDecide(reply, ts)), c2);
    Moves(s, t, InRefreshPc(cause, call, RDecide(reply, ts)), c2, Step, InRefreshPc(cause, call, RMark(access)), c3);
    Moves(s, t, InRefreshPc(cause, call, RMark(access)), c3, Step, Fresh(Locked(Give(call))), c4);
    AccessIgnoresLock(c4);
    Moves(s, t, Fresh(Locked(Give(call))), c4, Step, Fresh(Sent(call, AccessValue(c4))),
          c4.(lock := Free));
  }

  lemma AccessIgnoresLock(c: Cred)
    ensures AccessValue(c.(lock := Free)) == AccessValue(c)
  {
  }

  lemma TracksTwice(c: Cred, access: string, refresh: string)
    requires c.tok.Some?
    ensures var c2 := Track(Track(c, access), refresh);
            c2.lock == c.lock && c2.tok == c.tok && Track(c, access).lock == c.lock
    ensures forall reply: Reply, ts | reply.Tokens? ::
              Install(Track(Track(c, access), refresh), reply, ts).lock == c.lock
  {
  }

  lemma RefreshedIsOpen(c: Cred, closing: bool, access: string, refresh: string)
    requires c.tok.Some? && c.failure.None? && !c.zeroed && !closing && access != "" && refresh != ""
    ensures var r := Refreshed(c, access, refresh);
            Open(r, closing, access) && RefreshValue(r) == refresh && r.log == Then(c.log, Minted(access, refresh))
            && r.mark.Some? && r.mark.value.token == access
  {
  }

  /** A request accepted before the mint clears the mark after it. */
  lemma ClearsMark(s: State, t: nat, c: Cred, access: string)
    requires t < |s.reqs| && Reachable(With(s, t, Fresh(MarkLoad(access, Deliver)), c))
    requires c.mark.Some? && c.mark.value.token == access
    ensures Reachable(With(s, t, Fresh(Idle), c.(mark := None)))
  {
    hide Reachable, With;
    var swap := Fresh(MarkSwap(access, c.mark.value.ptr, Deliver));
    Moves(s, t, Fresh(MarkLoad(access, Deliver)), c, Step, swap, c);
    Moves(s, t, swap, c, Step, Fresh(Idle), c.(mark := None));
  }

  /** One request is accepted with the first token and stops before it looks at the mark. */
  lemma AcceptedInTime(token: string) returns (s: State)
    requires token != ""
    ensures Reachable(s) && |s.reqs| == 2 && s.reqs[0] == Fresh(MarkLoad(token, Deliver)) && s.reqs[1] == Fresh(Idle)
    ensures Open(s.cred, s.life.closing, token) && RefreshValue(s.cred) == "R" && s.cred.mark.None?
    ensures s.cred.log == Then(Then(Begun, Installed(token, "R")), Accepted(token))
  {
    hide Reachable;
    var b := SomeoneInstalls(2, 0, token, "R");
    assert b == With(b, 0, Fresh(Idle), b.cred);
    GetsToken(b, 0, b.cred, token);
    var c := Note(b.cred, Accepted(token));
    Moves(b, 0, Fresh(Sent(First(false), token)), b.cred, Answered(Deliver), Fresh(MarkLoad(token, Deliver)), c);
    s := With(b, 0, Fresh(MarkLoad(token, Deliver)), c);
  }

  /** The other one's 401 refreshes, and the server issues the same token again. */
  lemma SameTokenAgain(token: string) returns (s: State)
    requires token != ""
    ensures Reachable(s) && |s.reqs| == 2 && s.reqs[0] == Fresh(MarkLoad(token, Deliver))
    ensures Open(s.cred, s.life.closing, token) && RefreshValue(s.cred) == "S"
    ensures s.cred.mark.Some? && s.cred.mark.value.token == token
    ensures s.cred.log.Then? && s.cred.log.last == Minted(token, "S") && WasAccepted(s.cred.log.prior, token)
  {
    hide Reachable, Refreshed;
    var b := AcceptedInTime(token);
    var c := b.cred;
    assert b == With(b, 1, Fresh(Idle), c);
    GetsToken(b, 1, c, token);
    StartsRefresh(b, 1, c, token);
    var held := c.(lock := HeldByRequest(1));
    SendsRefresh(b, 1, held, Rejected(token), Retry(token));
    var sent := Note(held, RefreshSent("R", Rejected(token)));
    TakesReply(b, 1, sent, Rejected(token), Retry(token), token, "S");
    RefreshedIsOpen(sent, b.life.closing, token, "S");
    s := With(b, 1, Fresh(Sent(Retry(token), token)), Refreshed(sent, token, "S"));
  }

  /**
   So any token that a server mints again once it was accepted can be refreshed on a 401 though no request was accepted
   with it since: the acceptance came before the mint, and only its bookkeeping after.
   */
  lemma ReissuedTokenRefreshedUnproven(token: string) returns (s: State)
    requires token != ""
    ensures Reachable(s) && !RejectedWasProven(s.cred.log) && !MintsUnaccepted(s.cred.log)
    ensures LastMint(s.cred.log) == Some(token) && !AcceptedSinceMint(s.cred.log, token)
    ensures s.cred.log.Then? && s.cred.log.last == RefreshSent("S", Rejected(token))
  {
    hide Reachable;
    var b := SameTokenAgain(token);
    assert b == With(b, 0, Fresh(MarkLoad(token, Deliver)), b.cred);
    ClearsMark(b, 0, b.cred, token);
    var c := b.cred.(mark := None);
    GetsToken(b, 0, c, token);
    StartsRefresh(b, 0, c, token);
    var held := c.(lock := HeldByRequest(0));
    SendsRefresh(b, 0, held, Rejected(token), Retry(token));
    s := With(b, 0, InRefreshPc(Rejected(token), Retry(token), RWait), Note(held, RefreshSent("S", Rejected(token))));
    RefreshSafety(s);
  }

  // ---- a token about to expire

  /** A request that finds its token about to expire is sent with the one its refresh minted. */
  lemma DueTokenCanBeRefreshed(token: string, minted: string) returns (s: State)
    requires token != "" && minted != ""
    ensures Reachable(s) && |s.reqs| == 1 && s.reqs[0].pc == Sent(First(false), minted)
    ensures s.cred.log == Then(Then(Then(Begun, Installed(token, "R")), RefreshSent("R", Expiring)), Minted(minted, "S"))
  {
    hide Reachable, Refreshed;
    var b := SomeoneInstalls(1, 0, token, "R");
    assert b == With(b, 0, Fresh(Idle), b.cred);
    ComesToExpiry(b, 0, b.cred, token);
    var held, f := b.cred.(lock := HeldByRequest(0)), First(false);
    Moves(b, 0, Fresh(Locked(SeeExpiry(f))), held, Clock(true), InRefreshPc(Expiring, f, RStart), held);
    SendsRefresh(b, 0, held, Expiring, f);
    var sent := Note(held, RefreshSent("R", Expiring));
    TakesReply(b, 0, sent, Expiring, f, minted, "S");
    RefreshedIsOpen(sent, b.life.closing, minted, "S");
    s := With(b, 0, Fresh(Sent(f, minted)), Refreshed(sent, minted, "S"));
  }

  // ---- a reconnect

  /** A reconnecting caller is given the client it dialed, which the handle then has. */
  lemma CallerReconnects() returns (s: State)
    ensures Reachable(s) && s.recs == [Reconnector(NUnlock(Some(1)), false)]
    ensures s.handle.client == Some(1) && s.handle.gen == s.handle.reconnects == s.handle.dials == 1
    ensures s.life.closers == {0} && s.life.bg == 1
  {
    hide Reachable;
    s := CallerDials();
    s := Go(s, OfReconnect(0, RecDialOk));
    s := Go(s, OfReconnect(0, RecStep));
  }

  /** Steps of one caller alone. */
  predicate OnlyCaller(schedule: seq<Action>, t: nat) {
    forall a :: a in schedule ==> a.OfReconnect? && a.t == t
  }

  lemma CallerGoes(s: State, schedule: seq<Action>, mid: State, t: nat, a: RecAct) returns (more: seq<Action>, s': State)
    requires Run(s, schedule) == Some(mid) && OnlyCaller(schedule, t) && t < |mid.recs| && RecNext(mid, t, a).Some?
    ensures Some(s') == RecNext(mid, t, a) && Run(s, more) == Some(s') && OnlyCaller(more, t)
  {
    hide Run, RecNext;
    s' := RecNext(mid, t, a).value;
    more := schedule + [OfReconnect(t, a)];
    RunOneMore(s, schedule, mid, OfReconnect(t, a), s');
  }

  /** The caller has got this far, counting its dial once it has looked at everything. */
  function CallerAt(s: State, t: nat, pc: RecPc): State
    requires t < |s.recs|
  {
    RecWith(s, t, pc, if pc.NRead? || pc.NDown? || pc.NFailure? || pc.NClosing? then s.handle
                      else s.handle.(dials := s.handle.dials + 1))
  }

  /**
   A caller that finds its generation current, with nothing down, failed or closing and fewer than three reconnects made,
   replaces the client by its own steps alone.
   */
  lemma CallerIsServed(s: State, t: nat) returns (schedule: seq<Action>, s': State)
    requires MayDial(s, t) && s.recs[t].pc == NRead(s.handle.gen)
    ensures Run(s, schedule) == Some(s') && OnlyCaller(schedule, t)
    ensures Served(s, t, s')
  {
    StandsThere(s, t);
    hide Run, RecNext, CallerAt, OnlyCaller, Served;
    var gen, used := s.handle.gen, s.handle.reconnects;
    var around, mid := CallerLooksAround(s, [], s, t, NRead(gen));
    DialIs(s, t, gen, used);
    around, mid := CallerGoes(s, around, mid, t, RecDialOk);
    schedule, s' := CallerGoes(s, around, mid, t, RecStep);
  }

  /** Before its first step. */
  lemma StandsThere(s: State, t: nat)
    requires t < |s.recs| && s.recs[t].pc.NRead?
    ensures Run(s, []) == Some(s) && OnlyCaller([], t) && CallerAt(s, t, s.recs[t].pc) == s
  {
  }

  /** The caller has a new client, under the next generation. */
  predicate Served(s: State, t: nat, s': State) {
    t < |s'.recs| && s'.recs[t].pc == NUnlock(Some(s.handle.created)) && s'.cred == s.cred && s'.con == s.con
    && s'.handle == s.handle.(client := Some(s.handle.created), gen := s.handle.gen + 1,
                              created := s.handle.created + 1, dials := s.handle.dials + 1,
                              reconnects := s.handle.reconnects + 1)
  }

  /** Nothing keeps the caller from dialing. */
  predicate MayDial(s: State, t: nat) {
    t < |s.recs| && s.handle.rmu == Some(t) && !s.handle.closed && !s.life.down && s.cred.failure.None?
    && !s.life.closing && s.handle.reconnects < 3
  }

  predicate IsLooking(pc: RecPc, h: Handle) {
    (pc.NRead? || pc.NDown? || pc.NFailure? || pc.NClosing? || pc.NDialFailure? || pc.NDialClosing?) && pc.gen == h.gen
    && (!pc.NRead? ==> pc.used == h.reconnects)
  }

  /** Where it looks next. */
  function LooksNext(pc: RecPc, used: nat): RecPc {
    match pc
    case NRead(gen) => NDown(gen, used)
    case NDown(gen, _) => NFailure(gen, used)
    case NFailure(gen, _) => NClosing(gen, used)
    case NClosing(gen, _) => NDialFailure(gen, used)
    case NDialFailure(gen, _) => NDialClosing(gen, used)
    case NDialClosing(gen, _) => NDialing(gen, used)
    case _ => pc
  }

  function LooksLeft(pc: RecPc): nat {
    if pc.NRead? then 6 else if pc.NDown? then 5 else if pc.NFailure? then 4 else if pc.NClosing? then 3
    else if pc.NDialFailure? then 2 else 1
  }

  lemma CallerLooksOn(s: State, schedule: seq<Action>, mid: State, t: nat, pc: RecPc)
    returns (more: seq<Action>, s': State)
    requires MayDial(s, t) && Run(s, schedule) == Some(mid) && OnlyCaller(schedule, t) && mid == CallerAt(s, t, pc)
    requires IsLooking(pc, s.handle)
    ensures Run(s, more) == Some(s') && OnlyCaller(more, t)
    ensures s' == CallerAt(s, t, LooksNext(pc, s.handle.reconnects))
  {
    hide Run;
    LookIs(s, t, pc);
    hide RecNext, CallerAt;
    more, s' := CallerGoes(s, schedule, mid, t, RecStep);
  }

  lemma {:induction false} CallerLooksAround(s: State, schedule: seq<Action>, mid: State, t: nat, pc: RecPc)
    returns (more: seq<Action>, s': State)
    requires MayDial(s, t) && Run(s, schedule) == Some(mid) && OnlyCaller(schedule, t) && mid == CallerAt(s, t, pc)
    requires IsLooking(pc, s.handle)
    ensures Run(s, more) == Some(s') && OnlyCaller(more, t)
    ensures s' == CallerAt(s, t, NDialing(s.handle.gen, s.handle.reconnects))
    decreases LooksLeft(pc)
  {
    hide Run, CallerAt, OnlyCaller;
    more, s' := CallerLooksOn(s, schedule, mid, t, pc);
    if !pc.NDialClosing? {
      more, s' := CallerLooksAround(s, more, s', t, LooksNext(pc, s.handle.reconnects));
    }
  }

  lemma LookIs(s: State, t: nat, pc: RecPc)
    requires MayDial(s, t)
    requires IsLooking(pc, s.handle)
    ensures var mid := CallerAt(s, t, pc);
            t < |mid.recs| && RecNext(mid, t, RecStep) == Some(CallerAt(s, t, LooksNext(pc, s.handle.reconnects)))
  {
    var next := LooksNext(pc, s.handle.reconnects);
    assert s.recs[t := s.recs[t].(pc := pc)][t := s.recs[t].(pc := next)] == s.recs[t := s.recs[t].(pc := next)];
  }

  lemma DialIs(s: State, t: nat, gen: nat, used: nat)
    requires MayDial(s, t)
    ensures var mid := CallerAt(s, t, NDialing(gen, used));
            t < |mid.recs| && RecNext(mid, t, RecDialOk).Some?
            && var dialed := RecNext(mid, t, RecDialOk).value;
               t < |dialed.recs| && RecNext(dialed, t, RecStep).Some?
               && Served(s, t, RecNext(dialed, t, RecStep).value)
  {
  }
}
