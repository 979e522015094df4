/** Steps of the consent flow, of shutdown and of reconnects keep the credential invariant. */
module RemoteLifecycleProof {
  import opened Wrappers
  import opened RemoteLog
  import opened RemoteModel
  import opened RemoteInvariant
  import opened RemoteRequestProof

  // ---- shutdown

  /** The rank only matters through the thresholds the invariant names. */
  lemma RankKeepsCred(c: Cred, h: Option<LockedPc>, rest: set<nat>, rank: nat, rank': nat)
    requires CredOk(c, h, rest, rank) && rank <= rank'
    requires rank' <= 7 || (rank == 7 && rank' == 8 && h.None?) || 9 <= rank
    ensures CredOk(c, h, rest, rank')
  {
    hide StorageOk, RedactorOk, HistoryOk, RotationOk, MarkOk, AllWiped, WorkIds, HolderIds;
  }

  /** A step that touches neither the credentials nor the locks nor connect. */
  lemma LifeKeepsInv(s: State, s': State)
    requires CredInv(s)
    requires s'.cred == s.cred && s'.reqs == s.reqs && s'.con == s.con
    requires ShutOk(s'.life, s'.con, s'.cred)
    requires Rank(s.life.shut) <= Rank(s'.life.shut)
    requires Rank(s'.life.shut) <= 7 || s'.life.shut == s.life.shut
    ensures CredInv(s')
  {
    hide CredOk, ConOk, ConHeld, RequestsOk, InSetup;
    if s'.life.shut != s.life.shut {
      RankKeepsCred(s.cred, Holder(s), ConHeld(s.con), Rank(s.life.shut), Rank(s'.life.shut));
    }
  }

  lemma ShutdownAtLock(s: State, s': State)
    requires CredInv(s) && s.life.shut.SLock? && DoShutdown(s) == Some(s')
    ensures CredInv(s')
  {
    var c, c' := s.cred, s'.cred;
    LockIsFree(s);
    assert Grows(c, c') && SameStorage(c, c');
    LockKeepsCred(c, HeldByShutdown, ConHeld(s.con), 7);
    RankKeepsCred(c', None, ConHeld(s.con), 7, 8);
    RequestsUnmoved(c, c', s.reqs);
    ConnectUnmoved(c, c', s.con);
    hide CredOk, ConOk, ConHeld, RequestsOk, InSetup;
  }

  lemma LockIsFree(s: State)
    requires LocksOk(s) && !s.cred.lock.HeldByRequest?
    ensures Holder(s) == None
  {
  }

  lemma LockKeepsCred(c: Cred, lock: Lock, rest: set<nat>, rank: nat)
    requires CredOk(c, None, rest, rank)
    ensures CredOk(c.(lock := lock), None, rest, rank)
  {
    SameKeepsStorage(c, c.(lock := lock), HolderIds(None) + rest, HolderIds(None) + rest);
    hide StorageOk, RedactorOk, AllWiped, WorkIds, HolderIds;
  }

  lemma RequestsUnmoved(c: Cred, c': Cred, reqs: seq<Request>)
    requires Grows(c, c') && RequestsOk(c, reqs)
    ensures RequestsOk(c', reqs)
  {
    hide RequestOk, Grows;
    forall u | 0 <= u < |reqs| ensures RequestOk(c', reqs[u]) {
      GrowsKeepsRequest(c, c', reqs[u]);
    }
  }

  /** Wiping what is installed leaves nothing live but the redactor's copies. */
  lemma WipeKeepsCred(c: Cred, rank: nat)
    requires CredOk(c, None, {}, rank) && rank <= 9
    ensures CredOk(Wipe(c, TokIds(c.tok) + c.retired + Ids(c.client)), None, {}, 9)
    ensures AllWiped(Wipe(c, TokIds(c.tok) + c.retired + Ids(c.client)), WorkIds(c, {}))
  {
    var gone := TokIds(c.tok) + c.retired + Ids(c.client);
    WipeKeepsStorage(c, HolderIds(None) + {}, gone);
    WipeKeepsShared(c, gone, rank);
    hide StorageOk, RedactorOk, TokenOk, HistoryOk, RotationOk, MarkOk;
  }

  lemma WipeKeepsShared(c: Cred, gone: set<nat>, rank: nat)
    requires SharedOk(c, None, rank)
    ensures SharedOk(Wipe(c, gone), None, 9)
  {
  }

  function Redacted(c: Cred): Cred {
    Wipe(c, c.items).(items := {}, redClosed := true)
  }

  lemma RedactKeepsShared(c: Cred, h: Option<LockedPc>)
    requires SharedOk(c, h, 10) && WorkIds(c, {}) !! c.items
    ensures SharedOk(Redacted(c), h, 11)
    ensures h.Some? ==> !PastZeroed(h.value)
  {
  }

  lemma RedactKeepsCred(c: Cred, h: Option<LockedPc>)
    requires CredOk(c, h, {}, 10)
    ensures CredOk(Redacted(c), h, {}, 11)
    ensures forall i :: 0 <= i < |c.store| ==> Redacted(c).store[i] == ""
  {
    assert StorageOk(c, HolderIds(h) + {});
    RedactKeepsShared(c, h);
    assert HolderIds(h) == {};
    assert WorkIds(c, HolderIds(h) + {}) == WorkIds(c, {});
    hide SharedOk;
  }

  lemma OutsideSetup(con: ConPc, c: Cred)
    requires !InSetup(con) && (con.CStart? ==> c.tok.None? && c.client.Nil?)
    ensures ConHeld(con) == {} && ConOk(c, con) && !ConHolds(con)
  {
  }

  /** The last steps of doShutdown: wipe, unlock, close the redactor. */
  lemma ShutdownAtWipe(s: State, s': State)
    requires CredInv(s) && s.life.shut.SWipe? && DoShutdown(s) == Some(s')
    ensures CredInv(s')
  {
    var c, c' := s.cred, s'.cred;
    LockIsFree(s);
    LockIsFree(s');
    OutsideSetup(s.con, c');
    hide StorageOk, RedactorOk, TokenOk, HistoryOk, RotationOk, MarkOk, SharedOk, AllWiped, WorkIds, TokIds;
    WipeKeepsCred(c, 8);
    RequestsUnmoved(c, c', s.reqs);
    hide CredOk, RequestsOk, Wipe;
  }

  lemma ShutdownAtUnlock(s: State, s': State)
    requires CredInv(s) && s.life.shut.SUnlock? && DoShutdown(s) == Some(s')
    ensures CredInv(s')
  {
    var c, c' := s.cred, s'.cred;
    LockIsFree(s);
    LockKeepsCred(c, Free, ConHeld(s.con), 9);
    RankKeepsCred(c', None, ConHeld(s.con), 9, 10);
    RequestsUnmoved(c, c', s.reqs);
    ConnectUnmoved(c, c', s.con);
    hide CredOk, ConOk, ConHeld, RequestsOk, InSetup;
  }

  lemma ShutdownAtRedact(s: State, s': State)
    requires CredInv(s) && s.life.shut.SRedact? && DoShutdown(s) == Some(s')
    ensures CredInv(s')
    ensures forall i :: 0 <= i < |s'.cred.store| ==> s'.cred.store[i] == ""
  {
    var c, c' := s.cred, s'.cred;
    OutsideSetup(s.con, c');
    hide CredOk, RequestsOk, Wipe;
    RedactKeepsCred(c, Holder(s));
    RequestsUnmoved(c, c', s.reqs);
  }

  lemma ShutdownAtZeroed(s: State, s': State)
    requires CredInv(s) && s.life.shut.SSetZeroed? && DoShutdown(s) == Some(s')
    ensures CredInv(s')
  {
    var c, c' := s.cred, s'.cred;
    ZeroedKeepsCred(c, Holder(s), ConHeld(s.con));
    RequestsUnmoved(c, c', s.reqs);
    ConnectUnmoved(c, c', s.con);
    hide CredOk, RequestsOk, ConOk, ConHeld, InSetup;
  }

  lemma ZeroedKeepsCred(c: Cred, h: Option<LockedPc>, rest: set<nat>)
    requires CredOk(c, h, rest, 6)
    ensures CredOk(c.(zeroed := true), h, rest, 7)
  {
    SameKeepsStorage(c, c.(zeroed := true), HolderIds(h) + rest, HolderIds(h) + rest);
    ZeroedKeepsShared(c, h);
    hide StorageOk, RedactorOk, AllWiped, WorkIds, HolderIds, SharedOk;
  }

  lemma ZeroedKeepsShared(c: Cred, h: Option<LockedPc>)
    requires SharedOk(c, h, 6)
    ensures SharedOk(c.(zeroed := true), h, 7)
  {
    var c' := c.(zeroed := true);
    assert AccessValue(c') == AccessValue(c) && RefreshValue(c') == RefreshValue(c);
    assert TokenOk(c', h, 7) by {
      hide HistoryOk, RotationOk, MarkOk;
    }
    hide AccessValue, RefreshValue, TokenOk, WillRefreshRejected, AtMark, Unanswered;
  }

  lemma DoShutdownKeepsInv(s: State, s': State)
    requires CredInv(s) && DoShutdown(s) == Some(s')
    ensures CredInv(s')
  {
    hide LocksOk, CredOk, RequestsOk, ConOk, ConHeld, Wipe, Holder, InSetup;
    match s.life.shut
    case SSetZeroed => ShutdownAtZeroed(s, s');
    case SLock => ShutdownAtLock(s, s');
    case SWipe => ShutdownAtWipe(s, s');
    case SUnlock => ShutdownAtUnlock(s, s');
    case SRedact => ShutdownAtRedact(s, s');
    case _ => LifeKeepsInv(s, s');
  }

  lemma ShutKeepsInv(s: State, a: ShutAct, s': State)
    requires CredInv(s) && ShutNext(s, a) == Some(s')
    ensures CredInv(s')
  {
    hide DoShutdown, LocksOk, CredOk, ConOk, RequestsOk, ConHeld, Holder;
    if a.ShutStep? {
      DoShutdownKeepsInv(s, s');
    } else {
      LifeKeepsInv(s, s');
    }
  }

  lemma RecKeepsInv(s: State, t: nat, a: RecAct, s': State)
    requires CredInv(s) && t < |s.recs| && RecNext(s, t, a) == Some(s')
    ensures CredInv(s')
  {
    hide LocksOk, CredOk, ConOk, RequestsOk, ConHeld, Holder, InSetup;
    RecKeepsCred(s, t, a, s');
    LifeKeepsInv(s, s');
  }

  lemma RecKeepsCred(s: State, t: nat, a: RecAct, s': State)
    requires t < |s.recs| && RecNext(s, t, a) == Some(s')
    ensures s'.cred == s.cred && s'.reqs == s.reqs && s'.con == s.con
    ensures s'.life == s.life.(bg := s'.life.bg, closers := s'.life.closers)
  {
  }

  lemma BackgroundKeepsInv(s: State, c: nat, s': State)
    requires CredInv(s) && Next(s, OfBackground(c)) == Some(s')
    ensures CredInv(s')
  {
    hide LocksOk, CredOk, ConOk, RequestsOk, ConHeld, Holder, InSetup;
    LifeKeepsInv(s, s');
  }

  // ---- connect

  /** While connect has not installed, requests see no token, so storage may move under them. */
  lemma NoTokenKeepsShared(c: Cred, c': Cred, h: Option<LockedPc>, rank: nat)
    requires SharedOk(c, h, rank) && c.tok.None?
    requires c' == c.(store := c'.store, items := c'.items, tracked := c'.tracked, client := c'.client)
    ensures SharedOk(c', h, rank) && HolderIds(h) == {} && Grows(c, c')
  {
  }

  predicate OnlyStorage(c: Cred, c': Cred) {
    c' == c.(store := c'.store, items := c'.items, tracked := c'.tracked, client := c'.client)
  }

  /** A step of the consent flow that creates or wipes secrets. */
  lemma ConsentKeepsInv(s: State, s': State)
    requires CredInv(s) && InSetup(s.con) && BeforeInstall(s.con) && InSetup(s'.con)
    requires !ConHolds(s.con) && !ConHolds(s'.con)
    requires s' == s.(cred := s'.cred, con := s'.con) && OnlyStorage(s.cred, s'.cred)
    requires StorageOk(s'.cred, ConHeld(s'.con)) && RedactorOk(s'.cred) && ConOk(s'.cred, s'.con)
    ensures CredInv(s')
  {
    var c, c', h := s.cred, s'.cred, Holder(s);
    assert Holder(s') == h;
    hide RequestsOk, ConHeld, BeforeInstall, InSetup, ConHolds, ConCarries, StorageOk, RedactorOk, AllWiped, WorkIds;
    NoTokenKeepsShared(c, c', h, Rank(s.life.shut));
    RequestsUnmoved(c, c', s.reqs);
    assert HolderIds(h) + ConHeld(s'.con) == ConHeld(s'.con);
    hide SharedOk, Holder, HolderIds, ConOk;
  }

  lemma HeldByConnectOnly(s: State)
    requires CredInv(s) && BeforeInstall(s.con)
    ensures StorageOk(s.cred, ConHeld(s.con)) && RedactorOk(s.cred)
    ensures s.cred.tok == None
  {
    hide StorageOk, RedactorOk, HistoryOk, RotationOk, MarkOk, RequestsOk;
    NoTokenKeepsShared(s.cred, s.cred, Holder(s), Rank(s.life.shut));
    assert HolderIds(Holder(s)) + ConHeld(s.con) == ConHeld(s.con);
  }

  lemma ConParts(s: State)
    requires CredInv(s)
    ensures ConOk(s.cred, s.con)
  {
    hide CredOk, ConOk, RequestsOk, LocksOk, ShutOk;
  }

  lemma ClientRegistered(c: Cred, v: string, c': Cred)
    requires StorageOk(c, {}) && RedactorOk(c) && c.tok.None? && c.client.Nil?
    requires c' == Track(c, v).(client := TrackedAs(c, v))
    ensures OnlyStorage(c, c') && StorageOk(c', {}) && RedactorOk(c')
  {
    TrackKeepsStorage(c, v, {});
    TrackKeepsRedactor(c, v);
    assert WorkIds(c', {}) == WorkIds(Track(c, v), {} + Ids(TrackedAs(c, v)));
    SameRegistry(Track(c, v), c');
  }

  lemma SameRegistry(c: Cred, c': Cred)
    requires RedactorOk(c) && c'.store == c.store && c'.items == c.items && c'.tracked == c.tracked && c'.redClosed == c.redClosed
    ensures RedactorOk(c')
  {
    if !c'.redClosed {
      forall w | w in c'.tracked ensures w != "" && Known(c', w) {
        assert Known(c, w);
        var i :| i in c.items && i < |c.store| && c.store[i] == w;
        assert c'.store[i] == w;
      }
    }
  }

  lemma ClientRefused(c: Cred, v: string, c': Cred)
    requires StorageOk(c, {}) && RedactorOk(c) && c.tok.None?
    requires c' == Wipe(Track(c, v), Ids(TrackedAs(c, v)))
    ensures OnlyStorage(c, c') && StorageOk(c', {}) && RedactorOk(c')
  {
    var c1, gone := Track(c, v), Ids(TrackedAs(c, v));
    TrackKeepsStorage(c, v, {});
    TrackKeepsRedactor(c, v);
    WipeKeepsStorage(c1, {} + gone, gone);
    ReleaseWiped(c', {} + gone, {});
  }

  lemma TemporaryStored(c: Cred, v: string, temps: set<nat>, c': Cred)
    requires StorageOk(c, temps) && RedactorOk(c)
    requires c' == Register(Stored(c, v), v)
    ensures OnlyStorage(c, c') && StorageOk(c', temps + Ids(StoredAs(c, v))) && RedactorOk(c')
  {
    if v != "" && !c.redClosed {
      assert c'.store[|c.store| + 1] == v && c'.store[|c.store|] == v;
      forall w | w in c'.tracked ensures Known(c', w) {
        if w != v {
          var i :| i in c.items && i < |c.store| && c.store[i] == w;
          assert c'.store[i] == w;
        }
      }
    }
  }

  lemma HeldWiped(c: Cred, held: set<nat>, gone: set<nat>)
    requires StorageOk(c, held) && RedactorOk(c) && gone <= held
    ensures OnlyStorage(c, Wipe(c, gone)) && StorageOk(Wipe(c, gone), held - gone) && RedactorOk(Wipe(c, gone))
  {
    WipeKeepsStorage(c, held, gone);
    ReleaseWiped(Wipe(c, gone), held, held - gone);
  }

  lemma RegisterKeepsInv(s: State, a: ConAct, s': State)
    requires CredInv(s) && s.con.CRegister? && SetupNext(s, a) == Some(s')
    ensures CredInv(s')
  {
    var c, c' := s.cred, s'.cred;
    HeldByConnectOnly(s);
    ConParts(s);
    hide CredInv;
    RegisterShape(s, a, s');
    hide SetupNext, StorageOk, RedactorOk, Track, TrackedAs, Wipe, ConOk;
    if a.Registered? {
      if a.accepted {
        ClientRegistered(c, a.secret, c');
      } else {
        ClientRefused(c, a.secret, c');
      }
    }
    ConsentKeepsInv(s, s');
  }

  lemma RegisterShape(s: State, a: ConAct, s': State)
    requires ConOk(s.cred, s.con) && s.con.CRegister? && SetupNext(s, a) == Some(s')
    ensures s' == s.(cred := s'.cred, con := s'.con) && InSetup(s'.con) && !ConHolds(s'.con)
    ensures ConHeld(s.con) == ConHeld(s'.con) == {} && ConOk(s'.cred, s'.con) && s.cred.client.Nil?
    ensures if !a.Registered? then s'.cred == s.cred
            else if a.accepted
            then s'.cred == Track(s.cred, a.secret).(client := TrackedAs(s.cred, a.secret))
            else s'.cred == Wipe(Track(s.cred, a.secret), Ids(TrackedAs(s.cred, a.secret)))
  {
    hide TrackedAs, Ids, WipeStore;
  }

  lemma ConsentActKeepsInv(s: State, a: ConAct, s': State)
    requires CredInv(s) && s.con.CConsent? && SetupNext(s, a) == Some(s')
    ensures CredInv(s')
  {
    var c, c', temps := s.cred, s'.cred, s.con.temps;
    HeldByConnectOnly(s);
    ConParts(s);
    hide CredInv;
    ConsentShape(s, a, s');
    hide SetupNext, StorageOk, RedactorOk, Register, Stored, StoredAs, Wipe, ConOk, ConHeld;
    if a.Temporary? {
      TemporaryStored(c, a.value, temps, c');
    } else if s'.con.CUnwind? {
      HeldWiped(c, temps, temps);
      assert temps - temps == {};
    }
    ConsentKeepsInv(s, s');
  }

  lemma ConsentShape(s: State, a: ConAct, s': State)
    requires ConOk(s.cred, s.con) && s.con.CConsent? && SetupNext(s, a) == Some(s')
    ensures s' == s.(cred := s'.cred, con := s'.con) && InSetup(s'.con) && !ConHolds(s'.con)
    ensures ConHeld(s.con) == s.con.temps && ConOk(s'.cred, s'.con)
    ensures if a.Temporary?
            then s'.cred == Register(Stored(s.cred, a.value), a.value)
                 && ConHeld(s'.con) == s.con.temps + Ids(StoredAs(s.cred, a.value))
            else if s'.con.CUnwind? then s'.cred == Wipe(s.cred, s.con.temps) && ConHeld(s'.con) == {}
            else s'.cred == s.cred && ConHeld(s'.con) == s.con.temps
  {
    hide StoredAs, Ids, WipeStore;
  }

  lemma ReplyKeepsInv(s: State, a: ConAct, s': State)
    requires CredInv(s) && (s.con.CTrack? || s.con.CTrackMore?) && SetupNext(s, a) == Some(s')
    ensures CredInv(s')
  {
    var c, held := s.cred, ConHeld(s.con);
    HeldByConnectOnly(s);
    ConParts(s);
    hide CredInv;
    StorageBounds(c, held, held);
    var v := if s.con.CTrack? then s.con.reply.access else s.con.reply.refresh;
    if s.con.CTrack? {
      TrackShape(s, a, s');
    } else {
      TrackMoreShape(s, a, s');
    }
    hide SetupNext, StorageOk, RedactorOk, Track, TrackedAs, ConOk, ConHeld;
    TrackExtends(c, v);
    TrackKeepsStorage(c, v, held);
    TrackKeepsRedactor(c, v);
    ConsentKeepsInv(s, s');
  }

  lemma TrackShape(s: State, a: ConAct, s': State)
    requires s.con.CTrack? && ConOk(s.cred, s.con) && SetupNext(s, a) == Some(s')
    requires InStore(s.cred.store, ConHeld(s.con))
    ensures var c, v := s.cred, s.con.reply.access;
            s' == s.(cred := Track(c, v), con := s'.con) && ConHeld(s'.con) == ConHeld(s.con) + Ids(TrackedAs(c, v))
    ensures InSetup(s'.con) && !ConHolds(s'.con) && ConOk(s'.cred, s'.con)
  {
    TrackExtends(s.cred, s.con.reply.access);
    hide Track, TrackedAs;
  }

  lemma TrackMoreShape(s: State, a: ConAct, s': State)
    requires s.con.CTrackMore? && ConOk(s.cred, s.con) && SetupNext(s, a) == Some(s')
    requires InStore(s.cred.store, ConHeld(s.con))
    ensures var c, v := s.cred, s.con.reply.refresh;
            s' == s.(cred := Track(c, v), con := s'.con) && ConHeld(s'.con) == ConHeld(s.con) + Ids(TrackedAs(c, v))
    ensures InSetup(s'.con) && !ConHolds(s'.con) && ConOk(s'.cred, s'.con)
  {
    var c, v := s.cred, s.con.reply.refresh;
    TrackExtends(c, v);
    assert InStore(c.store, Ids(s.con.access));
    ExtendsKeepsSecret(c, Track(c, v), s.con.access);
    hide Track, TrackedAs;
  }

  lemma DecisionKeepsInv(s: State, a: ConAct, s': State)
    requires CredInv(s) && s.con.CDecide? && SetupNext(s, a) == Some(s') && s'.con.CHave?
    ensures CredInv(s')
  {
    var c, held := s.cred, ConHeld(s.con);
    HeldByConnectOnly(s);
    ConParts(s);
    hide CredInv;
    StorageBounds(c, held, held);
    DecisionShape(s, a, s');
    hide SetupNext, StorageOk, RedactorOk, Wipe, ConOk, ConHeld;
    HeldWiped(c, held, s.con.temps);
    ConsentKeepsInv(s, s');
  }

  lemma DecisionShape(s: State, a: ConAct, s': State)
    requires s.con.CDecide? && ConOk(s.cred, s.con) && SetupNext(s, a) == Some(s') && s'.con.CHave?
    requires InStore(s.cred.store, ConHeld(s.con))
    ensures s' == s.(cred := Wipe(s.cred, s.con.temps), con := s'.con) && ConOk(s'.cred, s'.con)
    ensures InSetup(s'.con) && !ConHolds(s'.con)
    ensures s.con.temps <= ConHeld(s.con) && ConHeld(s'.con) == ConHeld(s.con) - s.con.temps
  {
  }

  lemma DiscardKeepsInv(s: State, a: ConAct, s': State)
    requires CredInv(s) && (s.con.CDecide? || s.con.CWipe?) && SetupNext(s, a) == Some(s') && !s'.con.CHave?
    ensures CredInv(s')
  {
    var c, held := s.cred, ConHeld(s.con);
    HeldByConnectOnly(s);
    ConParts(s);
    hide CredInv;
    DiscardShape(s, a, s');
    hide SetupNext, StorageOk, RedactorOk, Wipe, ConOk, ConHeld;
    HeldWiped(c, held, held);
    assert held - held == {};
    ConsentKeepsInv(s, s');
  }

  lemma DiscardShape(s: State, a: ConAct, s': State)
    requires (s.con.CDecide? || s.con.CWipe?) && ConOk(s.cred, s.con) && SetupNext(s, a) == Some(s') && !s'.con.CHave?
    ensures s' == s.(cred := Wipe(s.cred, ConHeld(s.con)), con := s'.con) && ConOk(s'.cred, s'.con)
    ensures InSetup(s'.con) && !ConHolds(s'.con) && ConHeld(s'.con) == {}
  {
    assert {} + ConIds(s.con) == ConIds(s.con);
    hide WipeStore, ConCarries;
  }

  /** connect takes tokMu, or lets go of it without installing. */
  lemma ConnectLockKeepsInv(s: State, s': State)
    requires CredInv(s) && BeforeInstall(s.con) && InSetup(s.con) && InSetup(s'.con)
    requires s' == s.(cred := s.cred.(lock := s'.cred.lock), con := s'.con)
    requires !s.cred.lock.HeldByRequest? && !s'.cred.lock.HeldByRequest?
    requires ConHolds(s'.con) <==> s'.cred.lock.HeldByConnect?
    requires s.cred.lock.HeldByShutdown? <==> s'.cred.lock.HeldByShutdown?
    requires ConHeld(s'.con) == ConHeld(s.con) && ConOk(s.cred, s'.con)
    ensures CredInv(s')
  {
    var c, c' := s.cred, s'.cred;
    LockIsFree(s);
    LockIsFree(s');
    assert Grows(c, c') && SameStorage(c, c');
    LockKeepsCred(c, c'.lock, ConHeld(s.con), Rank(s.life.shut));
    RequestsUnmoved(c, c', s.reqs);
    ConnectUnmoved(c, c', s'.con);
    hide CredOk, ConOk, ConHeld, RequestsOk, InSetup;
  }

  lemma InstallKeepsCred(c: Cred, ts: TokenSet, c': Cred, rank: nat)
    requires CredOk(c, None, SetIds(ts), rank) && c.tok.None? && Reveal(c.store, ts.access) != ""
    requires c' == Note(c.(tok := Some(ts), retired := c.retired + TokIds(c.tok), lock := Free),
                        Installed(Reveal(c.store, ts.access), Reveal(c.store, ts.refresh)))
    requires rank <= 4
    ensures CredOk(c', None, {}, rank) && Grows(c, c')
  {
    assert c.log == Begun;
    assert WorkIds(c', HolderIds(None) + {}) == WorkIds(c, HolderIds(None) + SetIds(ts));
    SameRegistry(c, c');
  }

  lemma InstallKeepsInv(s: State, a: ConAct, s': State)
    requires CredInv(s) && s.con.CInstall? && InstallNext(s, a) == Some(s')
    ensures CredInv(s')
  {
    LockIsFree(s);
    LockIsFree(s');
    ConParts(s);
    hide CredOk, RequestsOk, TokIds, SetIds;
    InstallKeepsCred(s.cred, s.con.ts, s'.cred, Rank(s.life.shut));
    RequestsUnmoved(s.cred, s'.cred, s.reqs);
    hide Note, Reveal, ShutOk;
  }

  /** A step of connect that only moves its counter, the setup count or a client. */
  lemma ConnectLooksKeepsInv(s: State, s': State)
    requires CredInv(s) && s'.cred == s.cred && s'.reqs == s.reqs
    requires ConHeld(s'.con) == ConHeld(s.con) && ConOk(s.cred, s'.con)
    requires ConHolds(s'.con) <==> ConHolds(s.con)
    requires Rank(s'.life.shut) == Rank(s.life.shut) || (s.life.shut.SIdle? && s'.life.shut.SMark?)
    requires ShutOk(s'.life, s'.con, s'.cred)
    ensures CredInv(s')
  {
    hide CredOk, ConOk, ConHeld, RequestsOk, InSetup, ShutOk, ConHolds;
    if s'.life.shut.SMark? {
      RankKeepsCred(s.cred, Holder(s), ConHeld(s.con), Rank(s.life.shut), Rank(s'.life.shut));
    }
  }

  predicate DialPc(pc: ConPc) {
    pc.CDialFailure? || pc.CDialClosing? || pc.CDialing? || pc.CDialed? || pc.CCloseOwn? || pc.CUnwind?
  }

  lemma DialKeepsInv(s: State, a: ConAct, s': State)
    requires CredInv(s) && DialPc(s.con) && SetupNext(s, a) == Some(s')
    ensures CredInv(s')
  {
    hide CredOk, LocksOk, RequestsOk;
    ConnectLooksKeepsInv(s, s');
  }

  lemma StartKeepsInv(s: State, a: ConAct, s': State)
    requires CredInv(s) && (s.con.CStart? || s.con.CFail?) && PublishNext(s, a) == Some(s')
    ensures CredInv(s')
  {
    hide CredOk, LocksOk, RequestsOk;
    ConnectLooksKeepsInv(s, s');
  }

  lemma PublishKeepsInv(s: State, a: ConAct, s': State)
    requires CredInv(s) && !InSetup(s.con) && !s.con.CStart? && !s.con.CFail? && PublishNext(s, a) == Some(s')
    ensures CredInv(s')
  {
    PublishLooks(s, a, s');
    OutsideSetup(s.con, s.cred);
    OutsideSetup(s'.con, s'.cred);
    hide CredOk, LocksOk, RequestsOk, PublishNext, ConOk, ConHeld, ConHolds;
    ConnectLooksKeepsInv(s, s');
  }

  lemma PublishLooks(s: State, a: ConAct, s': State)
    requires !InSetup(s.con) && !s.con.CStart? && !s.con.CFail? && PublishNext(s, a) == Some(s')
    ensures s'.cred == s.cred && s'.reqs == s.reqs && !InSetup(s'.con) && !s'.con.CStart?
    ensures s'.life == s.life.(pending := s'.life.pending, published := s'.life.published)
  {
    if s.con.CListing? {
      ListingLooks(s, a, s');
      hide PublishNext;
    }
  }

  lemma ListingLooks(s: State, a: ConAct, s': State)
    requires s.con.CListing? && PublishNext(s, a) == Some(s')
    ensures s'.cred == s.cred && s'.reqs == s.reqs && !InSetup(s'.con) && !s'.con.CStart?
    ensures s'.life == s.life.(pending := s'.life.pending, published := s'.life.published)
  {
  }

  lemma SetupKeepsInv(s: State, a: ConAct, s': State)
    requires CredInv(s) && InSetup(s.con) && !ConHolds(s.con) && SetupNext(s, a) == Some(s')
    ensures CredInv(s')
  {
    hide CredOk, LocksOk, RequestsOk, ConOk, ShutOk, SetupNext;
    match s.con
    case CRegister => RegisterKeepsInv(s, a, s');
    case CConsent(_) => ConsentActKeepsInv(s, a, s');
    case CTrack(_, _) => ReplyKeepsInv(s, a, s');
    case CTrackMore(_, _, _) => ReplyKeepsInv(s, a, s');
    case CDecide(_, _, _) =>
      if s'.con.CHave? {
        DecisionKeepsInv(s, a, s');
      } else {
        DiscardKeepsInv(s, a, s');
      }
    case CWipe(_) =>
      WipeLeaves(s, a, s');
      DiscardKeepsInv(s, a, s');
    case CHave(_) => HaveKeepsInv(s, a, s');
    case _ => DialKeepsInv(s, a, s');
  }

  lemma WipeLeaves(s: State, a: ConAct, s': State)
    requires s.con.CWipe? && SetupNext(s, a) == Some(s')
    ensures s'.con.CUnwind?
  {
  }

  lemma HaveKeepsInv(s: State, a: ConAct, s': State)
    requires CredInv(s) && s.con.CHave? && SetupNext(s, a) == Some(s')
    ensures CredInv(s')
  {
    hide CredOk, RequestsOk, ShutOk;
    ConnectLockKeepsInv(s, s');
  }

  lemma InstallNextKeepsInv(s: State, a: ConAct, s': State)
    requires CredInv(s) && ConHolds(s.con) && s.cred.lock.HeldByConnect? && InstallNext(s, a) == Some(s')
    ensures CredInv(s')
  {
    if s.con.CInstall? {
      InstallKeepsInv(s, a, s');
    } else {
      hide CredOk, RequestsOk, ShutOk;
      ConnectLockKeepsInv(s, s');
    }
  }

  lemma ConKeepsInv(s: State, a: ConAct, s': State)
    requires CredInv(s) && ConNext(s, a) == Some(s')
    ensures CredInv(s')
  {
    hide CredInv, SetupNext, InstallNext, PublishNext;
    if InSetup(s.con) {
      if ConHolds(s.con) {
        InstallNextKeepsInv(s, a, s');
      } else {
        SetupKeepsInv(s, a, s');
      }
    } else if s.con.CStart? || s.con.CFail? {
      StartKeepsInv(s, a, s');
    } else {
      PublishKeepsInv(s, a, s');
    }
  }

  // ---- every step, every run

  lemma NextKeepsInv(s: State, a: Action, s': State)
    requires CredInv(s) && Next(s, a) == Some(s')
    ensures CredInv(s')
  {
    hide CredInv, ReqNext, ConNext, ShutNext, RecNext;
    match a
    case OfRequest(t, r) => ReqKeepsInv(s, t, r, s');
    case OfConnect(c) => ConKeepsInv(s, c, s');
    case OfShutdown(x) => ShutKeepsInv(s, x, s');
    case OfReconnect(t, r) => RecKeepsInv(s, t, r, s');
    case OfBackground(c) => BackgroundKeepsInv(s, c, s');
  }

  lemma InitHolds(requests: nat, reconnectors: nat)
    ensures CredInv(InitState(requests, reconnectors))
  {
  }

  lemma {:induction false} RunKeepsInv(s: State, schedule: seq<Action>, s': State)
    requires CredInv(s) && Run(s, schedule) == Some(s')
    ensures CredInv(s')
  {
    hide CredInv, Next;
    if schedule != [] {
      var mid := Run(s, schedule[..|schedule| - 1]).value;
      RunKeepsInv(s, schedule[..|schedule| - 1], mid);
      NextKeepsInv(mid, schedule[|schedule| - 1], s');
    }
  }
}
