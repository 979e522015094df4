/** A step of a request keeps what is promised about the shared credentials. */
module RemoteRequestProof {
  import opened Wrappers
  import opened RemoteLog
  import opened RemoteModel
  import opened RemoteInvariant

  // ---- storage operations

  /** c' holds everything c held, unchanged, and perhaps more. */
  predicate Extends(c: Cred, c': Cred) {
    && |c.store| <= |c'.store|
    && (forall i :: 0 <= i < |c.store| ==> c'.store[i] == c.store[i])
    && c'.(store := c.store, items := c.items, tracked := c.tracked) == c
  }

  lemma TrackExtends(c: Cred, v: string)
    ensures Extends(c, Track(c, v))
    ensures Reveal(Track(c, v).store, TrackedAs(c, v)) == v
    ensures TrackedAs(c, v).Nil? <==> v == ""
    ensures forall i :: i in Ids(TrackedAs(c, v)) ==> |c.store| <= i < |Track(c, v).store|
  {
  }

  lemma ExtendsKeepsSecret(c: Cred, c': Cred, s: Secret)
    requires Extends(c, c') && InStore(c.store, Ids(s))
    ensures Reveal(c'.store, s) == Reveal(c.store, s)
  {
  }

  lemma ExtendsKeepsTok(c: Cred, c': Cred)
    requires Extends(c, c') && InStore(c.store, TokIds(c.tok))
    ensures AccessValue(c') == AccessValue(c) && RefreshValue(c') == RefreshValue(c)
  {
    if c.tok.Some? {
      assert InStore(c.store, Ids(c.tok.value.access)) && InStore(c.store, Ids(c.tok.value.refresh));
    }
  }

  // ---- steps under tokMu

  lemma LockedKeepsToken(pc: LockedPc, ctxDone: bool, c: Cred, closing: bool, a: ReqAct, rank: nat, m: LockedMove)
    requires !pc.Refreshing?
    requires TokenOk(c, Some(pc), rank) && LockedStep(pc, ctxDone, c, closing, a) == Some(m)
    requires c.zeroed <==> rank >= 7
    ensures TokenOk(m.c, HolderPc(m.pc), rank)
  {
  }

  lemma LockedKeepsHistory(pc: LockedPc, ctxDone: bool, c: Cred, closing: bool, a: ReqAct, m: LockedMove)
    requires !pc.Refreshing?
    requires HistoryOk(c, Some(pc)) && LockedStep(pc, ctxDone, c, closing, a) == Some(m)
    ensures HistoryOk(m.c, HolderPc(m.pc))
  {
  }

  lemma LockedKeepsRotation(pc: LockedPc, ctxDone: bool, c: Cred, closing: bool, a: ReqAct, m: LockedMove)
    requires !pc.Refreshing?
    requires RotationOk(c, Some(pc)) && LockedStep(pc, ctxDone, c, closing, a) == Some(m)
    ensures RotationOk(m.c, HolderPc(m.pc))
  {
  }

  lemma LockedKeepsMark(pc: LockedPc, ctxDone: bool, c: Cred, closing: bool, a: ReqAct, rank: nat, m: LockedMove)
    requires !pc.Refreshing?
    requires MarkOk(c, Some(pc)) && TokenOk(c, Some(pc), rank) && LockedStep(pc, ctxDone, c, closing, a) == Some(m)
    ensures MarkOk(m.c, HolderPc(m.pc))
  {
  }

  // ---- steps of a refresh that only look, send or mark

  predicate Plain(at: RefreshPc) {
    !at.RTrack? && !at.RTrackMore? && !at.RDecide?
  }

  lemma PlainKeepsToken(pc: LockedPc, ctxDone: bool, c: Cred, closing: bool, a: ReqAct, rank: nat, m: LockedMove)
    requires pc.Refreshing? && Plain(pc.at)
    requires TokenOk(c, Some(pc), rank) && LockedStep(pc, ctxDone, c, closing, a) == Some(m)
    ensures TokenOk(m.c, HolderPc(m.pc), rank)
  {
  }

  lemma PlainKeepsHistory(pc: LockedPc, ctxDone: bool, c: Cred, closing: bool, a: ReqAct, rank: nat, m: LockedMove)
    requires pc.Refreshing? && Plain(pc.at)
    requires HistoryOk(c, Some(pc)) && LockedStep(pc, ctxDone, c, closing, a) == Some(m)
    ensures HistoryOk(m.c, HolderPc(m.pc))
  {
  }

  lemma PlainKeepsRotation(pc: LockedPc, ctxDone: bool, c: Cred, closing: bool, a: ReqAct, rank: nat, m: LockedMove)
    requires pc.Refreshing? && Plain(pc.at)
    requires RotationOk(c, Some(pc)) && HistoryOk(c, Some(pc))
    requires LockedStep(pc, ctxDone, c, closing, a) == Some(m)
    ensures RotationOk(m.c, HolderPc(m.pc))
  {
  }

  lemma PlainKeepsMark(pc: LockedPc, ctxDone: bool, c: Cred, closing: bool, a: ReqAct, rank: nat, m: LockedMove)
    requires pc.Refreshing? && Plain(pc.at)
    requires MarkOk(c, Some(pc)) && TokenOk(c, Some(pc), rank) && LockedStep(pc, ctxDone, c, closing, a) == Some(m)
    ensures MarkOk(m.c, HolderPc(m.pc))
  {
    hide MarkOk, TokenOk, LockedStep;
    if pc.at.RSend? {
      SendKeepsMark(pc, ctxDone, c, closing, a, rank, m);
    } else if pc.at.RMark? {
      MarkingKeepsMark(pc, ctxDone, c, closing, a, rank, m);
    } else {
      WaitingKeepsMark(pc, ctxDone, c, closing, a, m);
    }
  }

  lemma SendKeepsMark(pc: LockedPc, ctxDone: bool, c: Cred, closing: bool, a: ReqAct, rank: nat, m: LockedMove)
    requires pc.Refreshing? && pc.at.RSend?
    requires MarkOk(c, Some(pc)) && TokenOk(c, Some(pc), rank) && LockedStep(pc, ctxDone, c, closing, a) == Some(m)
    ensures MarkOk(m.c, HolderPc(m.pc))
  {
  }

  lemma MarkingKeepsMark(pc: LockedPc, ctxDone: bool, c: Cred, closing: bool, a: ReqAct, rank: nat, m: LockedMove)
    requires pc.Refreshing? && pc.at.RMark?
    requires MarkOk(c, Some(pc)) && TokenOk(c, Some(pc), rank) && LockedStep(pc, ctxDone, c, closing, a) == Some(m)
    ensures MarkOk(m.c, HolderPc(m.pc))
  {
  }

  lemma WaitingKeepsMark(pc: LockedPc, ctxDone: bool, c: Cred, closing: bool, a: ReqAct, m: LockedMove)
    requires pc.Refreshing? && (pc.at.RStart? || pc.at.RCtx? || pc.at.RWait?)
    requires MarkOk(c, Some(pc)) && LockedStep(pc, ctxDone, c, closing, a) == Some(m)
    ensures MarkOk(m.c, HolderPc(m.pc))
  {
  }

  // ---- steps of a refresh that take in the reply

  lemma TrackingKeepsShared(pc: LockedPc, ctxDone: bool, c: Cred, closing: bool, a: ReqAct, rank: nat, m: LockedMove)
    requires pc.Refreshing? && (pc.at.RTrack? || pc.at.RTrackMore?)
    requires LockedStep(pc, ctxDone, c, closing, a) == Some(m)
    requires InStore(c.store, TokIds(c.tok)) && InStore(c.store, HolderIds(Some(pc)))
    requires TokenOk(c, Some(pc), rank) && HistoryOk(c, Some(pc)) && RotationOk(c, Some(pc)) && MarkOk(c, Some(pc))
    ensures TokenOk(m.c, HolderPc(m.pc), rank) && HistoryOk(m.c, HolderPc(m.pc))
    ensures RotationOk(m.c, HolderPc(m.pc)) && MarkOk(m.c, HolderPc(m.pc))
  {
    var v := if pc.at.RTrack? then pc.at.reply.access else pc.at.reply.refresh;
    TrackExtends(c, v);
    ExtendsKeepsTok(c, Track(c, v));
    if pc.at.RTrackMore? {
      ExtendsKeepsSecret(c, Track(c, v), pc.at.access);
    }
  }

  lemma DecideKeepsToken(pc: LockedPc, ctxDone: bool, c: Cred, closing: bool, a: ReqAct, rank: nat, m: LockedMove)
    requires pc.Refreshing? && pc.at.RDecide?
    requires LockedStep(pc, ctxDone, c, closing, a) == Some(m)
    requires TokenOk(c, Some(pc), rank)
    ensures TokenOk(m.c, HolderPc(m.pc), rank)
  {
  }

  lemma DecideKeepsHistory(pc: LockedPc, ctxDone: bool, c: Cred, closing: bool, a: ReqAct, rank: nat, m: LockedMove)
    requires pc.Refreshing? && pc.at.RDecide?
    requires LockedStep(pc, ctxDone, c, closing, a) == Some(m)
    requires TokenOk(c, Some(pc), rank) && HistoryOk(c, Some(pc))
    ensures HistoryOk(m.c, HolderPc(m.pc))
  {
    hide HistoryOk, TokenOk, LockedStep;
    if Granted(pc.at.reply) {
      GrantKeepsHistory(pc, ctxDone, c, closing, a, rank, m);
    } else {
      RefusalKeepsHistory(pc, ctxDone, c, closing, a, rank, m);
    }
  }

  lemma GrantKeepsHistory(pc: LockedPc, ctxDone: bool, c: Cred, closing: bool, a: ReqAct, rank: nat, m: LockedMove)
    requires pc.Refreshing? && pc.at.RDecide? && Granted(pc.at.reply)
    requires LockedStep(pc, ctxDone, c, closing, a) == Some(m)
    requires TokenOk(c, Some(pc), rank) && HistoryOk(c, Some(pc))
    ensures HistoryOk(m.c, HolderPc(m.pc))
  {
  }

  lemma RefusalKeepsHistory(pc: LockedPc, ctxDone: bool, c: Cred, closing: bool, a: ReqAct, rank: nat, m: LockedMove)
    requires pc.Refreshing? && pc.at.RDecide? && !Granted(pc.at.reply)
    requires LockedStep(pc, ctxDone, c, closing, a) == Some(m)
    requires TokenOk(c, Some(pc), rank) && HistoryOk(c, Some(pc))
    ensures HistoryOk(m.c, HolderPc(m.pc))
  {
  }

  lemma {:induction false} SentImpliesIssued(l: Log, v: string)
    requires SentWereIssued(l) && WasSent(l, v)
    ensures RefreshIssued(l, v)
  {
    if !(l.last.RefreshSent? && l.last.value == v) {
      SentImpliesIssued(l.prior, v);
    }
  }

  lemma DecideKeepsRotation(pc: LockedPc, ctxDone: bool, c: Cred, closing: bool, a: ReqAct, rank: nat, m: LockedMove)
    requires pc.Refreshing? && pc.at.RDecide?
    requires LockedStep(pc, ctxDone, c, closing, a) == Some(m)
    requires TokenOk(c, Some(pc), rank) && RotationOk(c, Some(pc))
    ensures RotationOk(m.c, HolderPc(m.pc))
  {
    if WasSent(c.log, pc.at.reply.refresh) {
      SentImpliesIssued(c.log, pc.at.reply.refresh);
    }
  }

  lemma DecideKeepsMark(pc: LockedPc, ctxDone: bool, c: Cred, closing: bool, a: ReqAct, rank: nat, m: LockedMove)
    requires pc.Refreshing? && pc.at.RDecide?
    requires LockedStep(pc, ctxDone, c, closing, a) == Some(m)
    requires TokenOk(c, Some(pc), rank) && MarkOk(c, Some(pc))
    ensures MarkOk(m.c, HolderPc(m.pc))
  {
    hide MarkOk, TokenOk, LockedStep;
    if Granted(pc.at.reply) {
      GrantKeepsMark(pc, ctxDone, c, closing, a, rank, m);
    } else {
      RefusalKeepsMark(pc, ctxDone, c, closing, a, rank, m);
    }
  }

  lemma GrantKeepsMark(pc: LockedPc, ctxDone: bool, c: Cred, closing: bool, a: ReqAct, rank: nat, m: LockedMove)
    requires pc.Refreshing? && pc.at.RDecide? && Granted(pc.at.reply)
    requires LockedStep(pc, ctxDone, c, closing, a) == Some(m)
    requires TokenOk(c, Some(pc), rank) && MarkOk(c, Some(pc))
    ensures MarkOk(m.c, HolderPc(m.pc))
  {
  }

  lemma RefusalKeepsMark(pc: LockedPc, ctxDone: bool, c: Cred, closing: bool, a: ReqAct, rank: nat, m: LockedMove)
    requires pc.Refreshing? && pc.at.RDecide? && !Granted(pc.at.reply)
    requires LockedStep(pc, ctxDone, c, closing, a) == Some(m)
    requires TokenOk(c, Some(pc), rank) && MarkOk(c, Some(pc))
    ensures MarkOk(m.c, HolderPc(m.pc))
  {
  }

  // ---- storage

  /** Nothing about credentials moved. */
  predicate SameStorage(c: Cred, c': Cred) {
    c'.store == c.store && c'.items == c.items && c'.redClosed == c.redClosed && c'.tracked == c.tracked
    && c'.tok == c.tok && c'.retired == c.retired && c'.client == c.client
  }

  lemma LockedKeepsStorage(pc: LockedPc, ctxDone: bool, c: Cred, closing: bool, a: ReqAct, m: LockedMove)
    requires LockedStep(pc, ctxDone, c, closing, a) == Some(m)
    requires pc.Refreshing? ==> Plain(pc.at)
    ensures SameStorage(c, m.c) && HolderIds(HolderPc(m.pc)) == {} == HolderIds(Some(pc))
  {
  }

  lemma TrackKeepsStorage(c: Cred, v: string, held: set<nat>)
    requires StorageOk(c, held)
    ensures StorageOk(Track(c, v), held + Ids(TrackedAs(c, v)))
    ensures Ids(TrackedAs(c, v)) !! WorkIds(c, held)
  {
  }

  lemma TrackKeepsRedactor(c: Cred, v: string)
    requires RedactorOk(c) && InStore(c.store, c.items)
    ensures RedactorOk(Track(c, v))
  {
    var c1 := Register(c, v);
    assert RedactorOk(c1) by {
      if v != "" && !c.redClosed {
        assert c1.store[|c.store|] == v;
        forall w | w in c1.tracked ensures Known(c1, w) {
          if w != v {
            var i :| i in c.items && i < |c.store| && c.store[i] == w;
            assert c1.store[i] == w;
          }
        }
      }
    }
    assert v in c1.tracked || v == "" || c.redClosed;
    var c2 := Stored(c1, v);
    forall w | w in c2.tracked && !c2.redClosed ensures w != "" && Known(c2, w) {
      var i :| i in c1.items && i < |c1.store| && c1.store[i] == w;
      assert c2.store[i] == w;
    }
  }

  lemma TrackingKeepsStorage(pc: LockedPc, ctxDone: bool, c: Cred, closing: bool, a: ReqAct, rest: set<nat>, m: LockedMove)
    requires pc.Refreshing? && (pc.at.RTrack? || pc.at.RTrackMore?)
    requires LockedStep(pc, ctxDone, c, closing, a) == Some(m)
    requires StorageOk(c, HolderIds(Some(pc)) + rest) && RedactorOk(c)
    ensures StorageOk(m.c, HolderIds(HolderPc(m.pc)) + rest) && RedactorOk(m.c)
  {
    var v := if pc.at.RTrack? then pc.at.reply.access else pc.at.reply.refresh;
    var held := HolderIds(Some(pc)) + rest;
    TrackKeepsStorage(c, v, held);
    TrackKeepsRedactor(c, v);
    assert held + Ids(TrackedAs(c, v)) == HolderIds(HolderPc(m.pc)) + rest;
  }

  lemma WipeKeepsStorage(c: Cred, held: set<nat>, gone: set<nat>)
    requires StorageOk(c, held) && gone <= WorkIds(c, held)
    ensures StorageOk(Wipe(c, gone), held)
    ensures RedactorOk(c) ==> RedactorOk(Wipe(c, gone))
  {
    var c1 := Wipe(c, gone);
    if RedactorOk(c) && !c.redClosed {
      forall w | w in c.tracked ensures Known(c1, w) {
        var i :| i in c.items && i < |c.store| && c.store[i] == w;
        assert c1.store[i] == w;
      }
    }
  }

  /** Wiped storages need no owner. */
  lemma ReleaseWiped(c: Cred, held: set<nat>, kept: set<nat>)
    requires StorageOk(c, held) && kept <= held && AllWiped(c, held - kept)
    ensures StorageOk(c, kept)
  {
  }

  /** Credential conservation: a granted refresh loses no secret of the old set. */
  lemma InstallConserves(c: Cred, reply: Reply, ts: TokenSet, rest: set<nat>)
    requires Granted(reply) && c.tok.Some? && StorageOk(c, SetIds(ts) + rest)
    ensures SetIds(c.tok.value) + SetIds(ts) + c.retired
         == SetIds(Install(c, reply, ts).tok.value) + Install(c, reply, ts).retired
    ensures StorageOk(Install(c, reply, ts), rest)
  {
  }

  lemma DecideKeepsStorage(pc: LockedPc, ctxDone: bool, c: Cred, closing: bool, a: ReqAct, rest: set<nat>, m: LockedMove)
    requires pc.Refreshing? && pc.at.RDecide?
    requires LockedStep(pc, ctxDone, c, closing, a) == Some(m)
    requires StorageOk(c, HolderIds(Some(pc)) + rest) && RedactorOk(c)
    ensures StorageOk(m.c, HolderIds(HolderPc(m.pc)) + rest) && RedactorOk(m.c)
  {
    var ts, reply, held := pc.at.ts, pc.at.reply, HolderIds(Some(pc)) + rest;
    if Granted(reply) {
      InstallConserves(c, reply, ts, rest);
      assert rest == HolderIds(HolderPc(m.pc)) + rest;
    } else {
      var gone := SetIds(ts) + if OutOfScope(reply) then TokIds(c.tok) else {};
      WipeKeepsStorage(c, held, gone);
      ReleaseWiped(m.c, held, rest);
      assert rest == HolderIds(HolderPc(m.pc)) + rest;
    }
  }

  // ---- steps outside tokMu; h is the holder, another goroutine or none

  /** Up to the lock a request changes nothing but its own record. */
  lemma EntryOnlyLooks(t: nat, r: Request, c: Cred, closing: bool, a: ReqAct, m: Moved)
    requires !r.pc.Locked? && EntryStep(t, r, c, closing, a) == Some(m) && RequestOk(c, r)
    ensures RequestOk(m.c, m.r)
    ensures !m.r.pc.Locked? ==> m.c == c
    ensures m.r.pc.Locked? ==>
      c.lock.Free? && m.c == c.(lock := HeldByRequest(t)) && m.r.pc.pc.SeeZeroed?
  {
  }

  lemma AcquireKeepsCred(c: Cred, t: nat, call: Call, rest: set<nat>, rank: nat)
    requires CredOk(c, None, rest, rank)
    ensures CredOk(c.(lock := HeldByRequest(t)), Some(SeeZeroed(call)), rest, rank)
  {
    var c1 := c.(lock := HeldByRequest(t));
    SameKeepsStorage(c, c1, HolderIds(None) + rest, HolderIds(Some(SeeZeroed(call))) + rest);
    hide StorageOk, RedactorOk, AllWiped, WorkIds;
  }

  lemma AcceptedKeepsShared(c: Cred, v: string, h: Option<LockedPc>, rank: nat)
    requires SharedOk(c, h, rank) && AccessIssued(c.log, v)
    ensures SharedOk(Note(c, Accepted(v)), h, rank)
  {
  }

  lemma ClearedKeepsShared(c: Cred, v: string, h: Option<LockedPc>, rank: nat)
    requires SharedOk(c, h, rank) && WasAccepted(c.log, v) && Marked(c, v)
    ensures SharedOk(c.(mark := None), h, rank)
  {
  }

  lemma FailKeepsShared(c: Cred, kind: FailureKind, h: Option<LockedPc>, rank: nat)
    requires SharedOk(c, h, rank)
    ensures SharedOk(Fail(c, kind), h, rank)
  {
  }

  lemma AnswerKeepsShared(r: Request, c: Cred, a: ReqAct, h: Option<LockedPc>, rank: nat, m: Moved)
    requires AnswerStep(r, c, a) == Some(m)
    requires SharedOk(c, h, rank) && RequestOk(c, r)
    ensures SharedOk(m.c, h, rank)
    ensures SameStorage(c, m.c) && m.c.lock == c.lock && !m.r.pc.Locked?
  {
    hide SharedOk, AccessIssued, WasAccepted;
    match r.pc
    case Sent(_, tok) => AcceptedKeepsShared(c, tok, h, rank);
    case MarkSwap(tok, _, _) =>
      if Marked(c, tok) {
        ClearedKeepsShared(c, tok, h, rank);
      }
    case Terminate(kind) => FailKeepsShared(c, kind, h, rank);
    case _ =>
  }

  lemma AnswerKeepsRequest(r: Request, c: Cred, a: ReqAct, m: Moved)
    requires AnswerStep(r, c, a) == Some(m)
    requires RequestOk(c, r) && (c.mark.Some? ==> c.mark.value.ptr < c.marks)
    ensures RequestOk(m.c, m.r)
  {
  }

  // ---- requests that did not move

  predicate Grows(c: Cred, c': Cred) {
    && (c'.log == c.log || (c'.log.Then? && c'.log.prior == c.log))
    && c.marks <= c'.marks
    && (c'.mark == c.mark || c'.mark.None? || (c'.mark.value.ptr == c.marks && c.marks < c'.marks))
  }

  lemma GrowsKeepsRequest(c: Cred, c': Cred, r: Request)
    requires Grows(c, c') && RequestOk(c, r)
    ensures RequestOk(c', r)
  {
  }

  lemma AnswerGrows(r: Request, c: Cred, a: ReqAct, m: Moved)
    requires AnswerStep(r, c, a) == Some(m)
    ensures Grows(c, m.c)
  {
  }

  lemma LockedGrows(pc: LockedPc, ctxDone: bool, c: Cred, closing: bool, a: ReqAct, m: LockedMove)
    requires LockedStep(pc, ctxDone, c, closing, a) == Some(m)
    ensures Grows(c, m.c)
  {
    if pc.Refreshing? {
      RefreshGrows(pc, ctxDone, c, a, m);
    }
    hide RefreshStep;
  }

  lemma RefreshGrows(pc: LockedPc, ctxDone: bool, c: Cred, a: ReqAct, m: LockedMove)
    requires pc.Refreshing? && RefreshStep(pc.cause, pc.call, pc.at, ctxDone, c, a) == Some(m)
    ensures Grows(c, m.c)
  {
  }

  predicate SameRest(c: Cred, c': Cred) {
    c'.zeroed == c.zeroed && c'.redClosed == c.redClosed && (c'.tok.None? <==> c.tok.None?)
  }

  lemma LockedKeepsRest(pc: LockedPc, ctxDone: bool, c: Cred, closing: bool, a: ReqAct, m: LockedMove)
    requires LockedStep(pc, ctxDone, c, closing, a) == Some(m) && !pc.Refreshing?
    ensures SameRest(c, m.c)
  {
  }

  lemma RefreshKeepsRest(pc: LockedPc, ctxDone: bool, c: Cred, closing: bool, a: ReqAct, m: LockedMove)
    requires LockedStep(pc, ctxDone, c, closing, a) == Some(m) && pc.Refreshing?
    ensures SameRest(c, m.c)
  {
  }

  lemma LockedKeepsRequest(pc: LockedPc, ctxDone: bool, c: Cred, closing: bool, a: ReqAct, rank: nat, m: LockedMove)
    requires LockedStep(pc, ctxDone, c, closing, a) == Some(m)
    requires TokenOk(c, Some(pc), rank) && HistoryOk(c, Some(pc))
    ensures RequestOk(m.c, Request(m.pc, ctxDone, false))
    ensures m.c.lock == if m.pc.Locked? then c.lock else Free
  {
  }

  // ---- a whole step

  lemma StorageBounds(c: Cred, held: set<nat>, part: set<nat>)
    requires StorageOk(c, held) && part <= held
    ensures InStore(c.store, TokIds(c.tok)) && InStore(c.store, part)
  {
  }

  lemma LockedKeepsShared(pc: LockedPc, ctxDone: bool, c: Cred, closing: bool, a: ReqAct, rest: set<nat>, rank: nat, m: LockedMove)
    requires LockedStep(pc, ctxDone, c, closing, a) == Some(m)
    requires SharedOk(c, Some(pc), rank) && StorageOk(c, HolderIds(Some(pc)) + rest) && (c.zeroed <==> rank >= 7)
    ensures SharedOk(m.c, HolderPc(m.pc), rank)
  {
    hide LockedStep, TokenOk, HistoryOk, RotationOk, MarkOk, StorageOk, InStore, HolderIds, HolderPc;
    if !pc.Refreshing? {
      LockedKeepsToken(pc, ctxDone, c, closing, a, rank, m);
      LockedKeepsHistory(pc, ctxDone, c, closing, a, m);
      LockedKeepsRotation(pc, ctxDone, c, closing, a, m);
      LockedKeepsMark(pc, ctxDone, c, closing, a, rank, m);
    } else if Plain(pc.at) {
      PlainKeepsToken(pc, ctxDone, c, closing, a, rank, m);
      PlainKeepsHistory(pc, ctxDone, c, closing, a, rank, m);
      PlainKeepsRotation(pc, ctxDone, c, closing, a, rank, m);
      PlainKeepsMark(pc, ctxDone, c, closing, a, rank, m);
    } else if pc.at.RDecide? {
      DecideKeepsToken(pc, ctxDone, c, closing, a, rank, m);
      DecideKeepsHistory(pc, ctxDone, c, closing, a, rank, m);
      DecideKeepsRotation(pc, ctxDone, c, closing, a, rank, m);
      DecideKeepsMark(pc, ctxDone, c, closing, a, rank, m);
    } else {
      StorageBounds(c, HolderIds(Some(pc)) + rest, HolderIds(Some(pc)));
      TrackingKeepsShared(pc, ctxDone, c, closing, a, rank, m);
    }
  }

  lemma SameKeepsStorage(c: Cred, c': Cred, held: set<nat>, held': set<nat>)
    requires SameStorage(c, c') && held' == held
    ensures StorageOk(c, held) ==> StorageOk(c', held')
    ensures RedactorOk(c) ==> RedactorOk(c')
    ensures AllWiped(c, WorkIds(c, {})) ==> AllWiped(c', WorkIds(c', {}))
  {
    if RedactorOk(c) && !c.redClosed {
      forall w | w in c.tracked ensures Known(c', w) {
        var i :| i in c.items && i < |c.store| && c.store[i] == w;
        assert c'.store[i] == w;
      }
    }
  }

  lemma LockedKeepsOwned(pc: LockedPc, ctxDone: bool, c: Cred, closing: bool, a: ReqAct, rest: set<nat>, rank: nat, m: LockedMove)
    requires LockedStep(pc, ctxDone, c, closing, a) == Some(m)
    requires TokenOk(c, Some(pc), rank) && StorageOk(c, HolderIds(Some(pc)) + rest) && RedactorOk(c)
    requires rank >= 9 ==> AllWiped(c, WorkIds(c, {}))
    ensures StorageOk(m.c, HolderIds(HolderPc(m.pc)) + rest) && RedactorOk(m.c)
    ensures rank >= 9 ==> AllWiped(m.c, WorkIds(m.c, {}))
  {
    assert pc.Refreshing? ==> rank <= 7;
    hide LockedStep, StorageOk, RedactorOk, TokenOk, AllWiped, WorkIds, HolderIds, HolderPc, SameStorage;
    if !pc.Refreshing? || Plain(pc.at) {
      LockedKeepsStorage(pc, ctxDone, c, closing, a, m);
      SameKeepsStorage(c, m.c, HolderIds(Some(pc)) + rest, HolderIds(HolderPc(m.pc)) + rest);
    } else if pc.at.RDecide? {
      DecideKeepsStorage(pc, ctxDone, c, closing, a, rest, m);
    } else {
      TrackingKeepsStorage(pc, ctxDone, c, closing, a, rest, m);
    }
  }

  lemma ConnectUnmoved(c: Cred, c': Cred, con: ConPc)
    requires ConOk(c, con)
    requires SameStorage(c, c') || (c.tok.Some? && c'.tok.Some?)
    ensures ConOk(c', con)
  {
  }

  lemma OthersUnmoved(c: Cred, c': Cred, reqs: seq<Request>, t: nat, r: Request)
    requires t < |reqs| && Grows(c, c') && RequestOk(c', r) && RequestsOk(c, reqs)
    ensures RequestsOk(c', reqs[t := r])
  {
    hide RequestOk, Grows;
    var moved := reqs[t := r];
    forall u | 0 <= u < |moved| ensures RequestOk(c', moved[u]) {
      if u != t {
        GrowsKeepsRequest(c, c', reqs[u]);
      }
    }
  }

  lemma HolderMoves(s: State, t: nat, r: Request, c: Cred)
    requires LocksOk(s) && t < |s.reqs| && s.cred.lock == HeldByRequest(t)
    requires c.lock == if r.pc.Locked? then HeldByRequest(t) else Free
    ensures LocksOk(s.(cred := c, reqs := s.reqs[t := r]))
    ensures Holder(s) == HolderPc(s.reqs[t].pc)
    ensures Holder(s.(cred := c, reqs := s.reqs[t := r])) == HolderPc(r.pc)
  {
  }

  lemma LockedKeepsCred(pc: LockedPc, ctxDone: bool, c: Cred, closing: bool, a: ReqAct, rest: set<nat>, rank: nat, m: LockedMove)
    requires LockedStep(pc, ctxDone, c, closing, a) == Some(m)
    requires CredOk(c, Some(pc), rest, rank) && (c.zeroed <==> rank >= 7)
    ensures CredOk(m.c, HolderPc(m.pc), rest, rank)
  {
    hide LockedStep, StorageOk, RedactorOk, TokenOk, HistoryOk, RotationOk, MarkOk, AllWiped, WorkIds, HolderIds, HolderPc;
    LockedKeepsShared(pc, ctxDone, c, closing, a, rest, rank, m);
    LockedKeepsOwned(pc, ctxDone, c, closing, a, rest, rank, m);
  }

  lemma LockedKeepsConnect(pc: LockedPc, ctxDone: bool, c: Cred, closing: bool, a: ReqAct, con: ConPc, rank: nat, m: LockedMove)
    requires LockedStep(pc, ctxDone, c, closing, a) == Some(m)
    requires ConOk(c, con) && TokenOk(c, Some(pc), rank)
    ensures ConOk(m.c, con) && SameRest(c, m.c)
  {
    assert pc.Refreshing? ==> c.tok.Some?;
    hide LockedStep, ConOk, TokenOk;
    if pc.Refreshing? {
      RefreshKeepsRest(pc, ctxDone, c, closing, a, m);
    } else {
      LockedKeepsRest(pc, ctxDone, c, closing, a, m);
      LockedKeepsStorage(pc, ctxDone, c, closing, a, m);
    }
    ConnectUnmoved(c, m.c, con);
  }

  lemma HolderIs(s: State, t: nat)
    requires LocksOk(s) && RequestsOk(s.cred, s.reqs) && t < |s.reqs|
    ensures s.reqs[t].pc.Locked? <==> s.cred.lock == HeldByRequest(t)
    ensures s.reqs[t].pc.Locked? ==> Holder(s) == Some(s.reqs[t].pc.pc)
    ensures s.cred.lock.Free? ==> Holder(s) == None
    ensures RequestOk(s.cred, s.reqs[t])
  {
  }

  lemma CredParts(c: Cred, h: Option<LockedPc>, rest: set<nat>, rank: nat)
    requires CredOk(c, h, rest, rank)
    ensures TokenOk(c, h, rank) && HistoryOk(c, h)
  {
  }

  lemma LockedKeepsInv(s: State, t: nat, a: ReqAct, s': State)
    requires CredInv(s) && t < |s.reqs| && s.reqs[t].pc.Locked? && !a.Cancel?
    requires ReqNext(s, t, a) == Some(s')
    ensures CredInv(s')
  {
    hide LockedStep, EntryStep, AnswerStep, CredOk, RequestOk, RequestsOk, ConOk, LocksOk, Holder, Grows,
      ConHeld, Rank, InSetup, TokenOk, HistoryOk;
    var r, c, closing, rank := s.reqs[t], s.cred, s.life.closing, Rank(s.life.shut);
    var m := LockedStep(r.pc.pc, r.ctxDone, c, closing, a).value;
    HolderIs(s, t);
    CredParts(c, Some(r.pc.pc), ConHeld(s.con), rank);
    LockedKeepsCred(r.pc.pc, r.ctxDone, c, closing, a, ConHeld(s.con), rank, m);
    LockedGrows(r.pc.pc, r.ctxDone, c, closing, a, m);
    LockedKeepsRequest(r.pc.pc, r.ctxDone, c, closing, a, rank, m);
    LockedKeepsConnect(r.pc.pc, r.ctxDone, c, closing, a, s.con, rank, m);
    HolderMoves(s, t, s'.reqs[t], m.c);
    OthersUnmoved(c, m.c, s.reqs, t, s'.reqs[t]);
  }

  lemma EntryKeepsInv(s: State, t: nat, a: ReqAct, s': State)
    requires CredInv(s) && t < |s.reqs| && EntryStep(t, s.reqs[t], s.cred, s.life.closing, a).Some?
    requires !s.reqs[t].pc.Locked?
    requires var m := EntryStep(t, s.reqs[t], s.cred, s.life.closing, a).value;
             s' == s.(cred := m.c, reqs := s.reqs[t := m.r])
    ensures CredInv(s')
  {
    hide EntryStep, CredOk, RequestOk, RequestsOk, ConOk, LocksOk, Holder, Grows, ConHeld, Rank, InSetup;
    var r, c, rank := s.reqs[t], s.cred, Rank(s.life.shut);
    var m := EntryStep(t, r, c, s.life.closing, a).value;
    HolderIs(s, t);
    EntryOnlyLooks(t, r, c, s.life.closing, a, m);
    LockOnly(s, t, m.r, m.c);
    OthersUnmoved(c, m.c, s.reqs, t, m.r);
    ConnectUnmoved(c, m.c, s.con);
    if m.r.pc.Locked? {
      AcquireKeepsCred(c, t, m.r.pc.pc.call, ConHeld(s.con), rank);
    }
  }

  /** A request that does not hold the lock and does not release it. */
  lemma LockOnly(s: State, t: nat, r: Request, c: Cred)
    requires LocksOk(s) && t < |s.reqs| && !s.reqs[t].pc.Locked?
    requires if r.pc.Locked? then s.cred.lock.Free? && c.lock == HeldByRequest(t) else c.lock == s.cred.lock
    ensures LocksOk(s.(cred := c, reqs := s.reqs[t := r]))
    ensures Holder(s.(cred := c, reqs := s.reqs[t := r])) == if r.pc.Locked? then HolderPc(r.pc) else Holder(s)
    ensures c == s.cred.(lock := c.lock) ==> Grows(s.cred, c) && SameStorage(s.cred, c)
  {
  }

  lemma AnswerKeepsCred(r: Request, c: Cred, a: ReqAct, h: Option<LockedPc>, rest: set<nat>, rank: nat, m: Moved)
    requires AnswerStep(r, c, a) == Some(m)
    requires CredOk(c, h, rest, rank) && RequestOk(c, r)
    ensures CredOk(m.c, h, rest, rank) && RequestOk(m.c, m.r) && SameStorage(c, m.c)
    ensures m.c.lock == c.lock && m.c.zeroed == c.zeroed && !m.r.pc.Locked?
  {
    AnswerKeepsRequest(r, c, a, m);
    hide AnswerStep, StorageOk, RedactorOk, AllWiped, WorkIds, HolderIds, TokenOk, HistoryOk, RotationOk, MarkOk, RequestOk;
    AnswerKeepsShared(r, c, a, h, rank, m);
    SameKeepsStorage(c, m.c, HolderIds(h) + rest, HolderIds(h) + rest);
  }

  lemma AnswerKeepsInv(s: State, t: nat, a: ReqAct, s': State)
    requires CredInv(s) && t < |s.reqs| && AnswerStep(s.reqs[t], s.cred, a).Some?
    requires !s.reqs[t].pc.Locked?
    requires var m := AnswerStep(s.reqs[t], s.cred, a).value;
             s' == s.(cred := m.c, reqs := s.reqs[t := m.r])
    ensures CredInv(s')
  {
    hide AnswerStep, CredOk, RequestOk, RequestsOk, ConOk, LocksOk, Holder, Grows, ConHeld, Rank, InSetup, SameStorage;
    var r, c, rank := s.reqs[t], s.cred, Rank(s.life.shut);
    var m := AnswerStep(r, c, a).value;
    HolderIs(s, t);
    AnswerKeepsCred(r, c, a, Holder(s), ConHeld(s.con), rank, m);
    AnswerGrows(r, c, a, m);
    LockOnly(s, t, m.r, m.c);
    OthersUnmoved(c, m.c, s.reqs, t, m.r);
    ConnectUnmoved(c, m.c, s.con);
    SameClosed(c, m.c);
  }

  lemma SameClosed(c: Cred, c': Cred)
    requires SameStorage(c, c')
    ensures c'.redClosed == c.redClosed
  {
  }

  lemma CancelKeepsInv(s: State, t: nat, s': State)
    requires CredInv(s) && t < |s.reqs| && s' == s.(reqs := s.reqs[t := s.reqs[t].(ctxDone := true)])
    ensures CredInv(s')
  {
    var r := s.reqs[t].(ctxDone := true);
    assert RequestOk(s.cred, s.reqs[t]);
    hide CredOk, ConOk, ConHeld, Rank, InSetup;
    assert Holder(s') == Holder(s);
    OthersUnmoved(s.cred, s.cred, s.reqs, t, r);
  }

  lemma ReqKeepsInv(s: State, t: nat, a: ReqAct, s': State)
    requires CredInv(s) && t < |s.reqs| && ReqNext(s, t, a) == Some(s')
    ensures CredInv(s')
  {
    hide CredInv, EntryStep, AnswerStep, LockedStep;
    if a.Cancel? {
      CancelKeepsInv(s, t, s');
    } else if s.reqs[t].pc.Locked? {
      LockedKeepsInv(s, t, a, s');
    } else if s.reqs[t].pc.Sent? || s.reqs[t].pc.MarkLoad? || s.reqs[t].pc.MarkSwap? || s.reqs[t].pc.Terminate? {
      AnswerKeepsInv(s, t, a, s');
    } else {
      EntryKeepsInv(s, t, a, s');
    }
  }
}
