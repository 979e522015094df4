/**
 The history of one remote, as its server and its callers could observe it.
 A log grows at its end; the predicates below say what a history promises.
 */
module RemoteLog {
  import opened Wrappers

  /** Why a refresh was started: the token was about to expire, or a request came back 401. */
  datatype Cause = Expiring | Rejected(used: string)

  datatype Event =
    | Installed(access: string, refresh: string) // the consent flow stored its first token set
    | RefreshSent(value: string, cause: Cause)   // a refresh request left with this refresh token
    | RefreshFailed                              // refused, aborted, lost or unusable reply
    | Minted(access: string, refresh: string)    // a refresh succeeded; refresh is "" when not rotated
    | Accepted(token: string)                    // a request with this token was not answered 401

  datatype Log = Begun | Then(prior: Log, last: Event)

  predicate HasFailed(l: Log) {
    l.Then? && (l.last.RefreshFailed? || HasFailed(l.prior))
  }

  predicate WasSent(l: Log, v: string) {
    l.Then? && ((l.last.RefreshSent? && l.last.value == v) || WasSent(l.prior, v))
  }

  predicate WasAccepted(l: Log, v: string) {
    l.Then? && ((l.last.Accepted? && l.last.token == v) || WasAccepted(l.prior, v))
  }

  predicate AccessIssued(l: Log, v: string) {
    l.Then? && (((l.last.Installed? || l.last.Minted?) && l.last.access == v) || AccessIssued(l.prior, v))
  }

  predicate RefreshIssued(l: Log, v: string) {
    l.Then? && (((l.last.Installed? || l.last.Minted?) && l.last.refresh == v) || RefreshIssued(l.prior, v))
  }

  /** The access token the latest successful refresh minted. */
  function LastMint(l: Log): Option<string> {
    if l.Begun? then None else if l.last.Minted? then Some(l.last.access) else LastMint(l.prior)
  }

  /** Some request was accepted with v after the latest mint. */
  predicate AcceptedSinceMint(l: Log, v: string) {
    l.Then? && !l.last.Minted? && ((l.last.Accepted? && l.last.token == v) || AcceptedSinceMint(l.prior, v))
  }

  /** Between a sent refresh and the end of the log its reply has not arrived. */
  predicate InFlight(l: Log) {
    l.Then? && (l.last.RefreshSent? || (!l.last.RefreshFailed? && !l.last.Minted? && InFlight(l.prior)))
  }

  // ---- what the server may promise

  /** Every refresh reply carries a refresh token never issued before. */
  predicate AlwaysRotates(l: Log) {
    l.Then? ==>
      && (l.last.Minted? ==> l.last.refresh != "" && !RefreshIssued(l.prior, l.last.refresh))
      && AlwaysRotates(l.prior)
  }

  /** No refresh mints an access token that was issued before. */
  predicate DistinctMints(l: Log) {
    l.Then? ==>
      && (l.last.Minted? ==> !AccessIssued(l.prior, l.last.access))
      && DistinctMints(l.prior)
  }

  /** No refresh mints an access token that a request was accepted with before. */
  predicate MintsUnaccepted(l: Log) {
    l.Then? ==>
      && (l.last.Minted? ==> !WasAccepted(l.prior, l.last.access))
      && MintsUnaccepted(l.prior)
  }

  // ---- what the remote must keep

  /** After a refresh that failed, none is sent; and refreshes are single-flight. */
  predicate FailureIsFinal(l: Log) {
    l.Then? ==>
      && (l.last.RefreshSent? ==> !HasFailed(l.prior) && !InFlight(l.prior))
      && FailureIsFinal(l.prior)
  }

  predicate NeverResent(l: Log) {
    l.Then? ==>
      && (l.last.RefreshSent? ==> !WasSent(l.prior, l.last.value))
      && NeverResent(l.prior)
  }

  /** A 401 refreshes a minted token only if a request was accepted with it. */
  predicate RejectedWasAccepted(l: Log) {
    l.Then? ==>
      && (l.last.RefreshSent? && l.last.cause.Rejected? && LastMint(l.prior).Some? ==>
            && LastMint(l.prior).value == l.last.cause.used
            && WasAccepted(l.prior, l.last.cause.used))
      && RejectedWasAccepted(l.prior)
  }

  /** And even after it was minted. */
  predicate RejectedWasProven(l: Log) {
    l.Then? ==>
      && (l.last.RefreshSent? && l.last.cause.Rejected? && LastMint(l.prior).Some? ==>
            && LastMint(l.prior).value == l.last.cause.used
            && AcceptedSinceMint(l.prior, l.last.cause.used))
      && RejectedWasProven(l.prior)
  }

  /** Only issued tokens are ever accepted. */
  predicate AcceptedWereIssued(l: Log) {
    l.Then? ==>
      && (l.last.Accepted? ==> AccessIssued(l.prior, l.last.token))
      && AcceptedWereIssued(l.prior)
  }

  lemma {:induction false} AcceptedImpliesIssued(l: Log, v: string)
    requires AcceptedWereIssued(l) && WasAccepted(l, v)
    ensures AccessIssued(l, v)
  {
    if !(l.last.Accepted? && l.last.token == v) {
      AcceptedImpliesIssued(l.prior, v);
    }
  }

  /** Then an acceptance of the latest minted token came after its mint. */
  lemma {:induction false} AcceptedAfterItsMint(l: Log, v: string)
    requires MintsUnaccepted(l) && LastMint(l) == Some(v) && WasAccepted(l, v)
    ensures AcceptedSinceMint(l, v)
  {
    if !l.last.Minted? && !(l.last.Accepted? && l.last.token == v) {
      AcceptedAfterItsMint(l.prior, v);
    }
  }

  /** So for such a server accepted means accepted since the mint. */
  lemma {:induction false} AcceptedMeansProven(l: Log)
    requires RejectedWasAccepted(l) && MintsUnaccepted(l)
    ensures RejectedWasProven(l)
  {
    if l.Then? {
      AcceptedMeansProven(l.prior);
      if l.last.RefreshSent? && l.last.cause.Rejected? && LastMint(l.prior).Some? {
        AcceptedAfterItsMint(l.prior, l.last.cause.used);
      }
    }
  }

  /** A server whose mints are distinct is one. */
  lemma {:induction false} DistinctMintsAreUnaccepted(l: Log)
    requires AcceptedWereIssued(l) && DistinctMints(l)
    ensures MintsUnaccepted(l)
  {
    if l.Then? {
      DistinctMintsAreUnaccepted(l.prior);
      if l.last.Minted? && WasAccepted(l.prior, l.last.access) {
        AcceptedImpliesIssued(l.prior, l.last.access);
      }
    }
  }
}
