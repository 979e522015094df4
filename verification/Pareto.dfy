/** Quality signals compared on six scores, and those no other signal beats. */
module Pareto {
  datatype Signal = Signal(session: string, tokenEfficiency: real, turnCount: int, toolErrorRate: real,
                           toolDenialRate: real, approvalRate: real, outcome: string)

  /** Higher is better throughout. */
  function Scores(s: Signal): (r: seq<real>)
    ensures |r| == 6
  {
    [s.tokenEfficiency, -(s.turnCount as real), -s.toolErrorRate, -s.toolDenialRate, s.approvalRate,
     if s.outcome == "success" then 1.0 else 0.0]
  }

  predicate NoWorse(a: Signal, b: Signal) {
    forall i :: 0 <= i < 6 ==> Scores(a)[i] >= Scores(b)[i]
  }

  predicate Dominates(a: Signal, b: Signal) {
    NoWorse(a, b) && exists i :: 0 <= i < 6 && Scores(a)[i] > Scores(b)[i]
  }

  method DominatesSignal(a: Signal, b: Signal) returns (r: bool)
    ensures r == Dominates(a, b)
  {
    var x, y := Scores(a), Scores(b);
    if |x| != |y| {
      return false;
    }
    var strictlyBetter, i := false, 0;
    while i < |x|
      invariant 0 <= i <= |x|
      invariant forall j :: 0 <= j < i ==> x[j] >= y[j]
      invariant strictlyBetter <==> exists j :: 0 <= j < i && x[j] > y[j]
    {
      if x[i] < y[i] {
        return false;
      }
      if x[i] > y[i] {
        strictlyBetter := true;
      }
      i := i + 1;
    }
    return strictlyBetter;
  }

  /** As efficient, approved and successful, with no more turns, errors and denials; and better in one of these. */
  lemma DominatesMeans(a: Signal, b: Signal)
    ensures Dominates(a, b) <==>
              a.tokenEfficiency >= b.tokenEfficiency && a.turnCount <= b.turnCount
              && a.toolErrorRate <= b.toolErrorRate && a.toolDenialRate <= b.toolDenialRate
              && a.approvalRate >= b.approvalRate && (b.outcome == "success" ==> a.outcome == "success")
              && (a.tokenEfficiency > b.tokenEfficiency || a.turnCount < b.turnCount
                  || a.toolErrorRate < b.toolErrorRate || a.toolDenialRate < b.toolDenialRate
                  || a.approvalRate > b.approvalRate || (a.outcome == "success" && b.outcome != "success"))
  {
    var x, y := Scores(a), Scores(b);
    assert NoWorse(a, b) <==>
        x[0] >= y[0] && x[1] >= y[1] && x[2] >= y[2] && x[3] >= y[3] && x[4] >= y[4] && x[5] >= y[5];
    assert (exists i :: 0 <= i < 6 && x[i] > y[i]) <==>
        x[0] > y[0] || x[1] > y[1] || x[2] > y[2] || x[3] > y[3] || x[4] > y[4] || x[5] > y[5];
  }

  lemma DominanceIsStrictOrder(a: Signal, b: Signal, c: Signal)
    ensures !Dominates(a, a)
    ensures Dominates(a, b) && Dominates(b, c) ==> Dominates(a, c)
  {
    hide Scores;
    if Dominates(a, b) && Dominates(b, c) {
      var i :| 0 <= i < 6 && Scores(a)[i] > Scores(b)[i];
      assert Scores(a)[i] > Scores(b)[i] >= Scores(c)[i];
      forall j | 0 <= j < 6 ensures Scores(a)[j] >= Scores(c)[j] {
        assert Scores(a)[j] >= Scores(b)[j] >= Scores(c)[j];
      }
    }
  }

  ghost predicate Dominated(s: Signal, signals: seq<Signal>) {
    exists t :: t in signals && Dominates(t, s)
  }

  /** The undominated ones among the first n, in order. */
  ghost function FrontOf(signals: seq<Signal>, n: nat): seq<Signal>
    requires n <= |signals|
  {
    if n == 0 then []
    else FrontOf(signals, n - 1) + if Dominated(signals[n - 1], signals) then [] else [signals[n - 1]]
  }

  ghost function Front(signals: seq<Signal>): seq<Signal> {
    FrontOf(signals, |signals|)
  }

  method ParetoFront(signals: seq<Signal>) returns (front: seq<Signal>)
    ensures front == Front(signals)
  {
    hide Dominates;
    if |signals| <= 1 {
      FewAreTheirFront(signals);
      return signals;
    }
    front := [];
    var i := 0;
    while i < |signals|
      invariant 0 <= i <= |signals| && front == FrontOf(signals, i)
    {
      var dominated, j := false, 0;
      while j < |signals|
        invariant 0 <= j <= |signals| && !dominated
        invariant forall k :: 0 <= k < j ==> !Dominates(signals[k], signals[i])
      {
        if i != j {
          var d := DominatesSignal(signals[j], signals[i]);
          if d {
            dominated := true;
            break;
          }
        }
        DominanceIsStrictOrder(signals[i], signals[i], signals[i]);
        j := j + 1;
      }
      assert dominated <==> Dominated(signals[i], signals);
      if !dominated {
        front := front + [signals[i]];
      }
      i := i + 1;
    }
  }

  lemma FewAreTheirFront(signals: seq<Signal>)
    requires |signals| <= 1
    ensures Front(signals) == signals
  {
    if |signals| == 1 {
      DominanceIsStrictOrder(signals[0], signals[0], signals[0]);
      assert FrontOf(signals, 0) == [];
    }
  }

  /** The front holds exactly the signals nobody dominates. */
  lemma {:induction false} FrontIsUndominated(signals: seq<Signal>, n: nat, s: Signal)
    requires n <= |signals|
    ensures s in FrontOf(signals, n) <==> s in signals[..n] && !Dominated(s, signals)
  {
    if n > 0 {
      FrontIsUndominated(signals, n - 1, s);
      assert signals[..n] == signals[..n - 1] + [signals[n - 1]];
    }
  }

  function Dominators(s: Signal, signals: seq<Signal>): set<Signal> {
    set t | t in signals && Dominates(t, s)
  }

  /** Whatever is dominated at all is dominated by a member of the front. */
  lemma {:induction false} FrontDominatesTheRest(signals: seq<Signal>, s: Signal)
    requires Dominated(s, signals)
    ensures exists f :: f in Front(signals) && Dominates(f, s)
    decreases |Dominators(s, signals)|
  {
    hide Dominates;
    var t :| t in signals && Dominates(t, s);
    assert signals[..|signals|] == signals;
    FrontIsUndominated(signals, |signals|, t);
    if Dominated(t, signals) {
      forall u | u in Dominators(t, signals) ensures u in Dominators(s, signals) {
        DominanceIsStrictOrder(u, t, s);
      }
      DominanceIsStrictOrder(t, t, t);
      assert t in Dominators(s, signals) && t !in Dominators(t, signals);
      SmallerSet(Dominators(t, signals), Dominators(s, signals), t);
      FrontDominatesTheRest(signals, t);
      var f :| f in Front(signals) && Dominates(f, t);
      DominanceIsStrictOrder(f, t, s);
    }
  }

  lemma SmallerSet(a: set<Signal>, b: set<Signal>, x: Signal)
    requires a <= b && x in b && x !in a
    ensures |a| < |b|
  {
    assert b == a + (b - a);
    assert x in b - a;
  }

  /** Every signal is in the front or dominated by it, and no member of the front is dominated by any signal. */
  lemma FrontIsCompleteAndSound(signals: seq<Signal>)
    ensures forall s :: s in signals && s !in Front(signals) ==> exists f :: f in Front(signals) && Dominates(f, s)
    ensures forall f :: f in Front(signals) ==> f in signals && !Dominated(f, signals)
  {
    hide Dominates;
    assert signals[..|signals|] == signals;
    forall s ensures s in Front(signals) <==> s in signals && !Dominated(s, signals) {
      FrontIsUndominated(signals, |signals|, s);
    }
    forall s | s in signals && s !in Front(signals) ensures exists f :: f in Front(signals) && Dominates(f, s) {
      FrontDominatesTheRest(signals, s);
    }
  }

  lemma {:induction false} AllUndominated(signals: seq<Signal>, n: nat)
    requires n <= |signals| && forall s :: s in signals ==> !Dominated(s, signals)
    ensures FrontOf(signals, n) == signals[..n]
  {
    if n > 0 {
      AllUndominated(signals, n - 1);
      assert signals[..n] == signals[..n - 1] + [signals[n - 1]];
    }
  }

  /** Taking the front twice is taking it once. */
  lemma FrontIsIdempotent(signals: seq<Signal>)
    ensures Front(Front(signals)) == Front(signals)
  {
    hide Dominates;
    var front := Front(signals);
    FrontIsCompleteAndSound(signals);
    forall f | f in front ensures !Dominated(f, front) {
      assert !Dominated(f, signals);
    }
    AllUndominated(front, |front|);
    assert front[..|front|] == front;
  }
}
