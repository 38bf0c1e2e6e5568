/**
 * The hand-made mutex withTradeLock: a chain of promises. Caller k reads the current tail of the chain
 * (promise k), appends its own unresolved promise k + 1, waits for promise k, runs its body, and resolves
 * promise k + 1 in a `finally`, whether the body returned or threw. Promise 0 is resolved from the start.
 */
module TradeLock {

  datatype Status = Waiting | Running | Finished

  /** resolved[k] is promise k; started lists the callers in the order their bodies began. */
  datatype Lock = Lock(resolved: seq<bool>, callers: seq<Status>, started: seq<nat>)

  datatype Move = Arrive | Start(k: nat) | Finish(k: nat)

  const FREE := Lock([true], [], [])

  predicate CanStart(l: Lock, k: nat) {
    k < |l.callers| && k < |l.resolved| && l.callers[k] == Waiting && l.resolved[k]
  }

  predicate Enabled(l: Lock, m: Move) {
    match m
    case Arrive => true
    case Start(k) => CanStart(l, k)
    case Finish(k) => k < |l.callers| && k + 1 < |l.resolved| && l.callers[k] == Running
  }

  function Apply(l: Lock, m: Move): Lock
    requires Enabled(l, m)
  {
    match m
    case Arrive => Lock(l.resolved + [false], l.callers + [Waiting], l.started)
    case Start(k) => l.(callers := l.callers[k := Running], started := l.started + [k])
    case Finish(k) => l.(callers := l.callers[k := Finished], resolved := l.resolved[k + 1 := true])
  }

  /** A run of the lock; every move must be enabled when it is made. */
  predicate Run(l: Lock, ms: seq<Move>, end: Lock)
    decreases |ms|
  {
    if ms == [] then l == end else Enabled(l, ms[0]) && Run(Apply(l, ms[0]), ms[1..], end)
  }

  // ---- Invariant ----

  /** The first d callers are finished, the others are waiting, except that caller d may be running. */
  predicate Shape(l: Lock, d: nat) {
    && |l.resolved| == |l.callers| + 1 && d <= |l.callers|
    && (forall k :: 0 <= k < |l.resolved| ==> (l.resolved[k] <==> k <= d))
    && (forall k :: 0 <= k < d ==> l.callers[k] == Finished)
    && (d < |l.callers| ==> l.callers[d] != Finished)
    && (forall k :: d < k < |l.callers| ==> l.callers[k] == Waiting)
    && |l.started| == d + (if d < |l.callers| && l.callers[d] == Running then 1 else 0)
    && (forall i :: 0 <= i < |l.started| ==> l.started[i] == i)
  }

  ghost predicate Inv(l: Lock) {
    exists d: nat :: Shape(l, d)
  }

  lemma MoveKeepsInv(l: Lock, m: Move)
    requires Inv(l) && Enabled(l, m)
    ensures Inv(Apply(l, m))
  {
    var d: nat :| Shape(l, d);
    match m
    case Arrive => assert Shape(Apply(l, m), d);
    case Start(k) => assert k == d; assert Shape(Apply(l, m), d);
    case Finish(k) => assert k == d; assert Shape(Apply(l, m), d + 1);
  }

  lemma {:induction false} RunKeepsInv(l: Lock, ms: seq<Move>, end: Lock)
    requires Inv(l) && Run(l, ms, end)
    ensures Inv(end)
    decreases |ms|
  {
    if ms != [] {
      MoveKeepsInv(l, ms[0]);
      RunKeepsInv(Apply(l, ms[0]), ms[1..], end);
    }
  }

  lemma FreeIsShaped()
    ensures Inv(FREE)
  {
    assert Shape(FREE, 0);
  }

  // ---- What the lock guarantees in every reachable state ----

  /** Never two bodies at once, and bodies begin in the order their callers arrived. */
  lemma ExclusiveAndFifo(ms: seq<Move>, l: Lock)
    requires Run(FREE, ms, l)
    ensures forall i, j :: 0 <= i < |l.callers| && 0 <= j < |l.callers| && l.callers[i] == l.callers[j] == Running ==>
              i == j
    ensures forall i :: 0 <= i < |l.started| ==> l.started[i] == i
    ensures forall i, j :: 0 <= i < j < |l.callers| && l.callers[j] != Waiting ==> l.callers[i] == Finished
  {
    FreeIsShaped();
    RunKeepsInv(FREE, ms, l);
    var d: nat :| Shape(l, d);
  }

  predicate Active(l: Lock, k: nat) {
    k < |l.callers| && (l.callers[k] == Running || CanStart(l, k))
  }

  /** While any caller is unfinished, exactly one caller is running or able to start. */
  lemma ExactlyOneActive(ms: seq<Move>, l: Lock, unfinished: nat)
    requires Run(FREE, ms, l) && unfinished < |l.callers| && l.callers[unfinished] != Finished
    ensures exists k: nat :: Active(l, k) && k <= unfinished && forall j: nat :: Active(l, j) ==> j == k
  {
    FreeIsShaped();
    RunKeepsInv(FREE, ms, l);
    var d: nat :| Shape(l, d);
    assert Active(l, d);
  }

  /** How many starts and finishes are still owed. */
  function Owed(cs: seq<Status>): nat {
    if cs == [] then 0
    else Owed(cs[..|cs| - 1]) + match cs[|cs| - 1] case Waiting => 2 case Running => 1 case Finished => 0
  }

  lemma {:induction false} OwedUpdate(cs: seq<Status>, k: nat, s: Status)
    requires k < |cs|
    requires (cs[k] == Waiting && s == Running) || (cs[k] == Running && s == Finished)
    ensures Owed(cs[k := s]) == Owed(cs) - 1
    decreases |cs|
  {
    var n := |cs| - 1;
    if k == n {
      assert cs[k := s][..n] == cs[..n];
    } else {
      assert cs[k := s][..n] == cs[..n][k := s];
      OwedUpdate(cs[..n], k, s);
    }
  }

  predicate AllFinished(l: Lock) { forall k :: 0 <= k < |l.callers| ==> l.callers[k] == Finished }

  /**
   * Every start and finish brings the queue one step nearer to being served, and until everyone is
   * served one of them is possible: no order of scheduling can get stuck.
   */
  lemma EveryCallerIsServed(ms: seq<Move>, l: Lock)
    requires Run(FREE, ms, l)
    ensures forall m: Move :: Enabled(l, m) && !m.Arrive? ==> Owed(Apply(l, m).callers) == Owed(l.callers) - 1
    ensures AllFinished(l) || exists m: Move :: !m.Arrive? && Enabled(l, m)
  {
    FreeIsShaped();
    RunKeepsInv(FREE, ms, l);
    var d: nat :| Shape(l, d);
    forall m: Move | Enabled(l, m) && !m.Arrive? ensures Owed(Apply(l, m).callers) == Owed(l.callers) - 1 {
      OwedUpdate(l.callers, m.k, if m.Start? then Running else Finished);
    }
    if !AllFinished(l) {
      assert Enabled(l, Start(d)) || Enabled(l, Finish(d));
    }
  }

  /**
   * A body must not wait for the lock itself: as long as caller k has not finished, every caller that
   * arrived after it keeps waiting, whatever else happens.
   */
  lemma {:induction false} LaterCallersWait(l: Lock, k: nat, ms: seq<Move>, end: Lock)
    requires Inv(l) && k < |l.callers| && l.callers[k] == Running
    requires Run(l, ms, end) && forall i :: 0 <= i < |ms| ==> ms[i] != Finish(k)
    ensures k < |end.callers| && end.callers[k] == Running
    ensures forall j :: k < j < |end.callers| ==> end.callers[j] == Waiting
    decreases |ms|
  {
    var d: nat :| Shape(l, d);
    if ms != [] {
      MoveKeepsInv(l, ms[0]);
      var next := Apply(l, ms[0]);
      var e: nat :| Shape(next, e);
      LaterCallersWait(next, k, ms[1..], end);
    }
  }
}
