/**
 * The failover policy shared by the forwarding loops: attempts are made in a fixed order and
 * the first success is returned; "no kdcs found" only when every attempt has failed.
 */
module Failover {
  import opened Prelude
  import opened Net

  /** The index of the first success, or |outcomes| when every attempt failed. */
  function FirstOkIndex<T>(outcomes: seq<Result<T>>): (k: nat)
    ensures k <= |outcomes|
    ensures forall j :: 0 <= j < k ==> outcomes[j].Err?
    ensures k < |outcomes| ==> outcomes[k].Ok?
  {
    if outcomes == [] then 0
    else if outcomes[0].Ok? then 0
    else 1 + FirstOkIndex(outcomes[1..])
  }

  /** What a failover loop returns: the first success, or "no kdcs found". */
  function FirstOk<T>(outcomes: seq<Result<T>>): (r: Result<T>)
    ensures r.Err? <==> forall j :: 0 <= j < |outcomes| ==> outcomes[j].Err?
    ensures r.Err? ==> r == Err(NoKdcsFound)
    ensures r.Ok? ==> r == outcomes[FirstOkIndex(outcomes)]
  {
    var k := FirstOkIndex(outcomes);
    if k < |outcomes| then outcomes[k] else Err(NoKdcsFound)
  }

  /** How many attempts a failover loop makes: all of them up to and including the first success. */
  function Tried<T>(outcomes: seq<Result<T>>): (n: nat)
    ensures n <= |outcomes|
    ensures FirstOk(outcomes).Ok? ==> n == FirstOkIndex(outcomes) + 1
    ensures FirstOk(outcomes).Err? ==> n == |outcomes|
  {
    var k := FirstOkIndex(outcomes);
    if k < |outcomes| then k + 1 else k
  }

  /** A success preceded only by failures is the one returned, and it is the last attempt made. */
  lemma FirstOkAt<T>(outcomes: seq<Result<T>>, k: nat)
    requires k < |outcomes| && outcomes[k].Ok?
    requires forall j :: 0 <= j < k ==> outcomes[j].Err?
    ensures FirstOk(outcomes) == outcomes[k] && Tried(outcomes) == k + 1
  {
  }

  /** After a run of failures, the loop goes on exactly as it would have started from the rest. */
  lemma {:induction false} AfterFailures<T>(a: seq<Result<T>>, b: seq<Result<T>>)
    requires forall j :: 0 <= j < |a| ==> a[j].Err?
    ensures FirstOk(a + b) == FirstOk(b)
    ensures Tried(a + b) == |a| + Tried(b)
  {
    if a != [] {
      assert (a + b)[0] == a[0];
      assert (a + b)[1..] == a[1..] + b;
      AfterFailures(a[1..], b);
    } else {
      assert a + b == b;
    }
  }

  /** Once a success is among the first attempts, the attempts after them are never made. */
  lemma {:induction false} StopsAtSuccess<T>(a: seq<Result<T>>, b: seq<Result<T>>)
    requires FirstOk(a).Ok?
    ensures FirstOk(a + b) == FirstOk(a)
    ensures Tried(a + b) == Tried(a)
  {
    var k := FirstOkIndex(a);
    assert (a + b)[..k] == a[..k];
    forall j | 0 <= j < k
      ensures (a + b)[j].Err?
    {
      assert (a + b)[j] == a[j];
    }
    FirstOkAt(a + b, k);
  }

  /** The dials after a run of failed attempts: all of that run, then the first n of the rest. */
  lemma PrefixAfter<T>(a: seq<T>, b: seq<T>, n: nat)
    requires n <= |b|
    ensures (a + b)[..|a| + n] == a + b[..n]
  {
  }

  /** Each KDC paired with the protocol it is tried over. */
  function Pairs(proto: Proto, kdcs: seq<Addr>): (r: seq<(Proto, Addr)>)
    ensures |r| == |kdcs|
    ensures forall i :: 0 <= i < |kdcs| ==> r[i] == (proto, kdcs[i])
  {
    seq(|kdcs|, i requires 0 <= i < |kdcs| => (proto, kdcs[i]))
  }
}
