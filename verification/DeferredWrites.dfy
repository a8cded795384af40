/** CcPostDeferredWrites: resuming writes that CcCanIWrite held back. */
module DeferredWrites {
  import opened Collections

  /** A queued write; `limited` files have a limit of their own on modified pages. */
  datatype Deferred = Deferred(id: nat, limited: bool)

  /** How a pass divides the queue: writes resumed, writes put aside, and those not looked at. */
  datatype Pass = Pass(resumed: seq<Deferred>, aside: seq<Deferred>, rest: seq<Deferred>)

  /** The answer of CcCanIWrite for the n-th write taken off the queue. */
  function AnswerAt(answers: seq<bool>, n: nat): (b: bool) {
    n < |answers| && answers[n]
  }

  /** Writes are taken in order; one that must wait ends the pass unless its file has its own limit. */
  function Divide(queue: seq<Deferred>, answers: seq<bool>, n: nat): (p: Pass) {
    if queue == [] then Pass([], [], [])
    else if AnswerAt(answers, n) then
      var p := Divide(queue[1..], answers, n + 1);
      p.(resumed := [queue[0]] + p.resumed)
    else if !queue[0].limited then Pass([], [queue[0]], queue[1..])
    else
      var p := Divide(queue[1..], answers, n + 1);
      p.(aside := [queue[0]] + p.aside)
  }

  /** Every write is resumed or still queued, and only one of these. */
  lemma {:induction false} DivideConserves(queue: seq<Deferred>, answers: seq<bool>, n: nat)
    ensures var p := Divide(queue, answers, n); multiset(queue) == multiset(p.resumed) + multiset(p.aside) + multiset(p.rest)
  {
    if queue == [] {
    } else {
      DivideConserves(queue[1..], answers, n + 1);
      assert queue == [queue[0]] + queue[1..];
    }
  }

  /** The pass `p` as far as it has got. */
  ghost predicate Going(p: Pass, queue: seq<Deferred>, answers: seq<bool>, n: nat, resumed: seq<Deferred>, aside: seq<Deferred>) {
    var q := Divide(queue, answers, n);
    p.resumed == resumed + q.resumed && p.aside == Reversed(aside) + q.aside && p.rest == q.rest
  }

  lemma ResumeGoesOn(p: Pass, queue: seq<Deferred>, answers: seq<bool>, n: nat, resumed: seq<Deferred>, aside: seq<Deferred>)
    requires Going(p, queue, answers, n, resumed, aside) && queue != [] && AnswerAt(answers, n)
    ensures Going(p, queue[1..], answers, n + 1, resumed + [queue[0]], aside)
  {
  }

  lemma AsideGoesOn(p: Pass, queue: seq<Deferred>, answers: seq<bool>, n: nat, resumed: seq<Deferred>, aside: seq<Deferred>)
    requires Going(p, queue, answers, n, resumed, aside) && queue != [] && !AnswerAt(answers, n)
    ensures queue[0].limited ==> Going(p, queue[1..], answers, n + 1, resumed, [queue[0]] + aside)
    ensures !queue[0].limited ==> p == Pass(resumed, Reversed([queue[0]] + aside), queue[1..])
  {
    PrependReversed(aside, queue[0]);
  }

  class Deferrals {
    var queue: seq<Deferred>     // CcDeferredWrites

    /** The first loop of CcPostDeferredWrites; `aside` is ToInsertBack. */
    method TakeOff(answers: seq<bool>) returns (resumed: seq<Deferred>, aside: seq<Deferred>)
      modifies this
      ensures Divide(old(queue), answers, 0) == Pass(resumed, Reversed(aside), queue)
    {
      hide Going;
      ghost var p := Divide(queue, answers, 0);
      var n := 0;
      resumed, aside := [], [];
      Start(queue, answers);
      while queue != []
        invariant Going(p, queue, answers, n, resumed, aside)
        decreases |queue|
      {
        var w := queue[0];
        if AnswerAt(answers, n) {
          ResumeGoesOn(p, queue, answers, n, resumed, aside);
          queue, resumed := queue[1..], resumed + [w];
        } else {
          AsideGoesOn(p, queue, answers, n, resumed, aside);
          queue, aside := queue[1..], [w] + aside;
          if !w.limited {
            return;
          }
        }
        n := n + 1;
      }
      End(p, answers, n, resumed, aside);
    }

    /** The second loop. */
    method PutBack(all: seq<Deferred>)
      modifies this
      ensures queue == all + old(queue)
    {
      var aside := all;
      while aside != []
        invariant aside <= all && queue == all[|aside|..] + old(queue)
      {
        var w := aside[|aside| - 1];
        aside := aside[..|aside| - 1];
        queue := [w] + queue;
      }
    }

    /** CcPostDeferredWrites. What was put aside goes back to the front of the queue, the last one
        put aside foremost; no write is lost, resumed twice, or resumed and kept. */
    method PostDeferredWrites(answers: seq<bool>) returns (resumed: seq<Deferred>)
      modifies this
      ensures var p := Divide(old(queue), answers, 0); resumed == p.resumed && queue == Reversed(p.aside) + p.rest
      ensures multiset(old(queue)) == multiset(resumed) + multiset(queue)
    {
      DivideConserves(queue, answers, 0);
      var aside;
      resumed, aside := TakeOff(answers);
      ReversedTwice(aside);
      ReversedBag(aside);
      PutBack(aside);
    }
  }

  lemma Start(queue: seq<Deferred>, answers: seq<bool>)
    ensures Going(Divide(queue, answers, 0), queue, answers, 0, [], [])
  {
  }

  lemma End(p: Pass, answers: seq<bool>, n: nat, resumed: seq<Deferred>, aside: seq<Deferred>)
    requires Going(p, [], answers, n, resumed, aside)
    ensures p == Pass(resumed, Reversed(aside), [])
  {
  }

  lemma PrependReversed(s: seq<Deferred>, w: Deferred)
    ensures Reversed([w] + s) == Reversed(s) + [w]
  {
  }

  lemma ReversedTwice(s: seq<Deferred>)
    ensures Reversed(Reversed(s)) == s
  {
  }

  /** The answers make a write wait that the pass gets to. */
  ghost predicate Waits(queue: seq<Deferred>, answers: seq<bool>, n: nat, j: nat) {
    && j < |queue| && !AnswerAt(answers, n + j)
    && forall i: nat :: i < j && !AnswerAt(answers, n + i) ==> queue[i].limited
  }

  /** Two writes of one pass have to wait: the first of them has a limit of its own. */
  ghost predicate TwoWait(queue: seq<Deferred>, answers: seq<bool>, n: nat) {
    exists i: nat, j: nat :: i < j && Waits(queue, answers, n, i) && Waits(queue, answers, n, j)
  }

  lemma WaitsLater(queue: seq<Deferred>, answers: seq<bool>, n: nat, j: nat)
    requires queue != [] && (AnswerAt(answers, n) || queue[0].limited)
    ensures Waits(queue, answers, n, j + 1) <==> Waits(queue[1..], answers, n + 1, j)
  {
    if Waits(queue, answers, n, j + 1) {
      forall i: nat | i < j && !AnswerAt(answers, n + 1 + i)
        ensures queue[1..][i].limited
      {
        assert !AnswerAt(answers, n + (i + 1));
      }
    }
    if Waits(queue[1..], answers, n + 1, j) {
      forall i: nat | i < j + 1 && !AnswerAt(answers, n + i)
        ensures queue[i].limited
      {
        assert i > 0 ==> !AnswerAt(answers, n + 1 + (i - 1)) && queue[i] == queue[1..][i - 1];
      }
    }
  }

  lemma {:induction false} AsideIfWaits(queue: seq<Deferred>, answers: seq<bool>, n: nat)
    ensures Divide(queue, answers, n).aside != [] <==> exists j: nat :: Waits(queue, answers, n, j)
  {
    if queue == [] {
    } else if AnswerAt(answers, n) {
      AsideIfWaits(queue[1..], answers, n + 1);
      if j: nat :| Waits(queue, answers, n, j) {
        assert j > 0;
        WaitsLater(queue, answers, n, j - 1);
      }
      var tail, m := queue[1..], n + 1;
      if j: nat :| Waits(tail, answers, m, j) {
        WaitsLater(queue, answers, n, j);
      }
    } else {
      assert Waits(queue, answers, n, 0);
    }
  }

  lemma {:induction false} AsideTwice(queue: seq<Deferred>, answers: seq<bool>, n: nat)
    ensures |Divide(queue, answers, n).aside| > 1 <==> TwoWait(queue, answers, n)
  {
    if queue == [] {
    } else if AnswerAt(answers, n) {
      AsideTwice(queue[1..], answers, n + 1);
      if i: nat, j: nat :| i < j && Waits(queue, answers, n, i) && Waits(queue, answers, n, j) {
        WaitsLater(queue, answers, n, i - 1);
        WaitsLater(queue, answers, n, j - 1);
        assert Waits(queue[1..], answers, n + 1, i - 1) && Waits(queue[1..], answers, n + 1, j - 1);
      }
      var tail, m := queue[1..], n + 1;
      if i: nat, j: nat :| i < j && Waits(tail, answers, m, i) && Waits(tail, answers, m, j) {
        WaitsLater(queue, answers, n, i);
        WaitsLater(queue, answers, n, j);
      }
    } else {
      assert Waits(queue, answers, n, 0);
      if queue[0].limited {
        AsideIfWaits(queue[1..], answers, n + 1);
        if i: nat, j: nat :| i < j && Waits(queue, answers, n, i) && Waits(queue, answers, n, j) {
          WaitsLater(queue, answers, n, j - 1);
        }
        var tail, m := queue[1..], n + 1;
        if j: nat :| Waits(tail, answers, m, j) {
          WaitsLater(queue, answers, n, j);
        }
      } else {
        OnlyFirst(queue, answers, n);
      }
    }
  }

  lemma OnlyFirst(queue: seq<Deferred>, answers: seq<bool>, n: nat)
    requires queue != [] && !AnswerAt(answers, n) && !queue[0].limited
    ensures !TwoWait(queue, answers, n)
  {
    forall j: nat | j > 0
      ensures !Waits(queue, answers, n, j)
    {
      assert !AnswerAt(answers, n + 0);
    }
  }

  /** The writes left keep their order exactly when no two writes of the pass have to wait. */
  lemma OrderKept(queue: seq<Deferred>, answers: seq<bool>)
    requires Distinct(queue)
    ensures var p := Divide(queue, answers, 0); Reversed(p.aside) + p.rest == p.aside + p.rest <==> !TwoWait(queue, answers, 0)
  {
    hide TwoWait;
    var p := Divide(queue, answers, 0);
    AsideTwice(queue, answers, 0);
    if |p.aside| > 1 {
      AsideDistinct(queue, answers, 0);
      assert (Reversed(p.aside) + p.rest)[0] == p.aside[|p.aside| - 1] && (p.aside + p.rest)[0] == p.aside[0];
    } else {
      assert Reversed(p.aside) == p.aside;
    }
  }

  lemma {:induction false} AsideDistinct(queue: seq<Deferred>, answers: seq<bool>, n: nat)
    requires Distinct(queue)
    ensures var p := Divide(queue, answers, n);
            && (forall w :: w in p.aside ==> w in queue)
            && Distinct(p.aside)
  {
    if queue == [] {
    } else {
      AsideDistinct(queue[1..], answers, n + 1);
      assert queue == [queue[0]] + queue[1..] && queue[0] !in queue[1..];
    }
  }

  /** Two writes to files with limits of their own that both have to wait change places. */
  lemma TwoChangePlaces(a: Deferred, b: Deferred)
    requires a.limited && b.limited && a != b
    ensures TwoWait([a, b], [], 0)
    ensures var p := Divide([a, b], [], 0); Reversed(p.aside) + p.rest == [b, a]
  {
    assert Waits([a, b], [], 0, 0) && Waits([a, b], [], 0, 1);
    assert [a, b][1..] == [b] && [b][1..] == [];
    assert Divide([b], [], 1).aside == [b];
  }
}
