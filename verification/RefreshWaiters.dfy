/** The callers that wait for a refresh. Requests are numbered; a round answers everybody up to a number. */
module RefreshWaiters {

  /** How a request was answered: by the round that began after so many requests, or by disposal. */
  datatype Answer<T> = Delivered(round: nat, value: T) | Refused(round: nat) | Abandoned

  datatype Settlement<T> = Settlement(waiter: nat, answer: Answer<T>)

  function Remaining(waiters: seq<nat>, generation: nat): (r: seq<nat>)
    ensures forall w :: w in r <==> w in waiters && w > generation
    ensures waiters == [] ==> r == []
  {
    if waiters == [] then []
    else (if waiters[0] <= generation then [] else [waiters[0]]) + Remaining(waiters[1..], generation)
  }

  function Answers<T(!new)>(waiters: seq<nat>, generation: nat, answer: Answer<T>): (r: seq<Settlement<T>>)
    ensures forall x :: x in r <==> x.waiter in waiters && x.waiter <= generation && x.answer == answer
  {
    if waiters == [] then []
    else (if waiters[0] <= generation then [Settlement(waiters[0], answer)] else [])
         + Answers(waiters[1..], generation, answer)
  }

  /** The waiters left, and all answers given so far. */
  datatype Desk<T(!new)> = Desk(waiters: seq<nat>, settled: seq<Settlement<T>>) {
    function Ask(request: nat): Desk<T> {
      Desk(waiters + [request], settled)
    }

    function Settle(generation: nat, answer: Answer<T>): Desk<T> {
      Desk(Remaining(waiters, generation), settled + Answers(waiters, generation, answer))
    }

    function Abandon(): Desk<T> {
      Desk([], settled + seq(|waiters|, k requires 0 <= k < |waiters| => Settlement(waiters[k], Abandoned)))
    }
  }

  ghost predicate Ascending(waiters: seq<nat>) {
    forall j, k :: 0 <= j < k < |waiters| ==> waiters[j] < waiters[k]
  }

  ghost predicate OncePerWaiter<T(!new)>(settled: seq<Settlement<T>>) {
    forall j, k :: 0 <= j < k < |settled| ==> settled[j].waiter != settled[k].waiter
  }

  /**
   Waiters are requests made so far, each once; nobody was answered twice, while waiting, or by a round that had begun
   before the request.
   */
  ghost predicate InTime<T(!new)>(desk: Desk<T>, requested: nat) {
    && Ascending(desk.waiters) && OncePerWaiter(desk.settled)
    && (forall w :: w in desk.waiters ==> 0 < w <= requested)
    && (forall x :: x in desk.settled ==>
          && 0 < x.waiter <= requested && x.waiter !in desk.waiters
          && (!x.answer.Abandoned? ==> x.waiter <= x.answer.round <= requested))
  }

  lemma AscendingHead(waiters: seq<nat>, w: nat)
    requires Ascending(waiters) && waiters != [] && w in waiters[1..]
    ensures waiters[0] < w
  {
    var j :| 0 <= j < |waiters[1..]| && waiters[1..][j] == w;
    assert waiters[0] < waiters[j + 1];
  }

  lemma {:induction false} RemainingAscends(waiters: seq<nat>, generation: nat)
    requires Ascending(waiters)
    ensures Ascending(Remaining(waiters, generation))
  {
    if waiters != [] {
      assert Ascending(waiters[1..]);
      RemainingAscends(waiters[1..], generation);
      var rest := Remaining(waiters[1..], generation);
      if waiters[0] > generation {
        var r := [waiters[0]] + rest;
        forall j, k | 0 <= j < k < |r| ensures r[j] < r[k] {
          assert r[k] == rest[k - 1] && rest[k - 1] in rest;
          if j == 0 { AscendingHead(waiters, r[k]); }
        }
      } else {
        assert Remaining(waiters, generation) == rest;
      }
    }
  }

  lemma {:induction false} AnswersDiffer<T(!new)>(waiters: seq<nat>, generation: nat, answer: Answer<T>)
    requires Ascending(waiters)
    ensures OncePerWaiter(Answers(waiters, generation, answer))
  {
    if waiters != [] {
      assert Ascending(waiters[1..]);
      AnswersDiffer(waiters[1..], generation, answer);
      var rest := Answers(waiters[1..], generation, answer);
      if waiters[0] <= generation {
        var r := [Settlement(waiters[0], answer)] + rest;
        forall j, k | 0 <= j < k < |r| ensures r[j].waiter != r[k].waiter {
          assert r[k] == rest[k - 1] && rest[k - 1] in rest;
          if j == 0 { AscendingHead(waiters, r[k].waiter); }
        }
      } else {
        assert Answers(waiters, generation, answer) == rest;
      }
    }
  }

  lemma AppendsAnswers<T(!new)>(settled: seq<Settlement<T>>, answers: seq<Settlement<T>>)
    requires OncePerWaiter(settled) && OncePerWaiter(answers)
    requires forall x, y :: x in settled && y in answers ==> x.waiter != y.waiter
    ensures OncePerWaiter(settled + answers)
  {
    var all := settled + answers;
    forall j, k | 0 <= j < k < |all| ensures all[j].waiter != all[k].waiter {
      if j < |settled| <= k {
        assert all[j] in settled && all[k] in answers;
      }
    }
  }

  lemma AskKeeps<T(!new)>(desk: Desk<T>, requested: nat)
    requires InTime(desk, requested)
    ensures InTime(desk.Ask(requested + 1), requested + 1)
  {
    var waiters := desk.waiters + [requested + 1];
    forall j, k | 0 <= j < k < |waiters| ensures waiters[j] < waiters[k] {
      if k == |desk.waiters| { assert desk.waiters[j] in desk.waiters; }
    }
  }

  /** A round that began after `generation` requests answers the waiters among them. */
  lemma SettleKeeps<T(!new)>(desk: Desk<T>, requested: nat, generation: nat, answer: Answer<T>)
    requires InTime(desk, requested) && generation <= requested
    requires !answer.Abandoned? && answer.round == generation
    ensures InTime(desk.Settle(generation, answer), requested)
  {
    RemainingAscends(desk.waiters, generation);
    AnswersDiffer(desk.waiters, generation, answer);
    AppendsAnswers(desk.settled, Answers(desk.waiters, generation, answer));
  }

  lemma AbandonKeeps<T(!new)>(desk: Desk<T>, requested: nat)
    requires InTime(desk, requested)
    ensures InTime(desk.Abandon(), requested)
  {
    var answers: seq<Settlement<T>> :=
      seq(|desk.waiters|, k requires 0 <= k < |desk.waiters| => Settlement(desk.waiters[k], Abandoned));
    forall x | x in answers ensures x.waiter in desk.waiters && x.answer.Abandoned? {
      var k :| 0 <= k < |answers| && answers[k] == x;
    }
    AppendsAnswers(desk.settled, answers);
  }

  lemma Moves<S>(a: seq<S>, x: S, b: seq<S>)
    ensures (a + [x]) + b == a + ([x] + b)
    ensures a + ([] + b) == a + b
  {
  }

  /** `splice` of a waiter list: the waiters up to a generation are answered in order, the others stay. */
  method SettleWaiters<T(!new)>(desk: Desk<T>, generation: nat, answer: Answer<T>) returns (after: Desk<T>)
    ensures after == desk.Settle(generation, answer)
  {
    var remaining: seq<nat> := [];
    var settled := desk.settled;
    var k := 0;
    while k < |desk.waiters|
      invariant k <= |desk.waiters|
      invariant remaining + Remaining(desk.waiters[k..], generation) == Remaining(desk.waiters, generation)
      invariant settled + Answers(desk.waiters[k..], generation, answer)
             == desk.settled + Answers(desk.waiters, generation, answer)
    {
      var waiter := desk.waiters[k];
      ghost var rest := desk.waiters[k + 1..];
      assert desk.waiters[k..] == [waiter] + rest;
      Moves(remaining, waiter, Remaining(rest, generation));
      Moves(settled, Settlement(waiter, answer), Answers(rest, generation, answer));
      if waiter <= generation {
        settled := settled + [Settlement(waiter, answer)];
      } else {
        remaining := remaining + [waiter];
      }
      k := k + 1;
    }
    assert desk.waiters[k..] == [];
    after := Desk(remaining, settled);
  }

  /** Disposal answers everybody who still waits. */
  method AbandonWaiters<T(!new)>(desk: Desk<T>) returns (after: Desk<T>)
    ensures after == desk.Abandon()
  {
    var settled := desk.settled;
    for k := 0 to |desk.waiters|
      invariant settled == desk.settled
                + seq(k, m requires 0 <= m < |desk.waiters| => Settlement(desk.waiters[m], Abandoned))
    {
      settled := settled + [Settlement(desk.waiters[k], Abandoned)];
    }
    after := Desk([], settled);
  }

  /** Who waits up to a generation got the answer, everybody else still waits. */
  ghost predicate AnsweredWith<T(!new)>(before: Desk<T>, after: Desk<T>, generation: nat, answer: Answer<T>) {
    && (forall w :: w in after.waiters <==> w in before.waiters && w > generation)
    && (forall x :: x in after.settled <==>
          x in before.settled || (x.waiter in before.waiters && x.waiter <= generation && x.answer == answer))
  }
}
