/** Properties of the feeder across calls: what happens to the inputs
    (none is lost or duplicated), how many results an iteration yields, the
    state it leaves behind, and how few envelopes it ever builds. */
module FeederDrain {
  import opened Wrappers
  import opened Message
  import opened Feeder

  /** The inputs held by a sequence of envelopes. */
  function Inputs<T, R, S>(ops: MessageOps<T, R, S>, q: seq<S>): (rs: seq<R>)
    ensures |rs| == |q|
  {
    seq(|q|, i requires 0 <= i < |q| => ops.storedInput(q[i]))
  }

  /** Every input the feeder still owes a result for: those carried by the
      in-flight envelopes and those in the backlog. */
  ghost function Pending<T, R, S>(ops: MessageOps<T, R, S>, f: FeederRecycler<R, S>): multiset<R>
  {
    multiset(Inputs(ops, f.inFlight)) + multiset(f.inputVec)
  }

  lemma InputsAppend<T, R, S>(ops: MessageOps<T, R, S>, a: seq<S>, b: seq<S>)
    ensures multiset(Inputs(ops, a + b)) == multiset(Inputs(ops, a)) + multiset(Inputs(ops, b))
  {
    assert Inputs(ops, a + b) == Inputs(ops, a) + Inputs(ops, b);
  }

  lemma InputsRemoveAt<T, R, S>(ops: MessageOps<T, R, S>, q: seq<S>, i: nat)
    requires i < |q|
    ensures multiset(Inputs(ops, RemoveAt(q, i))) + multiset{ops.storedInput(q[i])} == multiset(Inputs(ops, q))
  {
    assert q == q[..i] + [q[i]] + q[i + 1..];
    assert RemoveAt(q, i) == q[..i] + q[i + 1..];
    InputsAppend(ops, q[..i] + [q[i]], q[i + 1..]);
    InputsAppend(ops, q[..i], [q[i]]);
    InputsAppend(ops, q[..i], q[i + 1..]);
  }

  /** The envelopes the top-up loop builds carry exactly the inputs it
      popped. */
  lemma {:induction false} InputsPopped<T, R(!new), S(!new)>(ops: MessageOps<T, R, S>, v: seq<R>, k: nat)
    requires SetInputStores(ops)
    requires k <= |v|
    ensures multiset(Inputs(ops, PoppedEnvelopes(ops, v, k))) == multiset(v[|v| - k..])
    decreases k
  {
    if k > 0 {
      var w := v[..|v| - 1];
      var last := v[|v| - 1];
      assert PoppedEnvelopes(ops, v, k) == [Wrap(ops, last)] + PoppedEnvelopes(ops, w, k - 1);
      InputsAppend(ops, [Wrap(ops, last)], PoppedEnvelopes(ops, w, k - 1));
      assert Inputs(ops, [Wrap(ops, last)]) == [last];
      InputsPopped(ops, w, k - 1);
      assert v[|v| - k..] == w[|w| - (k - 1)..] + [last];
    }
  }

  /** Topping up moves inputs from the backlog into envelopes and owes
      exactly what it owed before. */
  lemma FeedKeepsPending<T, R(!new), S(!new)>(ops: MessageOps<T, R, S>, f: FeederRecycler<R, S>)
    requires Lawful(ops) && Valid(f)
    ensures Pending(ops, FeedInitialMessages(ops, f)) == Pending(ops, f)
  {
    var g := FeedInitialMessages(ops, f);
    var v := f.inputVec;
    var k := Min(TopUpSteps(f), |v|);
    var popped := PoppedEnvelopes(ops, v, k);
    assert g == FeedLoop(ops, f, TopUpSteps(f));
    assert g.inFlight == f.inFlight + popped && g.inputVec == v[..|v| - k];
    InputsAppend(ops, f.inFlight, popped);
    InputsPopped(ops, v, k);
    assert v == v[..|v| - k] + v[|v| - k..];
    assert multiset(v) == multiset(v[..|v| - k]) + multiset(v[|v| - k..]);
  }

  lemma SendAddsPending<T, R, S>(ops: MessageOps<T, R, S>, f: FeederRecycler<R, S>, s: S)
    ensures Pending(ops, SendMessage(f, s)) == Pending(ops, f) + multiset{ops.storedInput(s)}
  {
    InputsAppend(ops, f.inFlight, [s]);
  }

  lemma GetRemovesPending<T, R(!new), S(!new)>(ops: MessageOps<T, R, S>, f: FeederRecycler<R, S>, choice: nat)
    requires Lawful(ops) && Valid(f) && f.messages > 0
    ensures var (g, e) := GetMessage(ops, f, choice);
      var input := ops.storedInput(Picked(f, choice));
      && Pending(ops, g) + multiset{input} == Pending(ops, f)
      && ops.cloneMessageData(e) == ops.produce(input, ops.cloneMessageData(Picked(f, choice)))
  {
    InputsRemoveAt(ops, f.inFlight, choice % |f.inFlight|);
  }

  lemma PopRemovesPending<T, R, S>(ops: MessageOps<T, R, S>, f: FeederRecycler<R, S>)
    requires |f.inputVec| > 0
    ensures Pending(ops, f.(inputVec := f.inputVec[..|f.inputVec| - 1]))
            + multiset{f.inputVec[|f.inputVec| - 1]} == Pending(ops, f)
  {
    assert f.inputVec == f.inputVec[..|f.inputVec| - 1] + [f.inputVec[|f.inputVec| - 1]];
  }

  lemma BootstrapAccounts<T, R(!new), S(!new)>(ops: MessageOps<T, R, S>, f: FeederRecycler<R, S>, choice: nat)
    returns (input: R, prior: T)
    requires Lawful(ops) && Valid(f) && |f.inputVec| > 0 && f.messages == 0
    ensures var out := RetrieveStep(ops, f, choice);
      && out.Delivered?
      && Pending(ops, out.next) + multiset{input} == Pending(ops, f)
      && ops.cloneMessageData(out.envelope) == ops.produce(input, prior)
  {
    var last := f.inputVec[|f.inputVec| - 1];
    var popped := f.(inputVec := f.inputVec[..|f.inputVec| - 1]);
    PopRemovesPending(ops, f);
    var f1 := SendMessage(popped, Wrap(ops, last));
    SendAddsPending(ops, popped, Wrap(ops, last));
    var f2 := FeedInitialMessages(ops, f1);
    FeedKeepsPending(ops, f1);
    GetRemovesPending(ops, f2, choice);
    input, prior := ops.storedInput(Picked(f2, choice)), ops.cloneMessageData(Picked(f2, choice));
    var f3 := GetMessage(ops, f2, choice).0;
    FeedKeepsPending(ops, f3);
  }

  lemma RecycleAccounts<T, R(!new), S(!new)>(ops: MessageOps<T, R, S>, f: FeederRecycler<R, S>, choice: nat)
    returns (input: R, prior: T)
    requires Lawful(ops) && Valid(f) && |f.inputVec| > 0 && f.messages > 0
    ensures var out := RetrieveStep(ops, f, choice);
      && out.Delivered?
      && Pending(ops, out.next) + multiset{input} == Pending(ops, f)
      && ops.cloneMessageData(out.envelope) == ops.produce(input, prior)
  {
    var last := f.inputVec[|f.inputVec| - 1];
    var popped := f.(inputVec := f.inputVec[..|f.inputVec| - 1]);
    PopRemovesPending(ops, f);
    var f1 := if popped.messages < popped.packageNumber then FeedInitialMessages(ops, popped) else popped;
    if popped.messages < popped.packageNumber {
      FeedKeepsPending(ops, popped);
    }
    GetRemovesPending(ops, f1, choice);
    input, prior := ops.storedInput(Picked(f1, choice)), ops.cloneMessageData(Picked(f1, choice));
    var (f2, e) := GetMessage(ops, f1, choice);
    SendAddsPending(ops, f2, ops.setInput(e, last));
  }

  /** One step of retrieve_data delivers the result for exactly one of the
      inputs still owed: the input the returned envelope held when it was
      collected, whose data the pass computed from that input (and from
      whatever data the envelope held before, returned as `prior`). */
  lemma StepAccounts<T, R(!new), S(!new)>(ops: MessageOps<T, R, S>, f: FeederRecycler<R, S>, choice: nat)
    returns (input: R, prior: T)
    requires Lawful(ops) && Valid(f)
    ensures var out := RetrieveStep(ops, f, choice);
      out.Delivered? ==>
        && Pending(ops, out.next) + multiset{input} == Pending(ops, f)
        && ops.cloneMessageData(out.envelope) == ops.produce(input, prior)
  {
    input, prior := ops.newInput(), ops.newData();
    if |f.inputVec| == 0 {
      if f.messages > 0 {
        GetRemovesPending(ops, f, choice);
        input, prior := ops.storedInput(Picked(f, choice)), ops.cloneMessageData(Picked(f, choice));
      }
    } else if f.messages == 0 {
      input, prior := BootstrapAccounts(ops, f, choice);
    } else {
      input, prior := RecycleAccounts(ops, f, choice);
    }
  }

  /** Calling `next` until it returns None, with the scheduler choosing
      which in-flight envelope comes back at step `k`: the final state and
      the results in the order they were returned. */
  function Drain<T, R, S>(ops: MessageOps<T, R, S>, f: FeederRecycler<R, S>, sched: nat -> nat, k: nat)
    : (out: (FeederRecycler<R, S>, seq<T>))
    requires Valid(f)
    ensures |out.1| == GetRemainingMessages(f)
    ensures out.0 == NewFeeder(f.id, f.packageNumber)
    decreases GetRemainingMessages(f)
  {
    var (g, r) := Next(ops, f, sched(k));
    match r
    case None => (g, [])
    case Some(t) =>
      var (h, ts) := Drain(ops, g, sched, k + 1);
      (h, [t] + ts)
  }

  /** One unfolding of a drain, in terms of the step it starts with. */
  lemma DrainUnfold<T, R, S>(ops: MessageOps<T, R, S>, f: FeederRecycler<R, S>, sched: nat -> nat, k: nat)
    requires Valid(f)
    ensures var step := RetrieveStep(ops, f, sched(k));
      Drain(ops, f, sched, k).1
        == if step.Finished? then []
           else [ops.cloneMessageData(step.envelope)] + Drain(ops, step.next, sched, k + 1).1
  {
  }

  /** Conservation of results: the results of a drain are, one for one, the
      data computed from the inputs the feeder owed when it started. */
  lemma {:induction false} DrainAccounts<T, R(!new), S(!new)>(
    ops: MessageOps<T, R, S>, f: FeederRecycler<R, S>, sched: nat -> nat, k: nat)
    returns (used: seq<R>, prior: seq<T>)
    requires Lawful(ops) && Valid(f)
    ensures var results := Drain(ops, f, sched, k).1;
      && |used| == |results| && |prior| == |results|
      && multiset(used) == Pending(ops, f)
      && forall i :: 0 <= i < |results| ==> results[i] == ops.produce(used[i], prior[i])
    decreases GetRemainingMessages(f)
  {
    var step := RetrieveStep(ops, f, sched(k));
    DrainUnfold(ops, f, sched, k);
    if step.Finished? {
      used, prior := [], [];
      assert f.inFlight == [] && f.inputVec == [];
    } else {
      var u, p := StepAccounts(ops, f, sched(k));
      var restUsed, restPrior := DrainAccounts(ops, step.next, sched, k + 1);
      used, prior := PrependAccounts(
        ops, Pending(ops, f), Pending(ops, step.next), u,
        ops.cloneMessageData(step.envelope), p, Drain(ops, step.next, sched, k + 1).1, restUsed, restPrior);
    }
  }

  /** One delivered result in front of the accounts of the rest of a
      drain: its input joins the inputs used, its prior data the priors. */
  lemma PrependAccounts<T, R, S>(
    ops: MessageOps<T, R, S>, before: multiset<R>, after: multiset<R>,
    u: R, t: T, p: T, rest: seq<T>, us: seq<R>, ps: seq<T>)
    returns (used: seq<R>, prior: seq<T>)
    requires after + multiset{u} == before && t == ops.produce(u, p)
    requires |us| == |rest| && |ps| == |rest| && multiset(us) == after
    requires forall i :: 0 <= i < |rest| ==> rest[i] == ops.produce(us[i], ps[i])
    ensures |used| == |rest| + 1 && |prior| == |rest| + 1 && multiset(used) == before
    ensures forall i :: 0 <= i < |rest| + 1 ==> ([t] + rest)[i] == ops.produce(used[i], prior[i])
  {
    used, prior := [u] + us, [p] + ps;
    assert multiset(used) == multiset{u} + multiset(us);
    forall i | 0 <= i < |rest| + 1
      ensures ([t] + rest)[i] == ops.produce(used[i], prior[i])
    {
      if i > 0 {
        assert ([t] + rest)[i] == rest[i - 1];
        assert used[i] == us[i - 1];
        assert prior[i] == ps[i - 1];
      }
    }
  }

  /** Feeding N inputs to an idle feeder and calling `next` until None
      yields exactly N results, one per input, and leaves the feeder as it
      was built, so a second batch is processed the same way. */
  lemma FeedAndDrain<T, R(!new), S(!new)>(
    ops: MessageOps<T, R, S>, f: FeederRecycler<R, S>, input: seq<R>, sched: nat -> nat)
    returns (used: seq<R>, prior: seq<T>)
    requires Lawful(ops) && Valid(f) && Idle(f)
    ensures var (g, rest) := AppendInput(f, input);
      var (h, results) := Drain(ops, g, sched, 0);
      && rest == []
      && |results| == |input|
      && h == NewFeeder(f.id, f.packageNumber)
      && multiset(used) == multiset(input) && |prior| == |results| && |used| == |results|
      && forall i :: 0 <= i < |results| ==> results[i] == ops.produce(used[i], prior[i])
  {
    var g := AppendInput(f, input).0;
    assert g.inFlight == [] && g.inputVec == input;
    assert Pending(ops, g) == multiset(input) by {
      assert Inputs(ops, g.inFlight) == [];
    }
    used, prior := DrainAccounts(ops, g, sched, 0);
  }

  /** The envelopes built with `S::new()` during a drain. */
  function DrainBuilt<T, R, S>(ops: MessageOps<T, R, S>, f: FeederRecycler<R, S>, sched: nat -> nat, k: nat): nat
    requires Valid(f)
    decreases GetRemainingMessages(f)
  {
    match RetrieveStep(ops, f, sched(k))
    case Finished => 0
    case Delivered(g, _, built) => built + DrainBuilt(ops, g, sched, k + 1)
  }

  /** An envelope built by the top-up: `S::new()` with an input set. */
  ghost predicate Built<T, R(!new), S>(ops: MessageOps<T, R, S>, e: S)
  {
    exists r :: e == Wrap(ops, r)
  }

  ghost predicate AllBuilt<T, R(!new), S>(ops: MessageOps<T, R, S>, q: seq<S>)
  {
    forall i :: 0 <= i < |q| ==> Built(ops, q[i])
  }

  lemma FeedBuilds<T, R(!new), S>(ops: MessageOps<T, R, S>, f: FeederRecycler<R, S>)
    requires Valid(f) && AllBuilt(ops, f.inFlight)
    ensures AllBuilt(ops, FeedInitialMessages(ops, f).inFlight)
  {
    var g := FeedInitialMessages(ops, f);
    var k := Min(TopUpSteps(f), |f.inputVec|);
    assert g == FeedLoop(ops, f, TopUpSteps(f));
    var q := PoppedEnvelopes(ops, f.inputVec, k);
    forall i | 0 <= i < |g.inFlight|
      ensures Built(ops, g.inFlight[i])
    {
      if i >= |f.inFlight| {
        var j := i - |f.inFlight|;
        assert g.inFlight[i] == Wrap(ops, f.inputVec[|f.inputVec| - 1 - j]);
      } else {
        assert g.inFlight[i] == f.inFlight[i];
      }
    }
  }

  lemma GetKeepsBuilt<T, R(!new), S>(ops: MessageOps<T, R, S>, f: FeederRecycler<R, S>, choice: nat)
    requires Valid(f) && f.messages > 0 && AllBuilt(ops, f.inFlight)
    ensures AllBuilt(ops, GetMessage(ops, f, choice).0.inFlight)
  {
    var g := GetMessage(ops, f, choice).0;
    forall i | 0 <= i < |g.inFlight|
      ensures Built(ops, g.inFlight[i])
    {
      assert g.inFlight[i] in multiset(g.inFlight);
      assert g.inFlight[i] in multiset(f.inFlight);
      var j :| 0 <= j < |f.inFlight| && f.inFlight[j] == g.inFlight[i];
    }
  }

  /** In the bootstrap case the collected envelope is dropped, not
      recycled: every envelope left in flight is one the call built. */
  lemma BootstrapDrops<T, R(!new), S>(ops: MessageOps<T, R, S>, f: FeederRecycler<R, S>, choice: nat)
    requires Valid(f) && f.messages == 0 && |f.inputVec| > 0
    ensures var out := RetrieveStep(ops, f, choice);
      out.Delivered? && AllBuilt(ops, out.next.inFlight)
  {
    var input := f.inputVec[|f.inputVec| - 1];
    var popped := f.(inputVec := f.inputVec[..|f.inputVec| - 1]);
    var f1 := SendMessage(popped, Wrap(ops, input));
    assert f1.inFlight == [Wrap(ops, input)];
    assert Built(ops, f1.inFlight[0]);
    FeedBuilds(ops, f1);
    var f2 := FeedInitialMessages(ops, f1);
    GetKeepsBuilt(ops, f2, choice);
    FeedBuilds(ops, GetMessage(ops, f2, choice).0);
  }

  /** Bootstrap case (empty system, backlog not empty): the first input
      goes out in a fresh envelope, the system is topped up, the collected
      envelope is dropped and one more fresh envelope replaces it.  The
      call builds min(n, budget + 1) envelopes and leaves the system full
      whenever inputs remain. */
  lemma BootstrapStep<T, R, S>(ops: MessageOps<T, R, S>, f: FeederRecycler<R, S>, choice: nat)
    requires Valid(f) && f.messages == 0 && |f.inputVec| > 0 && f.packageNumber >= 1
    ensures var out := RetrieveStep(ops, f, choice);
      && out.Delivered?
      && out.built == Min(|f.inputVec|, f.packageNumber + 1)
      && out.next.messages == Min(f.packageNumber, |f.inputVec| - 1)
      && (|out.next.inputVec| > 0 ==> out.next.messages == out.next.packageNumber)
  {
  }

  /** Steady-state case (backlog not empty, envelopes in flight): the
      collected envelope is recycled with `set_input` for the popped input
      and sent again; no envelope is built for it, and only the top-up
      below the budget builds any. */
  lemma RecycleStep<T, R, S>(ops: MessageOps<T, R, S>, f: FeederRecycler<R, S>, choice: nat)
    requires Valid(f) && f.messages > 0 && |f.inputVec| > 0
    ensures var out := RetrieveStep(ops, f, choice);
      && out.Delivered?
      && |out.next.inFlight| > 0
      && out.next.inFlight[|out.next.inFlight| - 1] == ops.setInput(out.envelope, f.inputVec[|f.inputVec| - 1])
      && out.built == (if f.messages < f.packageNumber
                       then Min(f.packageNumber - f.messages, |f.inputVec| - 1) else 0)
  {
  }

  /** Drain case (backlog empty, envelopes in flight): the collected
      envelope is dropped, nothing is sent and nothing is built. */
  lemma DrainStep<T, R, S>(ops: MessageOps<T, R, S>, f: FeederRecycler<R, S>, choice: nat)
    requires Valid(f) && f.messages > 0 && |f.inputVec| == 0
    ensures var out := RetrieveStep(ops, f, choice);
      && out.Delivered?
      && out.built == 0
      && out.envelope == ops.work(Picked(f, choice))
      && multiset(out.next.inFlight) + multiset{Picked(f, choice)} == multiset(f.inFlight)
  {
  }

  /** Once the system is full whenever inputs remain, the rest of the drain
      only recycles: it never builds another envelope. */
  lemma {:induction false} SteadyDrainBuildsNothing<T, R, S>(
    ops: MessageOps<T, R, S>, f: FeederRecycler<R, S>, sched: nat -> nat, k: nat)
    requires Valid(f) && f.packageNumber >= 1
    requires |f.inputVec| > 0 ==> f.messages == f.packageNumber
    ensures DrainBuilt(ops, f, sched, k) == 0
    decreases GetRemainingMessages(f)
  {
    var out := RetrieveStep(ops, f, sched(k));
    if out.Delivered? {
      if |f.inputVec| > 0 {
        RecycleStep(ops, f, sched(k));
      } else {
        DrainStep(ops, f, sched(k));
      }
      SteadyDrainBuildsNothing(ops, out.next, sched, k + 1);
    }
  }

  /** Recycling efficiency: draining a batch of N inputs from an empty
      system builds min(N, budget + 1) envelopes, however large N is. */
  lemma DrainBuildCount<T, R, S>(
    ops: MessageOps<T, R, S>, f: FeederRecycler<R, S>, sched: nat -> nat)
    requires Valid(f) && f.messages == 0 && f.packageNumber >= 1
    ensures DrainBuilt(ops, f, sched, 0) == Min(|f.inputVec|, f.packageNumber + 1)
  {
    if |f.inputVec| > 0 {
      BootstrapStep(ops, f, sched(0));
      SteadyDrainBuildsNothing(ops, RetrieveStep(ops, f, sched(0)).next, sched, 1);
    }
  }
}
