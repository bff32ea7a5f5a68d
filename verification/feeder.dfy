/** The feeder/recycler: the single-threaded coordinator that hands inputs to
    the workers inside envelopes and collects the envelopes back.

    The dispatch channel, the workers and the collection channel are folded
    into one sequence `inFlight` of envelopes that were sent and not yet
    collected.  Collecting one is an atomic step: the scheduler (a `choice`)
    picks any in-flight envelope, a worker applies `work` to it, and the
    feeder receives the result.  The model allows any choice.  The
    program realises only some of them (both channels are FIFO and a
    worker holds one envelope at a time, so with one worker the results
    come back in send order), so what is proved for every choice covers
    it. */
module Feeder {
  import opened Wrappers
  import opened Message

  datatype FeederRecycler<R, S> = FeederRecycler(
    id: nat,
    /** envelopes sent and not yet retrieved */
    messages: nat,
    /** the most envelopes the feeder keeps in the system */
    packageNumber: nat,
    /** the backlog; inputs are popped from its end */
    inputVec: seq<R>,
    /** the envelopes in the channels or held by a worker */
    inFlight: seq<S>
  )

  /** The counter tracks the envelopes that are really in flight. */
  ghost predicate Valid<R, S>(f: FeederRecycler<R, S>)
  {
    f.messages == |f.inFlight|
  }

  /** The budget: no more than `packageNumber` envelopes in flight. */
  ghost predicate WithinBudget<R, S>(f: FeederRecycler<R, S>)
  {
    f.messages <= f.packageNumber
  }

  /** A feeder with nothing pending anywhere. */
  ghost predicate Idle<R, S>(f: FeederRecycler<R, S>)
  {
    f.messages == 0 && f.inputVec == [] && f.inFlight == []
  }

  function Min(a: nat, b: nat): nat
  {
    if a <= b then a else b
  }

  /** How many results are still to come out of the iterator. */
  function GetRemainingMessages<R, S>(f: FeederRecycler<R, S>): (n: nat)
    ensures Valid(f) ==> n == |f.inFlight| + |f.inputVec|
    ensures n == 0 <==> f.messages == 0 && f.inputVec == []
  {
    f.messages + |f.inputVec|
  }

  /** FeederRecycler::new */
  function NewFeeder<R, S>(id: nat, packageNumber: nat): (f: FeederRecycler<R, S>)
    ensures Valid(f) && Idle(f)
    ensures GetRemainingMessages(f) == 0
    ensures f.id == id && f.packageNumber == packageNumber
  {
    FeederRecycler(id, 0, packageNumber, [], [])
  }

  /** FeederRecycler::append_input: the caller's vector is moved to the end
      of the backlog and handed back empty. */
  function AppendInput<R, S>(f: FeederRecycler<R, S>, input: seq<R>): (out: (FeederRecycler<R, S>, seq<R>))
    ensures out.0.inputVec == f.inputVec + input
    ensures out.1 == []
    ensures out.0.messages == f.messages && out.0.inFlight == f.inFlight
    ensures out.0.id == f.id && out.0.packageNumber == f.packageNumber
    ensures GetRemainingMessages(out.0) == GetRemainingMessages(f) + |input|
  {
    (f.(inputVec := f.inputVec + input), [])
  }

  /** FeederRecycler::send_message: the envelope enters the system and the
      counter goes up by one. */
  function SendMessage<R, S>(f: FeederRecycler<R, S>, s: S): (g: FeederRecycler<R, S>)
    ensures Valid(f) ==> Valid(g)
    ensures g.messages == f.messages + 1
    ensures g.inFlight == f.inFlight + [s]
    ensures g.inputVec == f.inputVec && g.id == f.id && g.packageNumber == f.packageNumber
    ensures GetRemainingMessages(g) == GetRemainingMessages(f) + 1
  {
    f.(messages := f.messages + 1, inFlight := f.inFlight + [s])
  }

  /** The in-flight envelope the scheduler hands back for a given choice. */
  function Picked<R, S>(f: FeederRecycler<R, S>, choice: nat): S
    requires |f.inFlight| > 0
  {
    f.inFlight[choice % |f.inFlight|]
  }

  /** The sequence `q` without its element at index `i`. */
  function RemoveAt<S>(q: seq<S>, i: nat): (r: seq<S>)
    requires i < |q|
    ensures |r| == |q| - 1
    ensures multiset(r) + multiset{q[i]} == multiset(q)
  {
    assert q == q[..i] + [q[i]] + q[i + 1..];
    q[..i] + q[i + 1..]
  }

  /** FeederRecycler::get_message: one envelope comes back from a worker,
      which has applied `work` to it, and the counter goes down by one.  The
      counter is a usize, so the source needs it to be positive here. */
  function GetMessage<T, R, S>(ops: MessageOps<T, R, S>, f: FeederRecycler<R, S>, choice: nat): (out: (FeederRecycler<R, S>, S))
    requires Valid(f) && f.messages > 0
    ensures Valid(out.0)
    ensures out.0.messages == f.messages - 1
    ensures out.1 == ops.work(Picked(f, choice))
    ensures multiset(out.0.inFlight) + multiset{Picked(f, choice)} == multiset(f.inFlight)
    ensures out.0.inputVec == f.inputVec && out.0.id == f.id && out.0.packageNumber == f.packageNumber
    ensures GetRemainingMessages(out.0) == GetRemainingMessages(f) - 1
  {
    var i := choice % |f.inFlight|;
    (f.(messages := f.messages - 1, inFlight := RemoveAt(f.inFlight, i)), ops.work(f.inFlight[i]))
  }

  /** The envelopes the top-up loop sends for the last `k` inputs of `v`:
      fresh envelopes, in the order the inputs are popped (last first). */
  function PoppedEnvelopes<T, R, S>(ops: MessageOps<T, R, S>, v: seq<R>, k: nat): (q: seq<S>)
    requires k <= |v|
    ensures |q| == k
  {
    seq(k, j requires 0 <= j < k => Wrap(ops, v[|v| - 1 - j]))
  }

  /** The loop of feed_initial_messages with `steps` iterations left: each
      iteration pops the last input, wraps it in a fresh envelope and sends
      it, and the loop stops early once the backlog is empty. */
  function FeedLoop<T, R, S>(ops: MessageOps<T, R, S>, f: FeederRecycler<R, S>, steps: nat): (g: FeederRecycler<R, S>)
    requires Valid(f)
    ensures Valid(g)
    ensures g.id == f.id && g.packageNumber == f.packageNumber
    ensures g.messages == f.messages + Min(steps, |f.inputVec|)
    ensures g.inputVec == f.inputVec[..|f.inputVec| - Min(steps, |f.inputVec|)]
    ensures g.inFlight == f.inFlight + PoppedEnvelopes(ops, f.inputVec, Min(steps, |f.inputVec|))
    ensures GetRemainingMessages(g) == GetRemainingMessages(f)
    decreases steps
  {
    if steps == 0 || |f.inputVec| == 0 then f
    else
      var input := f.inputVec[|f.inputVec| - 1];
      var popped := f.(inputVec := f.inputVec[..|f.inputVec| - 1]);
      var k := Min(steps, |f.inputVec|);
      assert PoppedEnvelopes(ops, f.inputVec, k)
          == [Wrap(ops, input)] + PoppedEnvelopes(ops, popped.inputVec, k - 1);
      FeedLoop(ops, SendMessage(popped, Wrap(ops, input)), steps - 1)
  }

  /** Iterations of `for _ in messages..package_number`: the range is fixed
      when the loop starts and is empty once the budget is reached. */
  function TopUpSteps<R, S>(f: FeederRecycler<R, S>): nat
  {
    if f.messages < f.packageNumber then f.packageNumber - f.messages else 0
  }

  /** FeederRecycler::feed_initial_messages */
  function FeedInitialMessages<T, R, S>(ops: MessageOps<T, R, S>, f: FeederRecycler<R, S>): (g: FeederRecycler<R, S>)
    requires Valid(f)
    ensures Valid(g)
    ensures g.id == f.id && g.packageNumber == f.packageNumber
    ensures GetRemainingMessages(g) == GetRemainingMessages(f)
    ensures f.messages <= f.packageNumber ==>
              g.messages == Min(f.packageNumber, f.messages + |f.inputVec|)
    ensures f.packageNumber <= f.messages ==> g == f
    ensures f.messages <= g.messages && |g.inputVec| <= |f.inputVec|
  {
    FeedLoop(ops, f, TopUpSteps(f))
  }

  /** The outcome of one call of retrieve_data, before the data is cloned:
      either the end of the iteration, or the next state together with the
      envelope that came back and the number of envelopes built with
      `S::new()` during the call. */
  datatype Step<R, S> = Finished | Delivered(next: FeederRecycler<R, S>, envelope: S, built: nat)

  /** The four cases of FeederRecycler::retrieve_data. */
  function RetrieveStep<T, R, S>(ops: MessageOps<T, R, S>, f: FeederRecycler<R, S>, choice: nat): (out: Step<R, S>)
    requires Valid(f)
    ensures out.Finished? <==> GetRemainingMessages(f) == 0
    ensures out.Delivered? ==>
              && Valid(out.next)
              && GetRemainingMessages(out.next) == GetRemainingMessages(f) - 1
              && out.next.id == f.id && out.next.packageNumber == f.packageNumber
    ensures out.Delivered? && WithinBudget(f) && f.packageNumber >= 1 ==> WithinBudget(out.next)
  {
    if |f.inputVec| == 0 then
      if f.messages == 0 then
        // nothing left to send and nothing left to collect
        Finished
      else
        // drain: the collected envelope is dropped
        var (g, e) := GetMessage(ops, f, choice);
        Delivered(g, e, 0)
    else
      var input := f.inputVec[|f.inputVec| - 1];
      var popped := f.(inputVec := f.inputVec[..|f.inputVec| - 1]);
      if popped.messages == 0 then
        // bootstrap: send the input in a fresh envelope, top up, collect
        // one envelope and drop it, then top up again
        var f1 := SendMessage(popped, Wrap(ops, input));
        var f2 := FeedInitialMessages(ops, f1);
        var (f3, e) := GetMessage(ops, f2, choice);
        var f4 := FeedInitialMessages(ops, f3);
        Delivered(f4, e, 1 + (f2.messages - f1.messages) + (f4.messages - f3.messages))
      else
        // steady state: top up if under budget, then recycle the collected
        // envelope for the popped input
        var f1 := if popped.messages < popped.packageNumber then FeedInitialMessages(ops, popped) else popped;
        var (f2, e) := GetMessage(ops, f1, choice);
        Delivered(SendMessage(f2, ops.setInput(e, input)), e, f1.messages - popped.messages)
  }

  /** FeederRecycler::retrieve_data: the next result, a copy of the data of
      the envelope that came back, or None once nothing remains. */
  function RetrieveData<T, R, S>(ops: MessageOps<T, R, S>, f: FeederRecycler<R, S>, choice: nat): (out: (FeederRecycler<R, S>, Option<T>))
    requires Valid(f)
    ensures Valid(out.0)
    ensures out.1.None? <==> GetRemainingMessages(f) == 0
    ensures out.1.None? ==> out.0 == f
    ensures out.1.Some? ==> GetRemainingMessages(out.0) == GetRemainingMessages(f) - 1
    ensures out.0.id == f.id && out.0.packageNumber == f.packageNumber
    ensures WithinBudget(f) && f.packageNumber >= 1 ==> WithinBudget(out.0)
  {
    match RetrieveStep(ops, f, choice)
    case Finished => (f, None)
    case Delivered(g, e, _) => (g, Some(ops.cloneMessageData(e)))
  }

  /** Iterator::next of the feeder: the result of `retrieve_data`, which
      is None exactly once nothing remains. */
  function Next<T, R, S>(ops: MessageOps<T, R, S>, f: FeederRecycler<R, S>, choice: nat): (out: (FeederRecycler<R, S>, Option<T>))
    requires Valid(f)
    ensures out == RetrieveData(ops, f, choice)
    ensures out.1.None? <==> GetRemainingMessages(f) == 0
    ensures out.1.Some? ==> GetRemainingMessages(out.0) == GetRemainingMessages(f) - 1
  {
    RetrieveData(ops, f, choice)
  }
}
