/** The example's test, stated over the model: the default pool is fed the
    768 tiles of a 1024 by 768 image, drained, fed the same tiles again and
    drained again, in whatever order the workers return the envelopes. */
module ExampleScenario {
  import opened Wrappers
  import opened Message
  import opened Feeder
  import opened FeederDrain
  import opened Channel
  import opened MessageExample

  /** Draining an idle feeder fed the test's tiles returns one result per
      tile, and each result passes the test's assertion. */
  lemma TileDrain(f: FeederRecycler<Coordinates, ThreadMessage>, sched: nat -> nat)
    requires Valid(f) && Idle(f)
    ensures var results := Drain(ThreadOps(), AppendInput(f, TestCoordinates()).0, sched, 0).1;
      && |results| == 768
      && forall i :: 0 <= i < |results| ==> Highest(results[i].data) % 32 == 31
  {
    ThreadOpsLawful();
    var used, prior := FeedAndDrain(ThreadOps(), f, TestCoordinates(), sched);
    var results := Drain(ThreadOps(), AppendInput(f, TestCoordinates()).0, sched, 0).1;
    forall i | 0 <= i < |results|
      ensures Highest(results[i].data) % 32 == 31
    {
      assert used[i] in multiset(TestCoordinates());
      TileNumbersEveryCell(used[i], prior[i]);
    }
  }

  /** The assertions of the example's test: both rounds return 768 results
      whose highest entry is 31 modulo 32, the pool is empty after each
      round, and the second round runs on the same eight workers. */
  lemma ExampleTest(sched1: nat -> nat, sched2: nat -> nat)
    ensures var ds0 := DefaultService<Coordinates, ThreadMessage>();
      var (ds1, rest1) := FeedFeeder(ds0, TestCoordinates());
      var (ds2, results1) := DrainService(ThreadOps(), ds1, sched1, 0);
      var (ds3, rest2) := FeedFeeder(ds2, TestCoordinates());
      var (ds4, results2) := DrainService(ThreadOps(), ds3, sched2, 0);
      && rest1 == [] && rest2 == []
      && |results1| == 768 && |results2| == 768
      && (forall i :: 0 <= i < 768 ==> Highest(results1[i].data) % 32 == 31)
      && (forall i :: 0 <= i < 768 ==> Highest(results2[i].data) % 32 == 31)
      && Len(ds2) == 0 && Len(ds4) == 0
      && |ds2.threads| == 8 && ds4.threads == ds2.threads
  {
    var ops := ThreadOps();
    var ds0 := DefaultService<Coordinates, ThreadMessage>();
    var ds1 := FeedFeeder(ds0, TestCoordinates()).0;
    DrainServiceIsFeederDrain(ops, ds1, sched1, 0);
    TileDrain(ds0.feeder, sched1);
    var ds2 := DrainService(ops, ds1, sched1, 0).0;
    var ds3 := FeedFeeder(ds2, TestCoordinates()).0;
    DrainServiceIsFeederDrain(ops, ds3, sched2, 0);
    TileDrain(ds2.feeder, sched2);
  }

  /** The first `next` on a service fed more inputs than its budget puts
      the whole budget in flight. */
  lemma FirstNextFillsBudget<T, R, S>(ops: MessageOps<T, R, S>, ds: DeliveryService<R, S>, choice: nat)
    requires ServiceValid(ds) && ds.feeder.messages == 0 && ds.feeder.packageNumber < |ds.feeder.inputVec|
    ensures |Channel.Next(ops, ds, choice).0.feeder.inFlight| == ds.feeder.packageNumber
  {
    BootstrapStep(ops, ds.feeder, choice);
  }

  /** set_package_number as written accepts a budget the channels cannot
      hold: with the default eight workers and channels of eight, 25 is
      accepted, and the first `next` on the test's tiles puts 25 envelopes
      in flight, one more than the two channels and the eight workers hold,
      before it collects any.  The bounded setter rejects that value. */
  lemma OversizedBudgetOverfills(choice: nat)
    ensures SetPackageNumber(DefaultConfig(), 25).Success?
    ensures var c := SetPackageNumber(DefaultConfig(), 25).value;
      var ds := FeedFeeder(NewService<Coordinates, ThreadMessage>(c), TestCoordinates()).0;
      && ChannelCapacity(c.channelSize, c.workerNumber) == 24
      && !FitsChannels(c) && !ServiceFits(ds)
      && |Channel.Next(ThreadOps(), ds, choice).0.feeder.inFlight| == 25
    ensures SetPackageNumberBounded(DefaultConfig(), 25) == Failure(TooManyPackages)
  {
    var c := SetPackageNumber(DefaultConfig(), 25).value;
    var ds := FeedFeeder(NewService<Coordinates, ThreadMessage>(c), TestCoordinates()).0;
    FirstNextFillsBudget(ThreadOps(), ds, choice);
  }
}
