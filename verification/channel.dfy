/** The pool: its configuration and the DeliveryService that owns the
    feeder and the worker threads.  Spawning a thread is abstracted to
    recording the id the new worker gets; the threads' own loop is the
    atomic worker pass inside the feeder model. */
module Channel {
  import opened Wrappers
  import opened Message
  import opened Feeder
  import opened FeederDrain

  /** The default worker thread stack size, 2 MiB. */
  const DefaultStackSize: nat := 2 * 1024 * 1024

  /** The default number of worker threads. */
  const DefaultWorkerNumber: nat := 8

  /** The largest usize, on a 64-bit target. */
  const UsizeMax: nat := 0xFFFF_FFFF_FFFF_FFFF

  datatype ChannelConfig = ChannelConfig(
    stackSize: nat,
    workerNumber: nat,
    packageNumber: nat,
    channelSize: nat
  )

  /** The invalid settings the setters abort on: no worker, a package
      number not above the worker number, a worker number whose double
      overflows usize (a debug build panics there), and, for the bounded
      package setter only, more packages than the channels and the
      workers can hold at once. */
  datatype ConfigError = NoWorkers | TooFewPackages | WorkerNumberOverflow | TooManyPackages

  /** Every configuration the public API can build: at least one worker,
      and at least one envelope more than there are workers. */
  predicate ValidConfig(c: ChannelConfig)
  {
    1 <= c.workerNumber < c.packageNumber
  }

  /** ChannelConfig::default (and ChannelConfig::new) */
  function DefaultConfig(): (c: ChannelConfig)
    ensures ValidConfig(c)
    ensures c.channelSize == c.workerNumber && c.packageNumber == 2 * c.channelSize
    ensures FitsChannels(c)
  {
    var workerNumber := DefaultWorkerNumber;
    var channelSize := workerNumber;
    ChannelConfig(DefaultStackSize, workerNumber, channelSize * 2, channelSize)
  }

  /** ChannelConfig::set_worker_number: aborts on zero, and on a worker
      number whose double does not fit in a usize; otherwise the channel
      size follows the worker number and the package number is reset to
      twice it. */
  function SetWorkerNumber(c: ChannelConfig, workerNumber: nat): (r: Result<ChannelConfig, ConfigError>)
    ensures r.Failure? <==> workerNumber < 1 || UsizeMax < 2 * workerNumber
    ensures r.Failure? ==> r.error == (if workerNumber < 1 then NoWorkers else WorkerNumberOverflow)
    ensures r.Success? ==> ValidConfig(r.value) && FitsChannels(r.value)
    ensures r.Success? ==>
              && r.value.workerNumber == workerNumber && r.value.channelSize == workerNumber
              && r.value.packageNumber == 2 * workerNumber && r.value.stackSize == c.stackSize
  {
    if workerNumber < 1 then Failure(NoWorkers)
    else if UsizeMax < workerNumber * 2 then Failure(WorkerNumberOverflow)
    else Success(c.(workerNumber := workerNumber, channelSize := workerNumber, packageNumber := workerNumber * 2))
  }

  /** ChannelConfig::set_package_number: aborts unless every worker can
      hold an envelope with one to spare; changes nothing else. */
  function SetPackageNumber(c: ChannelConfig, packageNumber: nat): (r: Result<ChannelConfig, ConfigError>)
    ensures r.Failure? <==> packageNumber <= c.workerNumber
    ensures r.Failure? ==> r.error == TooFewPackages
    ensures r.Success? ==> r.value == c.(packageNumber := packageNumber)
    ensures r.Success? ==> ValidConfig(c) ==> ValidConfig(r.value)
  {
    if packageNumber <= c.workerNumber then Failure(TooFewPackages)
    else Success(c.(packageNumber := packageNumber))
  }

  /** ChannelConfig::set_stack_size: the value is stored unchecked. */
  function SetStackSize(c: ChannelConfig, stackSize: nat): (r: ChannelConfig)
    ensures r.stackSize == stackSize
    ensures r.workerNumber == c.workerNumber && r.packageNumber == c.packageNumber && r.channelSize == c.channelSize
    ensures ValidConfig(c) ==> ValidConfig(r)
  {
    c.(stackSize := stackSize)
  }

  /** How many envelopes can be in flight at once without the feeder's
      send blocking for good: a full dispatch channel, one envelope held by
      each worker, and a full collection channel.  The feeder does not
      collect while it tops up, so a top-up that must put more envelopes
      than this in flight never completes.  A budget within it rules that
      out; a larger budget only hangs when the backlog is long enough. */
  function ChannelCapacity(channelSize: nat, workerNumber: nat): (n: nat)
    ensures n >= channelSize && n >= workerNumber
  {
    2 * channelSize + workerNumber
  }

  /** The budget fits in the channels and the workers. */
  predicate FitsChannels(c: ChannelConfig)
  {
    c.packageNumber <= ChannelCapacity(c.channelSize, c.workerNumber)
  }

  /** set_package_number as it would have to be for every accepted value
      to be able to roam the system at once: the source's check, plus a
      rejection of a budget the channels cannot hold. */
  function SetPackageNumberBounded(c: ChannelConfig, packageNumber: nat): (r: Result<ChannelConfig, ConfigError>)
    ensures r.Failure? <==> packageNumber <= c.workerNumber || ChannelCapacity(c.channelSize, c.workerNumber) < packageNumber
    ensures r.Failure? ==> r.error == (if packageNumber <= c.workerNumber then TooFewPackages else TooManyPackages)
    ensures r.Success? ==> r.value == c.(packageNumber := packageNumber) && FitsChannels(r.value)
    ensures r.Success? ==> ValidConfig(c) ==> ValidConfig(r.value)
  {
    match SetPackageNumber(c, packageNumber)
    case Failure(e) => Failure(e)
    case Success(d) =>
      if ChannelCapacity(c.channelSize, c.workerNumber) < packageNumber then Failure(TooManyPackages) else Success(d)
  }

  /** The bounded setter differs from the source's only on the budgets the
      channels cannot hold: it agrees on every other value. */
  lemma BoundedAgreesBelowCapacity(c: ChannelConfig, packageNumber: nat)
    ensures packageNumber <= ChannelCapacity(c.channelSize, c.workerNumber)
        <==> SetPackageNumberBounded(c, packageNumber) == SetPackageNumber(c, packageNumber)
  {
  }

  function GetStackSize(c: ChannelConfig): (n: nat)
    ensures n == c.stackSize
  {
    c.stackSize
  }

  function GetWorkerNumber(c: ChannelConfig): (n: nat)
    ensures n == c.workerNumber
    ensures ValidConfig(c) ==> 1 <= n < GetPackageNumber(c)
  {
    c.workerNumber
  }

  function GetPackageNumber(c: ChannelConfig): (n: nat)
    ensures n == c.packageNumber
    ensures ValidConfig(c) ==> n >= 2
  {
    c.packageNumber
  }

  function GetChannelSize(c: ChannelConfig): (n: nat)
    ensures n == c.channelSize
  {
    c.channelSize
  }

  /** The default values, as the getters report them. */
  lemma DefaultValues()
    ensures GetWorkerNumber(DefaultConfig()) == 8
    ensures GetChannelSize(DefaultConfig()) == 8
    ensures GetPackageNumber(DefaultConfig()) == 16
    ensures GetStackSize(DefaultConfig()) == 2097152
  {
  }

  /** What each setter does, as the getters observe it: set_worker_number
      sets three values and keeps the stack size, set_package_number and
      set_stack_size each change only their own value. */
  lemma SettersThroughGetters(c: ChannelConfig, w: nat, p: nat, s: nat)
    ensures SetWorkerNumber(c, w).Success? ==>
      var d := SetWorkerNumber(c, w).value;
      && GetWorkerNumber(d) == w && GetChannelSize(d) == w && GetPackageNumber(d) == 2 * w
      && GetStackSize(d) == GetStackSize(c)
    ensures SetPackageNumber(c, p).Success? ==>
      var d := SetPackageNumber(c, p).value;
      && GetPackageNumber(d) == p && GetWorkerNumber(d) == GetWorkerNumber(c)
      && GetChannelSize(d) == GetChannelSize(c) && GetStackSize(d) == GetStackSize(c)
    ensures var d := SetStackSize(c, s);
      && GetStackSize(d) == s && GetWorkerNumber(d) == GetWorkerNumber(c)
      && GetChannelSize(d) == GetChannelSize(c) && GetPackageNumber(d) == GetPackageNumber(c)
  {
  }

  /** One setter call.  A package number goes through the bounded setter. */
  datatype Setting = WorkerNumber(w: nat) | PackageNumber(p: nat) | StackSize(s: nat)

  function ApplySetting(c: ChannelConfig, s: Setting): Result<ChannelConfig, ConfigError>
  {
    match s
    case WorkerNumber(w) => SetWorkerNumber(c, w)
    case PackageNumber(p) => SetPackageNumberBounded(c, p)
    case StackSize(z) => Success(SetStackSize(c, z))
  }

  /** Apply the settings in order; a failing setter aborts the whole
      sequence, as the source's panic does. */
  function ApplySettings(c: ChannelConfig, ss: seq<Setting>): Result<ChannelConfig, ConfigError>
    decreases |ss|
  {
    if |ss| == 0 then Success(c)
    else
      match ApplySetting(c, ss[0])
      case Failure(e) => Failure(e)
      case Success(d) => ApplySettings(d, ss[1..])
  }

  /** A configuration reached from a valid one that fits its channels,
      such as the default, through any sequence of successful setter calls
      is valid and fits its channels. */
  lemma {:induction false} SettingsKeepValid(c: ChannelConfig, ss: seq<Setting>)
    requires ValidConfig(c) && FitsChannels(c)
    ensures ApplySettings(c, ss).Success? ==> ValidConfig(ApplySettings(c, ss).value)
    ensures ApplySettings(c, ss).Success? ==> FitsChannels(ApplySettings(c, ss).value)
    decreases |ss|
  {
    if |ss| > 0 {
      var r := ApplySetting(c, ss[0]);
      if r.Success? {
        SettingsKeepValid(r.value, ss[1..]);
      }
    }
  }

  datatype DeliveryService<R, S> = DeliveryService(
    stackSize: nat,
    workerNumber: nat,
    /** the capacity of each of the two channels */
    channelSize: nat,
    /** the id given to the most recently spawned worker */
    lastId: nat,
    /** the ids of the spawned workers, in spawn order */
    threads: seq<nat>,
    feeder: FeederRecycler<R, S>
  )

  /** Worker ids are handed out in increasing order from 1 and never
      exceed the last id given. */
  ghost predicate IdsIssued(threads: seq<nat>, lastId: nat)
  {
    && (forall i :: 0 <= i < |threads| ==> 1 <= threads[i] <= lastId)
    && (forall i, j :: 0 <= i < j < |threads| ==> threads[i] < threads[j])
  }

  ghost predicate ServiceValid<R, S>(ds: DeliveryService<R, S>)
  {
    && 1 <= ds.workerNumber < ds.feeder.packageNumber
    && |ds.threads| <= ds.workerNumber
    && IdsIssued(ds.threads, ds.lastId)
    && Valid(ds.feeder)
    && WithinBudget(ds.feeder)
  }

  /** The service's budget fits in its channels and workers, so every
      envelope the feeder sends can be taken. */
  predicate ServiceFits<R, S>(ds: DeliveryService<R, S>)
  {
    ds.feeder.packageNumber <= ChannelCapacity(ds.channelSize, ds.workerNumber)
  }

  /** DeliveryService::new: no thread yet, and an idle feeder with the
      configured budget. */
  function NewService<R, S>(config: ChannelConfig): (ds: DeliveryService<R, S>)
    requires ValidConfig(config)
    ensures ServiceValid(ds)
    ensures ds.threads == [] && ds.lastId == 0
    ensures Idle(ds.feeder) && ds.feeder.packageNumber == GetPackageNumber(config)
    ensures ds.workerNumber == GetWorkerNumber(config) && ds.stackSize == GetStackSize(config)
    ensures ds.channelSize == GetChannelSize(config)
    ensures ServiceFits(ds) <==> FitsChannels(config)
  {
    DeliveryService(config.stackSize, config.workerNumber, config.channelSize, 0, [], NewFeeder(0, config.packageNumber))
  }

  /** DeliveryService::default */
  function DefaultService<R, S>(): (ds: DeliveryService<R, S>)
    ensures ServiceValid(ds) && ServiceFits(ds) && ds.workerNumber == 8 && ds.feeder.packageNumber == 16
  {
    NewService(DefaultConfig())
  }

  /** DeliveryService::feed_feeder */
  function FeedFeeder<R, S>(ds: DeliveryService<R, S>, input: seq<R>): (out: (DeliveryService<R, S>, seq<R>))
    ensures ServiceValid(ds) ==> ServiceValid(out.0)
    ensures out.0.feeder.inputVec == ds.feeder.inputVec + input && out.1 == []
    ensures out.0.threads == ds.threads && out.0.lastId == ds.lastId
    ensures Len(out.0) == Len(ds) + |input|
  {
    var (f, rest) := AppendInput(ds.feeder, input);
    (ds.(feeder := f), rest)
  }

  /** DeliveryService::len */
  function Len<R, S>(ds: DeliveryService<R, S>): (n: nat)
    ensures n == GetRemainingMessages(ds.feeder)
    ensures ServiceValid(ds) ==> n == |ds.feeder.inFlight| + |ds.feeder.inputVec|
  {
    GetRemainingMessages(ds.feeder)
  }

  /** The loop of build_workers with `n` iterations left: each bumps the
      last id and spawns a worker with it. */
  function Spawn<R, S>(ds: DeliveryService<R, S>, n: nat): (out: DeliveryService<R, S>)
    ensures out.lastId == ds.lastId + n
    ensures |out.threads| == |ds.threads| + n
    ensures out.threads[..|ds.threads|] == ds.threads
    ensures forall j :: |ds.threads| <= j < |out.threads| ==>
              out.threads[j] == ds.lastId + 1 + (j - |ds.threads|)
    ensures out.feeder == ds.feeder && out.workerNumber == ds.workerNumber && out.stackSize == ds.stackSize
    ensures out.channelSize == ds.channelSize
    decreases n
  {
    if n == 0 then ds
    else Spawn(ds.(lastId := ds.lastId + 1, threads := ds.threads + [ds.lastId + 1]), n - 1)
  }

  /** DeliveryService::build_workers: spawn workers until there are
      `worker_number` of them. */
  function BuildWorkers<R, S>(ds: DeliveryService<R, S>): (out: DeliveryService<R, S>)
    ensures |ds.threads| <= ds.workerNumber ==> |out.threads| == ds.workerNumber
    ensures ds.workerNumber < |ds.threads| ==> out == ds
    ensures out.lastId == ds.lastId + (|out.threads| - |ds.threads|)
    ensures out.threads[..|ds.threads|] == ds.threads
    ensures forall j :: |ds.threads| <= j < |out.threads| ==>
              out.threads[j] == ds.lastId + 1 + (j - |ds.threads|)
    ensures ServiceValid(ds) ==> ServiceValid(out)
    ensures out.feeder == ds.feeder && out.channelSize == ds.channelSize
  {
    Spawn(ds, if |ds.threads| < ds.workerNumber then ds.workerNumber - |ds.threads| else 0)
  }

  /** Iterator::next of `&mut DeliveryService`: make sure the workers exist,
      then take the feeder's next result. */
  function Next<T, R, S>(ops: MessageOps<T, R, S>, ds: DeliveryService<R, S>, choice: nat)
    : (out: (DeliveryService<R, S>, Option<T>))
    requires ServiceValid(ds)
    ensures ServiceValid(out.0)
    ensures |out.0.threads| == out.0.workerNumber
    ensures out.1.None? <==> Len(ds) == 0
    ensures out.1.Some? ==> Len(out.0) == Len(ds) - 1
    ensures (out.0.feeder, out.1) == RetrieveData(ops, ds.feeder, choice)
    ensures out.0.channelSize == ds.channelSize && out.0.workerNumber == ds.workerNumber
    ensures ServiceFits(ds) ==> ServiceFits(out.0)
    ensures ServiceFits(ds) ==> |out.0.feeder.inFlight| <= ChannelCapacity(ds.channelSize, ds.workerNumber)
  {
    var ready := BuildWorkers(ds);
    var (f, r) := Feeder.Next(ops, ready.feeder, choice);
    (ready.(feeder := f), r)
  }

  /** Worker ids are never reused: every id ever recorded is distinct. */
  lemma IdsDistinct<R, S>(ds: DeliveryService<R, S>)
    requires ServiceValid(ds)
    ensures forall i, j :: 0 <= i < |ds.threads| && 0 <= j < |ds.threads| && i != j ==>
              ds.threads[i] != ds.threads[j]
  {
  }

  /** Calling `next` repeatedly, with the scheduler's choice for step `k`. */
  function DrainService<T, R, S>(ops: MessageOps<T, R, S>, ds: DeliveryService<R, S>, sched: nat -> nat, k: nat)
    : (out: (DeliveryService<R, S>, seq<T>))
    requires ServiceValid(ds)
    ensures ServiceValid(out.0)
    ensures |out.1| == Len(ds) && Len(out.0) == 0
    ensures out.0.workerNumber == ds.workerNumber && |out.0.threads| == ds.workerNumber
    ensures ServiceFits(ds) ==> ServiceFits(out.0)
    ensures |ds.threads| == ds.workerNumber ==> out.0.threads == ds.threads && out.0.lastId == ds.lastId
    decreases Len(ds)
  {
    var (next, r) := Next(ops, ds, sched(k));
    match r
    case None => (next, [])
    case Some(t) =>
      var (last, ts) := DrainService(ops, next, sched, k + 1);
      (last, [t] + ts)
  }

  /** Draining the pool returns what draining its feeder returns: `next`
      only adds the worker bookkeeping. */
  lemma {:induction false} DrainServiceIsFeederDrain<T, R, S>(
    ops: MessageOps<T, R, S>, ds: DeliveryService<R, S>, sched: nat -> nat, k: nat)
    requires ServiceValid(ds)
    ensures DrainService(ops, ds, sched, k).1 == Drain(ops, ds.feeder, sched, k).1
    ensures DrainService(ops, ds, sched, k).0.feeder == Drain(ops, ds.feeder, sched, k).0
    decreases Len(ds)
  {
    var (next, r) := Next(ops, ds, sched(k));
    if r.Some? {
      DrainServiceIsFeederDrain(ops, next, sched, k + 1);
    }
  }
}
