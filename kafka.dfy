/**
 * The configuration part of storage/kafka/kafka.go: the defaults, the four
 * functional options and the loop in `New` that applies them. The broker
 * I/O of the same file (topics, producer, consumer) is not modelled.
 */
module Kafka {
  import opened Wrappers

  /** Go `int32`. */
  newtype PartitionCount = x: int | -0x8000_0000 <= x < 0x8000_0000
  /** Go `int16`. */
  newtype ReplicaCount = x: int | -0x8000 <= x < 0x8000
  /** `time.Duration`, a Go `int64` count of nanoseconds. */
  newtype ConsumerWaitDuration = x: int | -0x8000_0000_0000_0000 <= x < 0x8000_0000_0000_0000
  /** Go `int`, 64 bits wide. */
  newtype MaxLogMessages = x: int | -0x8000_0000_0000_0000 <= x < 0x8000_0000_0000_0000

  /** The configuration fields of a `Kafka` object. */
  datatype Config = Config(
    brokers: seq<string>,
    pc: PartitionCount,
    rc: ReplicaCount,
    dur: ConsumerWaitDuration,
    maxMsgs: MaxLogMessages)

  /**
   * The errors the options return. The maximum-messages option returns the
   * same "number of replicas must be greater than 0" error as the replicas
   * option.
   */
  datatype OptionError = PartitionsNotGreaterThanZero | ReplicasNotGreaterThanZero

  /** The closures returned by the four `Set*` option constructors. */
  datatype KafkaOption =
    | NumberOfPartitions(pc: PartitionCount)
    | NumberOfReplicas(rc: ReplicaCount)
    | ConsumeReturnDuration(dur: ConsumerWaitDuration)
    | NumberMaximumLogMessages(mc: MaxLogMessages)

  /** `&Kafka{brokers: brk}` after `SetDefaults`. */
  function Defaults(brokers: seq<string>): Config {
    Config(brokers, 1, 1, 5000, 0)
  }

  /** What one option does to a configuration. */
  function Apply(c: Config, o: KafkaOption): Result<Config, OptionError> {
    match o
    case NumberOfPartitions(pc) =>
      if pc <= 1 then Failure(PartitionsNotGreaterThanZero) else Success(c.(pc := pc))
    case NumberOfReplicas(rc) =>
      if rc <= 1 then Failure(ReplicasNotGreaterThanZero) else Success(c.(rc := rc))
    case ConsumeReturnDuration(dur) =>
      Success(c.(dur := dur))
    case NumberMaximumLogMessages(mc) =>
      if mc <= 1 then Failure(ReplicasNotGreaterThanZero) else Success(c.(maxMsgs := mc))
  }

  /** The options applied in order, stopping at the first that fails. */
  function Configure(c: Config, opts: seq<KafkaOption>): Result<Config, OptionError>
    decreases |opts|
  {
    if opts == [] then Success(c)
    else
      match Configure(c, opts[..|opts| - 1])
      case Failure(e) => Failure(e)
      case Success(c') => Apply(c', opts[|opts| - 1])
  }

  /**
   * Each option rejects its argument and changes nothing, or changes only
   * its own field. Even the default partition and replica count 1 is
   * rejected.
   */
  lemma ApplyChangesOneField(c: Config, o: KafkaOption)
    ensures Apply(c, o).Failure? <==>
      || (o.NumberOfPartitions? && o.pc <= 1)
      || (o.NumberOfReplicas? && o.rc <= 1)
      || (o.NumberMaximumLogMessages? && o.mc <= 1)
    ensures Apply(c, o).Success? ==> Apply(c, o).value.brokers == c.brokers
    ensures o.NumberOfPartitions? && Apply(c, o).Success? ==> Apply(c, o).value == c.(pc := o.pc)
    ensures o.NumberOfReplicas? && Apply(c, o).Success? ==> Apply(c, o).value == c.(rc := o.rc)
    ensures o.ConsumeReturnDuration? ==> Apply(c, o) == Success(c.(dur := o.dur))
    ensures o.NumberMaximumLogMessages? && Apply(c, o).Success? ==> Apply(c, o).value == c.(maxMsgs := o.mc)
    ensures Apply(Defaults(c.brokers), NumberOfPartitions(Defaults(c.brokers).pc)).Failure?
    ensures Apply(Defaults(c.brokers), NumberOfReplicas(Defaults(c.brokers).rc)).Failure?
  {
  }

  /** No option touches the broker list. */
  lemma {:induction false} ConfigureKeepsBrokers(c: Config, opts: seq<KafkaOption>)
    ensures Configure(c, opts).Success? ==> Configure(c, opts).value.brokers == c.brokers
    decreases |opts|
  {
    if opts != [] {
      ConfigureKeepsBrokers(c, opts[..|opts| - 1]);
      var front := Configure(c, opts[..|opts| - 1]);
      if front.Success? {
        ApplyChangesOneField(front.value, opts[|opts| - 1]);
      }
    }
  }

  /**
   * An option that fails on the configuration built by the options before
   * it ends the configuration with its error: the options after it are
   * never applied. (ConfigureFailureHasCause is the converse.)
   */
  lemma {:induction false} ConfigureStopsAtFirstFailure(c: Config, opts: seq<KafkaOption>, i: nat)
    requires i < |opts|
    requires Configure(c, opts[..i]).Success?
    requires Apply(Configure(c, opts[..i]).value, opts[i]).Failure?
    ensures Configure(c, opts) == Failure(Apply(Configure(c, opts[..i]).value, opts[i]).error)
    decreases |opts|
  {
    var front := opts[..|opts| - 1];
    if i == |opts| - 1 {
      assert front == opts[..i];
    } else {
      assert front[..i] == opts[..i];
      ConfigureStopsAtFirstFailure(c, front, i);
    }
  }

  /** A failing configuration has a first failing option. */
  lemma {:induction false} ConfigureFailureHasCause(c: Config, opts: seq<KafkaOption>) returns (i: nat)
    requires Configure(c, opts).Failure?
    ensures i < |opts|
    ensures Configure(c, opts[..i]).Success?
    ensures Apply(Configure(c, opts[..i]).value, opts[i]) == Failure(Configure(c, opts).error)
    decreases |opts|
  {
    var front := opts[..|opts| - 1];
    if Configure(c, front).Failure? {
      i := ConfigureFailureHasCause(c, front);
      assert opts[..i] == front[..i];
    } else {
      i := |opts| - 1;
    }
  }

  /** storage/kafka/kafka.go's `Kafka`, its configuration fields only. */
  class Kafka {
    var brokers: seq<string>
    var pc: PartitionCount
    var rc: ReplicaCount
    var dur: ConsumerWaitDuration
    var maxMsgs: MaxLogMessages

    function Configuration(): Config
      reads this
    {
      Config(brokers, pc, rc, dur, maxMsgs)
    }

    /** `&Kafka{brokers: brk}`: every other field is Go's zero value. */
    constructor (brk: seq<string>)
      ensures Configuration() == Config(brk, 0, 0, 0, 0)
    {
      brokers, pc, rc, dur, maxMsgs := brk, 0, 0, 0, 0;
    }

    /** Partitions 1, replicas 1, wait 5000; brokers and maxMsgs untouched. */
    method SetDefaults()
      modifies this
      ensures Configuration() == old(Configuration()).(pc := 1, rc := 1, dur := 5000)
    {
      pc := 1;
      rc := 1;
      dur := 5000;
    }

    /** The closure of `SetNumberOfPartitions(pc)` applied to this object. */
    method SetNumberOfPartitions(pc: PartitionCount) returns (err: Option<OptionError>)
      modifies this
      ensures pc <= 1 ==> err == Some(PartitionsNotGreaterThanZero) && Configuration() == old(Configuration())
      ensures pc > 1 ==> err == None && Configuration() == old(Configuration()).(pc := pc)
    {
      if pc <= 1 {
        return Some(PartitionsNotGreaterThanZero);
      }
      this.pc := pc;
      err := None;
    }

    /** The closure of `SetNumberOfReplicas(rc)` applied to this object. */
    method SetNumberOfReplicas(rc: ReplicaCount) returns (err: Option<OptionError>)
      modifies this
      ensures rc <= 1 ==> err == Some(ReplicasNotGreaterThanZero) && Configuration() == old(Configuration())
      ensures rc > 1 ==> err == None && Configuration() == old(Configuration()).(rc := rc)
    {
      if rc <= 1 {
        return Some(ReplicasNotGreaterThanZero);
      }
      this.rc := rc;
      err := None;
    }

    /** The closure of `SetConsumeReturnDuration(dur)`: always succeeds. */
    method SetConsumeReturnDuration(dur: ConsumerWaitDuration) returns (err: Option<OptionError>)
      modifies this
      ensures err == None && Configuration() == old(Configuration()).(dur := dur)
    {
      this.dur := dur;
      err := None;
    }

    /** The closure of `SetNumberMaximumLogMessages(mc)` applied to this object. */
    method SetNumberMaximumLogMessages(mc: MaxLogMessages) returns (err: Option<OptionError>)
      modifies this
      ensures mc <= 1 ==> err == Some(ReplicasNotGreaterThanZero) && Configuration() == old(Configuration())
      ensures mc > 1 ==> err == None && Configuration() == old(Configuration()).(maxMsgs := mc)
    {
      if mc <= 1 {
        return Some(ReplicasNotGreaterThanZero);
      }
      maxMsgs := mc;
      err := None;
    }

    /** `setter(k)`: runs the closure an option stands for. */
    method ApplyOption(o: KafkaOption) returns (err: Option<OptionError>)
      modifies this
      ensures Apply(old(Configuration()), o).Failure? ==> err == Some(Apply(old(Configuration()), o).error) && Configuration() == old(Configuration())
      ensures Apply(old(Configuration()), o).Success? ==> err == None && Configuration() == Apply(old(Configuration()), o).value
    {
      match o
      case NumberOfPartitions(n) => err := SetNumberOfPartitions(n);
      case NumberOfReplicas(n) => err := SetNumberOfReplicas(n);
      case ConsumeReturnDuration(d) => err := SetConsumeReturnDuration(d);
      case NumberMaximumLogMessages(n) => err := SetNumberMaximumLogMessages(n);
    }

    /**
     * `New` without its broker connections: the defaults first, then the
     * options in order; the first failing option ends it with that error
     * and no object.
     */
    static method New(brk: seq<string>, options: seq<KafkaOption>) returns (k: Kafka?, err: Option<OptionError>)
      ensures Configure(Defaults(brk), options).Failure? ==> k == null && err == Some(Configure(Defaults(brk), options).error)
      ensures Configure(Defaults(brk), options).Success? ==>
        err == None && k != null && fresh(k) && k.Configuration() == Configure(Defaults(brk), options).value
    {
      var kafka := new Kafka(brk);
      kafka.SetDefaults();
      var i := 0;
      while i < |options|
        invariant 0 <= i <= |options|
        invariant Configure(Defaults(brk), options[..i]) == Success(kafka.Configuration())
        invariant fresh(kafka)
      {
        var e := kafka.ApplyOption(options[i]);
        assert options[..i + 1][..i] == options[..i];
        if e.Some? {
          assert options[..i + 1] == options[..i] + [options[i]];
          ConfigureStopsAtFirstFailure(Defaults(brk), options, i);
          return null, Some(e.value);
        }
        i := i + 1;
      }
      assert options[..i] == options;
      k, err := kafka, None;
    }
  }
}
