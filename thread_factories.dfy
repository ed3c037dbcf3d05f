/**
 * `ConfigurableThreadFactory` and `PrefixedThreadFactory`: thread factories that
 * name each thread they create, numbering the threads with an `AtomicInteger`
 * that starts at 1.
 */
module ThreadFactories {
  import opened JavaLang
  import opened JavaText
  import opened SqsTypes

  /** The properties a factory sets on the `Thread` it creates. */
  datatype Thread = Thread(runnable: RunnableRef, name: string, daemon: bool)

  /** `%s` applied to a String that may be null. */
  function FormatString(s: Option<string>): string {
    match s
    case Some(v) => v
    case None => "null"
  }

  /** The name `"%s-thread-%d"` gives the (k+1)-th numbered thread of a `ConfigurableThreadFactory`. */
  function ConfigurableName(prefix: Option<string>, k: nat): string {
    NumberedName(FormatString(prefix) + "-thread-", k)
  }

  /** The name `"%s-%d"` gives the (k+1)-th thread of a `PrefixedThreadFactory`. */
  function PrefixedName(prefix: Option<string>, k: nat): string {
    NumberedName(FormatString(prefix) + "-", k)
  }

  /** Threads numbered by one `ConfigurableThreadFactory` have distinct names, within 2^32 calls. */
  lemma {:induction false} ConfigurableNamesDistinct(prefix: Option<string>, j: nat, k: nat)
    requires j < k < j + TWO_32
    ensures ConfigurableName(prefix, j) != ConfigurableName(prefix, k)
  {
    NumberedNamesDistinct(FormatString(prefix) + "-thread-", j, k);
  }

  /** Threads of one `PrefixedThreadFactory` have distinct names, within 2^32 calls. */
  lemma {:induction false} PrefixedNamesDistinct(prefix: Option<string>, j: nat, k: nat)
    requires j < k < j + TWO_32
    ensures PrefixedName(prefix, j) != PrefixedName(prefix, k)
  {
    NumberedNamesDistinct(FormatString(prefix) + "-", j, k);
  }

  /**
   * A configurable factory: a prefix factory (`newFactory`, `newDaemon`) numbers
   * its threads, a name factory (`newWithName`, `newDaemonWithName`) gives every
   * thread the same name.
   */
  class ConfigurableThreadFactory {
    var threadNumber: int
    const namePrefix: Option<string>
    const name: Option<string>
    const daemon: bool
    /** How many numbered names the factory has handed out. */
    ghost var issued: nat

    ghost predicate Valid()
      reads this
    {
      threadNumber == CounterValue(issued)
    }

    /** `newDaemon(prefix)`. */
    constructor NewDaemon(prefix: Option<string>)
      ensures namePrefix == prefix && name == None && daemon
      ensures issued == 0 && threadNumber == 1 && Valid()
    {
      namePrefix, name, daemon := prefix, None, true;
      threadNumber, issued := 1, 0;
    }

    /** `newFactory(prefix)`. */
    constructor NewFactory(prefix: Option<string>)
      ensures namePrefix == prefix && name == None && !daemon
      ensures issued == 0 && threadNumber == 1 && Valid()
    {
      namePrefix, name, daemon := prefix, None, false;
      threadNumber, issued := 1, 0;
    }

    /** `newWithName(name)`. */
    constructor NewWithName(fixedName: Option<string>)
      ensures namePrefix == None && name == fixedName && !daemon
      ensures issued == 0 && threadNumber == 1 && Valid()
    {
      namePrefix, name, daemon := None, fixedName, false;
      threadNumber, issued := 1, 0;
    }

    /** `newDaemonWithName(name)`. */
    constructor NewDaemonWithName(fixedName: Option<string>)
      ensures namePrefix == None && name == fixedName && daemon
      ensures issued == 0 && threadNumber == 1 && Valid()
    {
      namePrefix, name, daemon := None, fixedName, true;
      threadNumber, issued := 1, 0;
    }

    /**
     * `newThread`: a thread for `r` with the factory's daemon flag, named by the
     * fixed name if there is one, else by the prefix and the next number; only
     * the second form advances the counter.
     */
    method NewThread(r: RunnableRef) returns (t: Thread)
      requires Valid()
      modifies this
      ensures Valid()
      ensures t.runnable == r && t.daemon == daemon
      ensures name.Some? ==> t.name == name.value && issued == old(issued)
      ensures name.None? ==> t.name == ConfigurableName(namePrefix, old(issued)) && issued == old(issued) + 1
    {
      if name.Some? {
        t := Thread(r, name.value, daemon);
      } else {
        var n := threadNumber;
        ghost var k: nat := issued + 1;
        CounterStep(issued);
        threadNumber := Int32(n + 1);
        issued := k;
        assert Valid();
        t := Thread(r, FormatString(namePrefix) + "-thread-" + IntToString(n), daemon);
      }
    }
  }

  /** A factory that numbers every thread it creates, none of them daemon. */
  class PrefixedThreadFactory {
    var threadNumber: int
    const namePrefix: Option<string>
    ghost var issued: nat

    ghost predicate Valid()
      reads this
    {
      threadNumber == CounterValue(issued)
    }

    constructor (prefix: Option<string>)
      ensures namePrefix == prefix && issued == 0 && threadNumber == 1 && Valid()
    {
      namePrefix := prefix;
      threadNumber, issued := 1, 0;
    }

    /** `newThread`: a non-daemon thread named by the prefix and the next number. */
    method NewThread(r: RunnableRef) returns (t: Thread)
      requires Valid()
      modifies this
      ensures Valid()
      ensures t == Thread(r, PrefixedName(namePrefix, old(issued)), false)
      ensures issued == old(issued) + 1
    {
      t := Thread(r, FormatString(namePrefix) + "-" + IntToString(threadNumber), false);
      IncrementNumber();
    }

    /** `threadNumber.getAndIncrement()`, wrapping at the end of the `int` range. */
    method IncrementNumber()
      requires Valid()
      modifies this`threadNumber, this`issued
      ensures Valid() && issued == old(issued) + 1
    {
      CounterStep(issued);
      threadNumber, issued := Int32(threadNumber + 1), issued + 1;
    }
  }

  /** Two successive threads of a prefix factory get the names numbered 1 and 2. */
  method ConfigurableFactoryScenario(r: RunnableRef) returns (first: Thread, second: Thread)
    ensures first.name == "sqs-listener-thread-1" && second.name == "sqs-listener-thread-2"
    ensures !first.daemon && !second.daemon
  {
    var f := new ConfigurableThreadFactory.NewFactory(Some("sqs-listener"));
    first := f.NewThread(r);
    second := f.NewThread(r);
    assert IntToString(1) == "1" && IntToString(2) == "2";
  }

  /** A name factory gives every thread its name and never numbers them. */
  method NamedFactoryScenario(r: RunnableRef) returns (first: Thread, second: Thread)
    ensures first.name == "worker" && second.name == "worker"
    ensures first.daemon && second.daemon
  {
    var f := new ConfigurableThreadFactory.NewDaemonWithName(Some("worker"));
    first := f.NewThread(r);
    second := f.NewThread(r);
  }
}
