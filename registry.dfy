/**
 * `DefaultSqsListenerRegistry`: the registry the `@SqsListener` post-processor
 * hands its listeners to. It names each listener `sqsListener<n>` from a
 * counter, registers it as a singleton bean, and drives every listener through
 * the `MessageListener` calls when the context starts and stops.
 */
module Registry {
  import opened JavaLang
  import opened JavaText
  import opened SqsTypes
  import opened SpringBeans
  import opened JavaUtil

  const LISTENER_ID_PREFIX: string := "sqsListener"
  const AWAIT_TERMINATION_SECONDS: int := 20

  /** The id of the (k+1)-th registration, `"sqsListener%s"` of the counter's value. */
  function ListenerId(k: nat): string {
    NumberedName(LISTENER_ID_PREFIX, k)
  }

  /** The `MessageListener` calls the registry makes. */
  datatype Call = Subscribe | Destroy | AwaitTermination(timeoutSeconds: int)

  /** What the registry asks of its listeners and of the bean factory, in order. */
  datatype Event<L> = Called(call: Call, id: string, listener: L) | SingletonRegistered(id: string, listener: L)

  /**
   * `calls` makes `call` on registered listeners, each under its id and at most
   * once, and the last of them threw: `forEach` stopped there.
   */
  ghost predicate CallsUntilThrow<L>(calls: seq<Event<L>>, call: Call, listeners: map<string, L>, throwing: set<string>) {
    && |calls| > 0
    && (forall i :: 0 <= i < |calls| ==>
          calls[i].Called? && calls[i].call == call && calls[i].id in listeners && calls[i].listener == listeners[calls[i].id])
    && (forall i, j :: 0 <= i < j < |calls| ==> calls[i].id != calls[j].id)
    && calls[|calls| - 1].id in throwing
    && (forall i :: 0 <= i < |calls| - 1 ==> calls[i].id !in throwing)
  }

  /** `calls` makes `call` on every registered listener once, under its id, in some order. */
  ghost predicate CallsEachOnce<L>(calls: seq<Event<L>>, call: Call, listeners: map<string, L>) {
    && |calls| == |listeners|
    && (forall i :: 0 <= i < |calls| ==>
          calls[i].Called? && calls[i].call == call && calls[i].id in listeners && calls[i].listener == listeners[calls[i].id])
    && (forall i, j :: 0 <= i < j < |calls| ==> calls[i].id != calls[j].id)
    && (forall id :: id in listeners ==> exists i :: 0 <= i < |calls| && calls[i].id == id)
  }

  /** `calls` makes `call` on the first `|calls|` listeners of the enumeration `order`, in that order. */
  ghost predicate CallsInOrder<L>(calls: seq<Event<L>>, call: Call, listeners: map<string, L>, order: seq<string>) {
    && |calls| <= |order|
    && (forall j :: 0 <= j < |calls| ==> order[j] in listeners && calls[j] == Called(call, order[j], listeners[order[j]]))
  }

  /** Following a whole enumeration calls every listener once. */
  lemma CallsInOrderEach<L>(calls: seq<Event<L>>, call: Call, listeners: map<string, L>, order: seq<string>)
    requires EnumerationOf(order, listeners.Keys) && CallsInOrder(calls, call, listeners, order) && |calls| == |order|
    ensures CallsEachOnce(calls, call, listeners)
  {
    forall id | id in listeners
      ensures exists i :: 0 <= i < |calls| && calls[i].id == id
    {
      var i :| 0 <= i < |order| && order[i] == id;
      assert calls[i].id == id;
    }
  }

  /** Following an enumeration up to the first throwing listener calls each listener at most once, and stops there. */
  lemma CallsInOrderUntil<L>(calls: seq<Event<L>>, call: Call, listeners: map<string, L>, order: seq<string>, throwing: set<string>)
    requires EnumerationOf(order, listeners.Keys) && CallsInOrder(calls, call, listeners, order) && |calls| > 0
    requires order[|calls| - 1] in throwing && forall j :: 0 <= j < |calls| - 1 ==> order[j] !in throwing
    ensures CallsUntilThrow(calls, call, listeners, throwing)
  {
  }

  /** An enumeration none of whose keys throws meets no throwing key. */
  lemma NoneThrowing(order: seq<string>, keys: set<string>, throwing: set<string>)
    requires EnumerationOf(order, keys) && forall j :: 0 <= j < |order| ==> order[j] !in throwing
    ensures keys * throwing == {}
  {
    forall id | id in keys
      ensures id !in throwing
    {
      var i :| 0 <= i < |order| && order[i] == id;
    }
  }

  /** `"sqsListener%s".formatted(n)`. */
  function FormatId(n: int): string {
    LISTENER_ID_PREFIX + IntToString(n)
  }

  /** Formatting the counter's (k+1)-th value gives the (k+1)-th id. */
  lemma FormatCounterValue(k: nat)
    ensures FormatId(CounterValue(k)) == ListenerId(k)
  {
  }

  /** The ids the first `issued` registrations were given. */
  function IssuedIds(issued: nat): set<string> {
    set k | 0 <= k < issued :: ListenerId(k)
  }

  /** Until the counter wraps around, the next id has not been given out, so `putIfAbsent` adds the listener. */
  lemma {:induction false} NextIdIsFresh(issued: nat)
    requires issued < TWO_32
    ensures ListenerId(issued) !in IssuedIds(issued)
  {
    if ListenerId(issued) in IssuedIds(issued) {
      var k :| 0 <= k < issued && ListenerId(k) == ListenerId(issued);
      NumberedNamesDistinct(LISTENER_ID_PREFIX, k, issued);
    }
  }

  /** No id the counter gives out later was given out before. */
  lemma {:induction false} LaterIdNotIssued(issued: nat, m: nat)
    requires issued <= m < TWO_32
    ensures ListenerId(m) !in IssuedIds(issued)
  {
    if ListenerId(m) in IssuedIds(issued) {
      var j :| 0 <= j < issued && ListenerId(j) == ListenerId(m);
      NumberedNamesDistinct(LISTENER_ID_PREFIX, j, m);
    }
  }

  /** Two registrations less than 2^32 apart get different ids. */
  lemma ListenerIdsDistinct(a: nat, b: nat)
    requires a < b < a + TWO_32
    ensures ListenerId(a) != ListenerId(b)
  {
    NumberedNamesDistinct(LISTENER_ID_PREFIX, a, b);
  }

  /** The ids given out only grow. */
  lemma IssuedIdsGrow<L>(listeners: map<string, L>, issued: nat)
    requires listeners.Keys <= IssuedIds(issued)
    ensures listeners.Keys <= IssuedIds(issued + 1)
  {
    assert IssuedIds(issued + 1) == IssuedIds(issued) + {ListenerId(issued)};
  }

  /** A registration keeps every registered id among the ids given out. */
  lemma IssuedIdsStep<L>(listeners: map<string, L>, issued: nat, listener: L)
    requires listeners.Keys <= IssuedIds(issued)
    ensures listeners[ListenerId(issued) := listener].Keys <= IssuedIds(issued + 1)
  {
    assert IssuedIds(issued + 1) == IssuedIds(issued) + {ListenerId(issued)};
  }

  /** What one registration needs of the counter: the id it formats, the counter's next value, and the id's freshness. */
  lemma NextRegistration<L>(listeners: map<string, L>, issued: nat, listener: L)
    requires listeners.Keys <= IssuedIds(issued)
    ensures issued < TWO_32 ==> ListenerId(issued) !in listeners
    ensures listeners[ListenerId(issued) := listener].Keys <= IssuedIds(issued + 1)
  {
    if issued < TWO_32 {
      NextIdIsFresh(issued);
    }
    IssuedIdsStep(listeners, issued, listener);
  }

  /** The ids of the registrations `k` to `k + n - 1`, in order. */
  function RunIds(k: nat, n: nat): (ids: seq<string>)
    ensures |ids| == n
  {
    if n == 0 then [] else RunIds(k, n - 1) + [ListenerId(k + n - 1)]
  }

  /** The i-th id of a run is the one the counter's (k+i+1)-th value names. */
  lemma {:induction false} RunIdsAt(k: nat, n: nat, i: nat)
    requires i < n
    ensures RunIds(k, n)[i] == ListenerId(k + i)
  {
    if i < n - 1 {
      RunIdsAt(k, n - 1, i);
    }
  }

  /** `putIfAbsent` of each listener of `ls` under the id at the same position of `ids`, in order. */
  function PutEach<L>(listeners: map<string, L>, ids: seq<string>, ls: seq<L>): (r: map<string, L>)
    requires |ids| == |ls|
    ensures listeners.Keys <= r.Keys && forall id :: id in listeners ==> r[id] == listeners[id]
    ensures forall i :: 0 <= i < |ids| ==> ids[i] in r
  {
    if |ls| == 0 then listeners
    else
      var n := |ls| - 1;
      PutIfAbsent(PutEach(listeners, ids[..n], ls[..n]), ids[n], ls[n])
  }

  /** Under distinct ids none of which is taken, every listener is added under its own id. */
  lemma {:induction false} PutEachAddsEach<L>(listeners: map<string, L>, ids: seq<string>, ls: seq<L>)
    requires |ids| == |ls|
    requires forall i :: 0 <= i < |ids| ==> ids[i] !in listeners
    requires forall i, j :: 0 <= i < j < |ids| ==> ids[i] != ids[j]
    ensures forall i :: 0 <= i < |ids| ==> PutEach(listeners, ids, ls)[ids[i]] == ls[i]
  {
    if |ls| > 0 {
      var n := |ls| - 1;
      var before := PutEach(listeners, ids[..n], ls[..n]);
      PutEachAddsEach(listeners, ids[..n], ls[..n]);
      PutEachKeys(listeners, ids[..n], ls[..n]);
      assert ids[n] !in ids[..n] by {
        forall i | 0 <= i < n
          ensures ids[..n][i] != ids[n]
        {
          assert ids[..n][i] == ids[i];
        }
      }
      forall i | 0 <= i < n
        ensures PutEach(listeners, ids, ls)[ids[i]] == ls[i]
      {
        assert ids[..n][i] == ids[i] && ls[..n][i] == ls[i];
      }
    }
  }

  /** The ids `PutEach` binds: those of the map and the given ones, and no others. */
  lemma {:induction false} PutEachKeys<L>(listeners: map<string, L>, ids: seq<string>, ls: seq<L>)
    requires |ids| == |ls|
    ensures forall id :: id in PutEach(listeners, ids, ls) ==> id in listeners || id in ids
  {
    if |ls| > 0 {
      var n := |ls| - 1;
      PutEachKeys(listeners, ids[..n], ls[..n]);
      forall id | id in ids[..n]
        ensures id in ids
      {
        var i :| 0 <= i < n && ids[..n][i] == id;
        assert ids[i] == id;
      }
    }
  }

  /** Until the counter wraps, the ids a run of registrations takes are distinct. */
  lemma {:induction false} RunIdsDistinct(k: nat, n: nat)
    requires n <= TWO_32
    ensures forall i, j :: 0 <= i < j < n ==> RunIds(k, n)[i] != RunIds(k, n)[j]
  {
    forall i, j | 0 <= i < j < n
      ensures RunIds(k, n)[i] != RunIds(k, n)[j]
    {
      RunIdsDistinctAt(k, n, i, j);
    }
  }

  /** The ids at two positions of a run differ. */
  lemma RunIdsDistinctAt(k: nat, n: nat, i: nat, j: nat)
    requires i < j < n <= TWO_32
    ensures RunIds(k, n)[i] != RunIds(k, n)[j]
  {
    RunIdsAt(k, n, i);
    RunIdsAt(k, n, j);
    ListenerIdsDistinct(k + i, k + j);
  }

  /** Until the counter wraps, none of the ids a run of registrations takes is already in the registry. */
  lemma {:induction false} RunIdsFresh<L>(listeners: map<string, L>, k: nat, n: nat)
    requires listeners.Keys <= IssuedIds(k) && k + n <= TWO_32
    ensures forall i :: 0 <= i < n ==> RunIds(k, n)[i] !in listeners
  {
    forall i | 0 <= i < n
      ensures RunIds(k, n)[i] !in listeners
    {
      RunIdFresh(listeners, k, n, i);
    }
  }

  /** One id of a run is not taken. */
  lemma RunIdFresh<L>(listeners: map<string, L>, k: nat, n: nat, i: nat)
    requires listeners.Keys <= IssuedIds(k) && k + n <= TWO_32 && i < n
    ensures RunIds(k, n)[i] !in listeners
  {
    RunIdsAt(k, n, i);
    LaterIdNotIssued(k, k + i);
  }

  /** One more registration of a run: `putIfAbsent` of the next listener under the next id. */
  lemma PutEachStep<L>(listeners: map<string, L>, k: nat, ls: seq<L>, l: L)
    ensures PutEach(listeners, RunIds(k, |ls| + 1), ls + [l])
            == PutIfAbsent(PutEach(listeners, RunIds(k, |ls|), ls), ListenerId(k + |ls|), l)
  {
    var ids := RunIds(k, |ls| + 1);
    assert ids[..|ls|] == RunIds(k, |ls|);
    assert ids[|ls|] == ListenerId(k + |ls|);
    assert (ls + [l])[..|ls|] == ls;
  }

  /**
   * A run extended by at most one registration: `now` is the map `prior` the
   * run `done` left, with the next listener, if any, put under the next id.
   */
  lemma RunExtends<L>(before: map<string, L>, k: nat, done: seq<L>, prior: map<string, L>, id: string,
                      next: seq<L>, now: map<string, L>)
    requires |next| <= 1 && prior == PutEach(before, RunIds(k, |done|), done) && id == ListenerId(k + |done|)
    requires next == [] ==> now == prior
    requires |next| == 1 ==> now == PutIfAbsent(prior, id, next[0])
    ensures now == PutEach(before, RunIds(k, |done + next|), done + next)
  {
    if |next| == 1 {
      PutEachStep(before, k, done, next[0]);
      assert done + next == done + [next[0]];
    } else {
      assert done + next == done;
    }
  }

  /**
   * Until the counter wraps, a run of registrations from the counter's
   * (k+1)-th value on finds its i-th listener under `sqsListener<k+i+1>`.
   */
  lemma RunRegistersEach<L>(listeners: map<string, L>, k: nat, ls: seq<L>, i: nat)
    requires listeners.Keys <= IssuedIds(k) && k + |ls| <= TWO_32 && i < |ls|
    ensures ListenerId(k + i) in PutEach(listeners, RunIds(k, |ls|), ls)
    ensures PutEach(listeners, RunIds(k, |ls|), ls)[ListenerId(k + i)] == ls[i]
  {
    var ids := RunIds(k, |ls|);
    RunIdsFresh(listeners, k, |ls|);
    RunIdsDistinct(k, |ls|);
    PutEachAddsEach(listeners, ids, ls);
    assert ids[i] in PutEach(listeners, ids, ls);
    RunIdsAt(k, |ls|, i);
  }

  class DefaultSqsListenerRegistry<L> {
    var applicationContext: Option<ContextRef>
    var listeners: map<string, L>
    var listenerCounter: int32
    var running: bool
    /** The calls made so far on the listeners and the bean factory. */
    var events: seq<Event<L>>
    /** How many registrations have taken an id from the counter. */
    ghost var registrations: nat

    ghost predicate Valid()
      reads this
    {
      listenerCounter == CounterValue(registrations) && listeners.Keys <= IssuedIds(registrations)
    }

    constructor ()
      ensures Valid() && registrations == 0 && listenerCounter == 1
      ensures applicationContext == None && listeners == map[] && !running && events == []
    {
      applicationContext, listeners, listenerCounter := None, map[], 1;
      running, events := false, [];
      registrations := 0;
    }

    /** `setApplicationContext`: only a `ConfigurableApplicationContext` is kept. */
    method SetApplicationContext(context: ApplicationContextObject)
      modifies this
      ensures applicationContext == if context.configurable then Some(context.ref) else old(applicationContext)
      ensures listeners == old(listeners) && listenerCounter == old(listenerCounter) && registrations == old(registrations)
      ensures running == old(running) && events == old(events)
    {
      if context.configurable {
        applicationContext := Some(context.ref);
      }
    }

    /**
     * `listeners.values().forEach(...)`: the calls made, one per entry, in the
     * map's enumeration order `order`. `throwing` holds the ids of the listeners whose
     * `call` throws a RuntimeException; the first of them ends the walk, and
     * the exception escapes.
     */
    method CallEach(call: Call, throwing: set<string>, order: seq<string>) returns (calls: seq<Event<L>>, o: Outcome)
      requires EnumerationOf(order, listeners.Keys)
      ensures CallsInOrder(calls, call, listeners, order)
      ensures o == Done ==> |calls| == |order|
      ensures o == Done <==> listeners.Keys * throwing == {}
      ensures o == Done ==> CallsEachOnce(calls, call, listeners)
      ensures o.Threw? ==> o == Threw(UnexpectedFailure) && CallsUntilThrow(calls, call, listeners, throwing)
    {
      calls := [];
      for i := 0 to |order|
        invariant |calls| == i && CallsInOrder(calls, call, listeners, order)
        invariant forall j :: 0 <= j < i ==> order[j] !in throwing
      {
        calls := calls + [Called(call, order[i], listeners[order[i]])];
        if order[i] in throwing {
          assert order[i] in listeners.Keys * throwing;
          CallsInOrderUntil(calls, call, listeners, order, throwing);
          return calls, Threw(UnexpectedFailure);
        }
      }
      CallsInOrderEach(calls, call, listeners, order);
      NoneThrowing(order, listeners.Keys, throwing);
      o := Done;
    }

    /**
     * `start`: every listener is subscribed, then the registry is running. A
     * `subscribe` that throws (its id in `subscribeThrowing`) ends the walk, and
     * the flag is left as it was.
     */
    method Start(subscribeThrowing: set<string>) returns (subscribed: seq<Event<L>>, o: Outcome)
      modifies this
      ensures o == Done <==> listeners.Keys * subscribeThrowing == {}
      ensures o == Done ==> running && CallsEachOnce(subscribed, Subscribe, listeners)
      ensures o.Threw? ==>
                && running == old(running) && o == Threw(UnexpectedFailure)
                && CallsUntilThrow(subscribed, Subscribe, listeners, subscribeThrowing)
      ensures events == old(events) + subscribed
      ensures applicationContext == old(applicationContext) && listeners == old(listeners)
      ensures listenerCounter == old(listenerCounter) && registrations == old(registrations)
    {
      var order := Enumerate(listeners.Keys);
      subscribed, o := CallEach(Subscribe, subscribeThrowing, order);
      events := events + subscribed;
      if o.Threw? {
        return;
      }
      running := true;
    }

    /**
     * `stop`: the registry stops running, every listener is destroyed, then each
     * is given 20 seconds to terminate. A `destroy` that throws ends the walk
     * and no listener is awaited; an `awaitTermination` that throws ends the
     * second walk.
     */
    method Stop(destroyThrowing: set<string>, awaitThrowing: set<string>)
      returns (destroyed: seq<Event<L>>, awaited: seq<Event<L>>, o: Outcome)
      modifies this
      ensures !running
      ensures o == Done <==> listeners.Keys * destroyThrowing == {} && listeners.Keys * awaitThrowing == {}
      ensures listeners.Keys * destroyThrowing == {} ==> CallsEachOnce(destroyed, Destroy, listeners)
      ensures listeners.Keys * destroyThrowing != {} ==>
                && o == Threw(UnexpectedFailure) && awaited == []
                && CallsUntilThrow(destroyed, Destroy, listeners, destroyThrowing)
      ensures o == Done ==> CallsEachOnce(awaited, AwaitTermination(AWAIT_TERMINATION_SECONDS), listeners)
      ensures listeners.Keys * destroyThrowing == {} && o.Threw? ==>
                && o == Threw(UnexpectedFailure)
                && CallsUntilThrow(awaited, AwaitTermination(AWAIT_TERMINATION_SECONDS), listeners, awaitThrowing)
      ensures |awaited| <= |destroyed| && forall i :: 0 <= i < |awaited| ==> awaited[i].id == destroyed[i].id
      ensures events == old(events) + destroyed + awaited
      ensures applicationContext == old(applicationContext) && listeners == old(listeners)
      ensures listenerCounter == old(listenerCounter) && registrations == old(registrations)
    {
      running := false;
      destroyed, awaited, o := DestroyThenAwait(destroyThrowing, awaitThrowing);
      events := events + destroyed + awaited;
    }

    /**
     * The two walks of `stop` over one enumeration of the map: `destroy` on
     * each listener, then, if none threw, `awaitTermination` on each, in the
     * same order.
     */
    method DestroyThenAwait(destroyThrowing: set<string>, awaitThrowing: set<string>)
      returns (destroyed: seq<Event<L>>, awaited: seq<Event<L>>, o: Outcome)
      ensures o == Done <==> listeners.Keys * destroyThrowing == {} && listeners.Keys * awaitThrowing == {}
      ensures listeners.Keys * destroyThrowing == {} ==> CallsEachOnce(destroyed, Destroy, listeners)
      ensures listeners.Keys * destroyThrowing != {} ==>
                && o == Threw(UnexpectedFailure) && awaited == []
                && CallsUntilThrow(destroyed, Destroy, listeners, destroyThrowing)
      ensures o == Done ==> CallsEachOnce(awaited, AwaitTermination(AWAIT_TERMINATION_SECONDS), listeners)
      ensures listeners.Keys * destroyThrowing == {} && o.Threw? ==>
                && o == Threw(UnexpectedFailure)
                && CallsUntilThrow(awaited, AwaitTermination(AWAIT_TERMINATION_SECONDS), listeners, awaitThrowing)
      ensures |awaited| <= |destroyed| && forall i :: 0 <= i < |awaited| ==> awaited[i].id == destroyed[i].id
    {
      var order := Enumerate(listeners.Keys);
      destroyed, o := CallEach(Destroy, destroyThrowing, order);
      awaited := [];
      if o == Done {
        awaited, o := CallEach(AwaitTermination(AWAIT_TERMINATION_SECONDS), awaitThrowing, order);
      }
    }

    /** `listenerCounter.getAndIncrement()`, formatted as the next id. */
    method NextId() returns (id: string)
      requires Valid()
      modifies this`listenerCounter, this`registrations
      ensures Valid() && registrations == old(registrations) + 1 && id == ListenerId(old(registrations))
    {
      id := FormatId(listenerCounter);
      FormatCounterValue(registrations);
      IncrementCounter();
    }

    /** The increment of `getAndIncrement`, wrapping at the end of the `int` range. */
    method IncrementCounter()
      requires Valid()
      modifies this`listenerCounter, this`registrations
      ensures Valid() && registrations == old(registrations) + 1
    {
      CounterStep(registrations);
      IssuedIdsGrow(listeners, registrations);
      listenerCounter, registrations := Int32(listenerCounter + 1), registrations + 1;
    }

    /** `isRunning`: the flag a complete `start` sets and `stop` clears. */
    function IsRunning(): (b: bool)
      reads this
      ensures b <==> running
    {
      running
    }

    /**
     * `registerListener`: a null listener is a NullPointerException before the
     * counter moves. Otherwise the listener takes the next id; `putIfAbsent`
     * keeps an entry already under that id, and a listener that was added is
     * registered as a singleton bean of the application context (a null
     * context is a NullPointerException, after the entry was added).
     */
    method RegisterListener(listener: Option<L>) returns (o: Outcome)
      requires Valid()
      modifies this
      ensures Valid() && applicationContext == old(applicationContext) && running == old(running)
      ensures listener.None? ==>
                && o == Threw(NullPointer)
                && listeners == old(listeners) && registrations == old(registrations) && events == old(events)
      ensures listener.Some? ==> registrations == old(registrations) + 1
      ensures listener.Some? ==> listeners == PutIfAbsent(old(listeners), ListenerId(old(registrations)), listener.value)
      ensures listener.Some? && ListenerId(old(registrations)) in old(listeners) ==>
                o == Done && listeners == old(listeners) && events == old(events)
      ensures listener.Some? && ListenerId(old(registrations)) !in old(listeners) ==>
                && listeners == old(listeners)[ListenerId(old(registrations)) := listener.value]
                && o == (if applicationContext.None? then Threw(NullPointer) else Done)
                && events == old(events) + (if o == Done then [SingletonRegistered(ListenerId(old(registrations)), listener.value)] else [])
      ensures listener.Some? && old(registrations) < TWO_32 ==> ListenerId(old(registrations)) !in old(listeners)
    {
      if listener.None? {
        return Threw(NullPointer);
      }
      ghost var k := registrations;
      var id := NextId();
      NextRegistration(listeners, k, listener.value);
      o := Done;
      if id !in listeners {
        listeners := listeners[id := listener.value];
        if applicationContext.None? {
          return Threw(NullPointer);
        }
        events := events + [SingletonRegistered(id, listener.value)];
      }
    }
  }

  /** The first listener registered is named `sqsListener1`, the second `sqsListener2`. */
  method FirstIdsScenario<L>(first: L, second: L, context: ContextRef) returns (ids: set<string>, events: seq<Event<L>>)
    ensures ids == {"sqsListener1", "sqsListener2"}
    ensures events == [SingletonRegistered("sqsListener1", first), SingletonRegistered("sqsListener2", second)]
  {
    var registry := new DefaultSqsListenerRegistry<L>();
    registry.SetApplicationContext(ApplicationContextObject(context, true));
    assert ListenerId(0) == "sqsListener1" && ListenerId(1) == "sqsListener2";
    var o := registry.RegisterListener(Some(first));
    o := registry.RegisterListener(Some(second));
    ids, events := registry.listeners.Keys, registry.events;
  }
}
