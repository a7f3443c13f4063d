/**
  The event handler registered with each informer: it groups an owner's methods for
  one resource kind by event kind and, for every notification, queues one invocation
  per method of that kind on its serial executor, in declaration order.
*/
module IndexInformerResHandler {
  import opened Seqs
  import opened Annotations

  /** A notification an informer delivers to its handler. */
  datatype Notification<T> =
    | Added(obj: T)
    | Updated(oldObj: T, newObj: T)
    | Deleted(obj: T, finalStateUnknown: bool)

  /** The event kind a notification belongs to. */
  function KindOf<T(==)>(n: Notification<T>): EventKind {
    match n
    case Added(_) => ADD
    case Updated(_, _) => UPDATE
    case Deleted(_, _) => DELETE
  }

  /** An argument passed to a watch method: a resource object or the deletion flag. */
  datatype Arg<T> = Resource(obj: T) | Flag(value: bool)

  /** One queued call of a watch method on the owner bean. */
  datatype Invocation<T> = Invocation(beanClass: string, watchMethod: WatchMethod, args: seq<Arg<T>>)

  /**
    A handler: the owner's class, its methods grouped by event kind, and the tasks
    submitted to its serial executor so far, oldest first.
  */
  datatype ResHandler<T> = ResHandler(
    beanClass: string,
    methods: map<EventKind, seq<WatchMethod>>,
    queue: seq<Invocation<T>>)

  /** The methods of `ms` that handle event kind `e`, in declaration order. */
  function MethodsOf(ms: seq<WatchMethod>, e: EventKind): (r: seq<WatchMethod>)
    ensures forall m :: m in r <==> m in ms && m.event == e
  {
    Filter(ms, (m: WatchMethod) => m.event == e)
  }

  /**
    `groupingBy(event)`: the event kinds that have methods, each with its methods in
    declaration order. A kind without methods has no entry.
  */
  function Group(ms: seq<WatchMethod>): (g: map<EventKind, seq<WatchMethod>>)
    ensures forall e :: e in g <==> exists m :: m in ms && m.event == e
    ensures forall e :: e in g ==> g[e] == MethodsOf(ms, e)
    ensures forall e :: e !in g ==> MethodsOf(ms, e) == []
  {
    assert forall e :: MethodsOf(ms, e) != [] ==> MethodsOf(ms, e)[0] in MethodsOf(ms, e);
    map e: EventKind | (exists m :: m in ms && m.event == e) :: MethodsOf(ms, e)
  }

  /** The methods a handler holds for kind `e`; `methods.get(e)` being null reads as none. */
  function Declared<T(==)>(h: ResHandler<T>, e: EventKind): seq<WatchMethod> {
    if e in h.methods then h.methods[e] else []
  }

  /** The handler's constructor: methods grouped by kind, nothing queued. */
  function NewHandler<T(==)>(beanClass: string, ms: seq<WatchMethod>): (h: ResHandler<T>)
    ensures h.beanClass == beanClass && h.queue == []
    ensures forall e :: Declared(h, e) == MethodsOf(ms, e)
  {
    ResHandler(beanClass, Group(ms), [])
  }

  /** Grouping loses and invents nothing: the groups together are a permutation of the methods. */
  lemma GroupPartition(ms: seq<WatchMethod>)
    ensures multiset(MethodsOf(ms, ADD)) + multiset(MethodsOf(ms, UPDATE)) + multiset(MethodsOf(ms, DELETE))
         == multiset(ms)
    ensures |MethodsOf(ms, ADD)| + |MethodsOf(ms, UPDATE)| + |MethodsOf(ms, DELETE)| == |ms|
  {
    var total := multiset(MethodsOf(ms, ADD)) + multiset(MethodsOf(ms, UPDATE)) + multiset(MethodsOf(ms, DELETE));
    forall m ensures total[m] == multiset(ms)[m] {
      FilterMultiset(ms, (x: WatchMethod) => x.event == ADD, m);
      FilterMultiset(ms, (x: WatchMethod) => x.event == UPDATE, m);
      FilterMultiset(ms, (x: WatchMethod) => x.event == DELETE, m);
    }
    assert total == multiset(ms);
    assert |total| == |multiset(ms)|;
  }

  /**
    The arguments of the call for one method: the object for an add, old and new
    object for an update, and for a delete the object alone when the method takes one
    parameter, else the object and the final-state-unknown flag.
  */
  function ArgsFor<T(==)>(m: WatchMethod, n: Notification<T>): (args: seq<Arg<T>>)
    ensures n.Added? ==> args == [Resource(n.obj)]
    ensures n.Updated? ==> args == [Resource(n.oldObj), Resource(n.newObj)]
    ensures n.Deleted? && |m.paramTypes| == 1 ==> args == [Resource(n.obj)]
    ensures n.Deleted? && |m.paramTypes| != 1 ==> args == [Resource(n.obj), Flag(n.finalStateUnknown)]
  {
    match n
    case Added(obj) => [Resource(obj)]
    case Updated(oldObj, newObj) => [Resource(oldObj), Resource(newObj)]
    case Deleted(obj, flag) => if |m.paramTypes| == 1 then [Resource(obj)] else [Resource(obj), Flag(flag)]
  }

  /** One task per method, in the order the methods are listed. */
  function Tasks<T(==)>(beanClass: string, ms: seq<WatchMethod>, n: Notification<T>): (r: seq<Invocation<T>>)
    ensures |r| == |ms|
    ensures forall k :: 0 <= k < |ms| ==> r[k] == Invocation(beanClass, ms[k], ArgsFor(ms[k], n))
  {
    if ms == [] then [] else [Invocation(beanClass, ms[0], ArgsFor(ms[0], n))] + Tasks(beanClass, ms[1..], n)
  }

  /** Whether `h'` is `h` with `added` submitted after everything already queued. */
  predicate Submitted<T(==)>(h: ResHandler<T>, h': ResHandler<T>, added: seq<Invocation<T>>) {
    && h'.beanClass == h.beanClass
    && h'.methods == h.methods
    && h'.queue == h.queue + added
  }

  /** `onAdd`: one call per ADD method, each with the added object. */
  function OnAdd<T(==)>(h: ResHandler<T>, obj: T): (h': ResHandler<T>)
    ensures |h'.queue| == |h.queue| + |Declared(h, ADD)|
    ensures Submitted(h, h', h'.queue[|h.queue|..])
    ensures forall k :: 0 <= k < |Declared(h, ADD)| ==>
      h'.queue[|h.queue| + k] == Invocation(h.beanClass, Declared(h, ADD)[k], [Resource(obj)])
  {
    if ADD !in h.methods then h
    else h.(queue := h.queue + Tasks(h.beanClass, h.methods[ADD], Added(obj)))
  }

  /** `onUpdate`: one call per UPDATE method, each with the old and the new object. */
  function OnUpdate<T(==)>(h: ResHandler<T>, oldObj: T, newObj: T): (h': ResHandler<T>)
    ensures |h'.queue| == |h.queue| + |Declared(h, UPDATE)|
    ensures Submitted(h, h', h'.queue[|h.queue|..])
    ensures forall k :: 0 <= k < |Declared(h, UPDATE)| ==>
      h'.queue[|h.queue| + k] == Invocation(h.beanClass, Declared(h, UPDATE)[k], [Resource(oldObj), Resource(newObj)])
  {
    if UPDATE !in h.methods then h
    else h.(queue := h.queue + Tasks(h.beanClass, h.methods[UPDATE], Updated(oldObj, newObj)))
  }

  /**
    `onDelete`: one call per DELETE method, with the object, and the flag too unless
    the method takes a single parameter.
  */
  function OnDelete<T(==)>(h: ResHandler<T>, obj: T, finalStateUnknown: bool): (h': ResHandler<T>)
    ensures |h'.queue| == |h.queue| + |Declared(h, DELETE)|
    ensures Submitted(h, h', h'.queue[|h.queue|..])
    ensures forall k :: 0 <= k < |Declared(h, DELETE)| ==>
      var m := Declared(h, DELETE)[k];
      h'.queue[|h.queue| + k] ==
        Invocation(h.beanClass, m, if |m.paramTypes| == 1 then [Resource(obj)] else [Resource(obj), Flag(finalStateUnknown)])
  {
    if DELETE !in h.methods then h
    else h.(queue := h.queue + Tasks(h.beanClass, h.methods[DELETE], Deleted(obj, finalStateUnknown)))
  }

  /** The callback the informer invokes for a notification. */
  function Notify<T(==)>(h: ResHandler<T>, n: Notification<T>): ResHandler<T> {
    match n
    case Added(obj) => OnAdd(h, obj)
    case Updated(oldObj, newObj) => OnUpdate(h, oldObj, newObj)
    case Deleted(obj, flag) => OnDelete(h, obj, flag)
  }

  /**
    Reference definition of what one notification schedules: walking the declared
    methods in order, a call for each method whose kind matches the notification.
  */
  function Expected<T(==)>(beanClass: string, ms: seq<WatchMethod>, n: Notification<T>): seq<Invocation<T>> {
    if ms == [] then []
    else
      (if ms[0].event == KindOf(n) then [Invocation(beanClass, ms[0], ArgsFor(ms[0], n))] else [])
      + Expected(beanClass, ms[1..], n)
  }

  /** Tasks of a concatenation are the concatenation of the tasks. */
  lemma {:induction false} TasksAppend<T>(beanClass: string, a: seq<WatchMethod>, b: seq<WatchMethod>, n: Notification<T>)
    ensures Tasks(beanClass, a + b, n) == Tasks(beanClass, a, n) + Tasks(beanClass, b, n)
  {
    if a != [] {
      assert (a + b)[1..] == a[1..] + b;
      TasksAppend(beanClass, a[1..], b, n);
    } else {
      assert a + b == b;
    }
  }

  /** The grouped tasks of a notification's kind are exactly the reference schedule. */
  lemma {:induction false} TasksOfKind<T>(beanClass: string, ms: seq<WatchMethod>, n: Notification<T>)
    ensures Tasks(beanClass, MethodsOf(ms, KindOf(n)), n) == Expected(beanClass, ms, n)
  {
    if ms != [] {
      var p := (m: WatchMethod) => m.event == KindOf(n);
      var head := if p(ms[0]) then [ms[0]] else [];
      assert MethodsOf(ms, KindOf(n)) == head + MethodsOf(ms[1..], KindOf(n));
      TasksAppend(beanClass, head, MethodsOf(ms[1..], KindOf(n)), n);
      TasksOfKind(beanClass, ms[1..], n);
    } else {
      assert MethodsOf(ms, KindOf(n)) == [];
    }
  }

  /**
    A handler built from `ms` queues, for any notification, exactly the reference
    schedule after what was queued before: the declared methods of that kind, in
    declaration order, with the arguments that kind passes.
  */
  lemma NotifyMatchesExpected<T>(h: ResHandler<T>, ms: seq<WatchMethod>, n: Notification<T>)
    requires forall e :: Declared(h, e) == MethodsOf(ms, e)
    ensures Notify(h, n).queue == h.queue + Expected(h.beanClass, ms, n)
    ensures Notify(h, n).methods == h.methods && Notify(h, n).beanClass == h.beanClass
  {
    TasksOfKind(h.beanClass, ms, n);
    var e := KindOf(n);
    var d := Tasks(h.beanClass, Declared(h, e), n);
    assert d == Expected(h.beanClass, ms, n);
    assert Notify(h, n).queue == h.queue + d;
  }

  /** Any notification appends, in order, one call of each method the handler holds for its kind. */
  lemma NotifyCallsDeclared<T>(h: ResHandler<T>, n: Notification<T>)
    ensures var q := Notify(h, n).queue; var d := Declared(h, KindOf(n));
      && |q| == |h.queue| + |d|
      && q[..|h.queue|] == h.queue
      && forall k :: 0 <= k < |d| ==> q[|h.queue| + k].beanClass == h.beanClass && q[|h.queue| + k].watchMethod == d[k]
  {
  }

  /** Every call a notification appends is a call of one of the methods the handler holds for its kind. */
  lemma NotifyCallsOnlyDeclared<T>(h: ResHandler<T>, n: Notification<T>)
    ensures |h.queue| <= |Notify(h, n).queue|
    ensures forall inv :: inv in Notify(h, n).queue[|h.queue|..] ==>
      inv.beanClass == h.beanClass && inv.watchMethod in Declared(h, KindOf(n))
  {
    var q := Notify(h, n).queue;
    var d := Declared(h, KindOf(n));
    NotifyCallsDeclared(h, n);
    forall inv | inv in q[|h.queue|..] ensures inv.beanClass == h.beanClass && inv.watchMethod in d {
      var k :| 0 <= k < |q[|h.queue|..]| && q[|h.queue|..][k] == inv;
      assert q[|h.queue| + k] == inv;
      assert d[k] in d;
    }
  }

  /** A notification of a kind with no method queues nothing. */
  lemma NoMethodsNoTasks<T>(h: ResHandler<T>, n: Notification<T>)
    requires KindOf(n) !in h.methods
    ensures Notify(h, n) == h
  {
  }

  /**
    The handler tests' bean: one method per kind, plus a second DELETE method taking
    the flag. A delete queues both DELETE methods in declaration order, the
    single-parameter one with the object only and the other with the object and the
    flag; an add queues the ADD method alone.
  */
  lemma AllEventsExample<T>(add: WatchMethod, upd: WatchMethod, single: WatchMethod, withFlag: WatchMethod, obj: T)
    requires add.event == ADD && upd.event == UPDATE && single.event == DELETE && withFlag.event == DELETE
    requires |single.paramTypes| == 1 && |withFlag.paramTypes| == 2
    ensures var h := NewHandler<T>("TestBean", [add, upd, single, withFlag]);
      && OnDelete(h, obj, true).queue
         == [Invocation("TestBean", single, [Resource(obj)]), Invocation("TestBean", withFlag, [Resource(obj), Flag(true)])]
      && OnAdd(h, obj).queue == [Invocation("TestBean", add, [Resource(obj)])]
  {
    var ms := [add, upd, single, withFlag];
    var h := NewHandler<T>("TestBean", ms);
    NotifyMatchesExpected(h, ms, Deleted(obj, true));
    NotifyMatchesExpected(h, ms, Added(obj));
    ExpectedExample(add, upd, single, withFlag, obj);
  }

  /** The reference schedule of the handler tests' bean for a delete and for an add. */
  lemma ExpectedExample<T>(add: WatchMethod, upd: WatchMethod, single: WatchMethod, withFlag: WatchMethod, obj: T)
    requires add.event == ADD && upd.event == UPDATE && single.event == DELETE && withFlag.event == DELETE
    requires |single.paramTypes| == 1 && |withFlag.paramTypes| == 2
    ensures Expected("TestBean", [add, upd, single, withFlag], Deleted(obj, true))
         == [Invocation("TestBean", single, [Resource(obj)]), Invocation("TestBean", withFlag, [Resource(obj), Flag(true)])]
    ensures Expected("TestBean", [add, upd, single, withFlag], Added(obj)) == [Invocation("TestBean", add, [Resource(obj)])]
  {
    var b := "TestBean";
    var ms := [add, upd, single, withFlag];
    var del := Deleted(obj, true);
    assert ms[1..] == [upd, single, withFlag] && ms[1..][1..] == [single, withFlag] && ms[1..][1..][1..] == [withFlag];
    assert Expected(b, [withFlag], del) == [Invocation(b, withFlag, [Resource(obj), Flag(true)])] by {
      assert [withFlag][1..] == [];
    }
    assert Expected(b, [single, withFlag], del) == [Invocation(b, single, [Resource(obj)])] + Expected(b, [withFlag], del);
    assert Expected(b, [upd, single, withFlag], del) == Expected(b, [single, withFlag], del);
    assert Expected(b, [withFlag], Added(obj)) == [] by {
      assert [withFlag][1..] == [];
    }
    assert Expected(b, [single, withFlag], Added(obj)) == [];
    assert Expected(b, [upd, single, withFlag], Added(obj)) == [];
  }

  /** The handler after a sequence of notifications, delivered in order. */
  function Deliver<T(==)>(h: ResHandler<T>, ns: seq<Notification<T>>): ResHandler<T>
    decreases |ns|
  {
    if ns == [] then h else Deliver(Notify(h, ns[0]), ns[1..])
  }

  /** The reference schedule for a sequence of notifications: each one's calls, in notification order. */
  function ExpectedAll<T(==)>(beanClass: string, ms: seq<WatchMethod>, ns: seq<Notification<T>>): seq<Invocation<T>>
    decreases |ns|
  {
    if ns == [] then [] else Expected(beanClass, ms, ns[0]) + ExpectedAll(beanClass, ms, ns[1..])
  }

  /**
    The executor is FIFO: after a run of notifications the queue holds the earlier
    tasks followed by every notification's calls, notification by notification.
  */
  lemma {:induction false} DeliverIsFifo<T>(h: ResHandler<T>, ms: seq<WatchMethod>, ns: seq<Notification<T>>)
    requires forall e :: Declared(h, e) == MethodsOf(ms, e)
    ensures Deliver(h, ns).queue == h.queue + ExpectedAll(h.beanClass, ms, ns)
    ensures Deliver(h, ns).methods == h.methods && Deliver(h, ns).beanClass == h.beanClass
    decreases |ns|
  {
    if ns != [] {
      var h1 := Notify(h, ns[0]);
      NotifyMatchesExpected(h, ms, ns[0]);
      assert forall e :: Declared(h1, e) == Declared(h, e);
      DeliverIsFifo(h1, ms, ns[1..]);
      assert h.queue + Expected(h.beanClass, ms, ns[0]) + ExpectedAll(h.beanClass, ms, ns[1..])
          == h.queue + ExpectedAll(h.beanClass, ms, ns);
    }
  }
}
