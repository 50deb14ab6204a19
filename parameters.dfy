/** Parameters that bind one optimizer value to a list of Python objects (parameters.py).

    Each target object is a record: the attributes written on it, and how its own
    `instantiate` and `destroy` methods behave when called.  Objects live in a
    `Heap` addressed by `ObjectId`, so two parameters can name the same object,
    and every call a parameter makes on an object is appended to the heap's trace. */
module Parameters {
  import opened Common

  type ObjectId = nat

  /** How an object answers a call to one of its lifecycle methods: it has none,
      the call returns, or the call raises `TypeError` or another exception. */
  datatype Hook = Absent | Returns | RaisesTypeError | RaisesOther

  datatype PyObject = PyObject(attrs: map<string, real>, instantiateHook: Hook, destroyHook: Hook)

  /** `callable(getattr(obj, 'instantiate', None))`: a value written under the name
      `instantiate` shadows the method and is not callable. */
  predicate HasInstantiate(o: PyObject) {
    "instantiate" !in o.attrs && o.instantiateHook != Absent
  }

  /** `callable(getattr(obj, 'destroy', None))`. */
  predicate HasDestroy(o: PyObject) {
    "destroy" !in o.attrs && o.destroyHook != Absent
  }

  predicate Raises(h: Hook) {
    h == RaisesTypeError || h == RaisesOther
  }

  datatype Call =
    | SetAttr(target: ObjectId, attr: string, value: real)
    | InstantiateCalled(target: ObjectId)
    | DestroyCalled(target: ObjectId)

  /** The exceptions the two methods can end with. */
  datatype Failure =
    | MissingValue(parameter: string)      // parameters.py:58-59
    | CannotInstantiate(target: ObjectId)  // a TypeError wrapped at parameters.py:67-68
    | CannotDestroy(target: ObjectId)      // a TypeError wrapped at parameters.py:79-80
    | Raised(target: ObjectId)             // any other exception, propagated unchanged

  /** The exception a raising hook ends the loop with; `wrapped` stands for a `TypeError`. */
  function RaisedBy(h: Hook, wrapped: Failure, t: ObjectId): Option<Failure> {
    match h
    case RaisesTypeError => Some(wrapped)
    case RaisesOther => Some(Raised(t))
    case _ => None
  }

  /** The objects after a call, the calls it made, and the exception it ended with, if any. */
  datatype Outcome = Outcome(store: seq<PyObject>, calls: seq<Call>, failure: Option<Failure>)

  predicate ValidTargets(targets: seq<ObjectId>, store: seq<PyObject>) {
    forall k :: 0 <= k < |targets| ==> targets[k] < |store|
  }

  /** One iteration of the loop at parameters.py:62-68; after an exception nothing more happens. */
  function InstantiateStep(o: Outcome, t: ObjectId, attr: string, v: real): (r: Outcome)
    requires t < |o.store|
    ensures |r.store| == |o.store|
  {
    if o.failure.Some? then o
    else
      var obj := o.store[t].(attrs := o.store[t].attrs[attr := v]);
      var store := o.store[t := obj];
      var calls := o.calls + [SetAttr(t, attr, v)];
      if !HasInstantiate(obj) then Outcome(store, calls, None)
      else Outcome(store, calls + [InstantiateCalled(t)], RaisedBy(obj.instantiateHook, CannotInstantiate(t), t))
  }

  /** The loop at parameters.py:62-68 run over `targets` from `store`. */
  function InstantiateRun(store: seq<PyObject>, targets: seq<ObjectId>, attr: string, v: real): (r: Outcome)
    requires ValidTargets(targets, store)
    ensures |r.store| == |store|
    decreases |targets|
  {
    if targets == [] then Outcome(store, [], None)
    else
      var last := |targets| - 1;
      InstantiateStep(InstantiateRun(store, targets[..last], attr, v), targets[last], attr, v)
  }

  /** `PyObjectParameter.instantiate` (parameters.py:56-70). */
  function InstantiateSpec(name: string, value: Option<real>, attr: string, targets: seq<ObjectId>, store: seq<PyObject>): Outcome
    requires ValidTargets(targets, store)
  {
    if value.None? then Outcome(store, [], Some(MissingValue(name)))
    else InstantiateRun(store, targets, attr, value.value)
  }

  /** One iteration of the loop at parameters.py:75-80. */
  function DestroyStep(o: Outcome, t: ObjectId): (r: Outcome)
    requires t < |o.store|
    ensures r.store == o.store
  {
    if o.failure.Some? || !HasDestroy(o.store[t]) then o
    else Outcome(o.store, o.calls + [DestroyCalled(t)], RaisedBy(o.store[t].destroyHook, CannotDestroy(t), t))
  }

  /** `PyObjectParameter.destroy` (parameters.py:73-80): the loop run over `targets`. */
  function DestroyRun(store: seq<PyObject>, targets: seq<ObjectId>): (r: Outcome)
    requires ValidTargets(targets, store)
    ensures r.store == store
    decreases |targets|
  {
    if targets == [] then Outcome(store, [], None)
    else
      var last := |targets| - 1;
      DestroyStep(DestroyRun(store, targets[..last]), targets[last])
  }

  // ---- Reference definitions the lemmas compare the runs against ----

  /** Whether the loop calls `instantiate` on `t` when writing `attr`: the object has a
      callable `instantiate`, and `attr` is not the name that would shadow it. */
  predicate CallsInstantiate(store: seq<PyObject>, t: ObjectId, attr: string)
    requires t < |store|
  {
    attr != "instantiate" && HasInstantiate(store[t])
  }

  /** Whether that call raises. */
  predicate InstantiateRaises(store: seq<PyObject>, t: ObjectId, attr: string)
    requires t < |store|
  {
    CallsInstantiate(store, t, attr) && Raises(store[t].instantiateHook)
  }

  predicate DestroyRaises(store: seq<PyObject>, t: ObjectId)
    requires t < |store|
  {
    HasDestroy(store[t]) && Raises(store[t].destroyHook)
  }

  /** The targets whose `instantiate` is called, in list order. */
  function WithInstantiate(store: seq<PyObject>, targets: seq<ObjectId>, attr: string): seq<ObjectId>
    requires ValidTargets(targets, store)
    decreases |targets|
  {
    if targets == [] then []
    else
      var last := |targets| - 1;
      WithInstantiate(store, targets[..last], attr)
        + (if CallsInstantiate(store, targets[last], attr) then [targets[last]] else [])
  }

  /** The targets that have a callable `destroy`, in list order. */
  function WithDestroy(store: seq<PyObject>, targets: seq<ObjectId>): seq<ObjectId>
    requires ValidTargets(targets, store)
    decreases |targets|
  {
    if targets == [] then []
    else
      var last := |targets| - 1;
      WithDestroy(store, targets[..last]) + (if HasDestroy(store[targets[last]]) then [targets[last]] else [])
  }

  /** The targets of the `setattr` calls in a trace, in order. */
  function Setters(calls: seq<Call>): seq<ObjectId>
    decreases |calls|
  {
    if calls == [] then []
    else
      var last := |calls| - 1;
      Setters(calls[..last]) + (if calls[last].SetAttr? then [calls[last].target] else [])
  }

  /** The targets of the `instantiate` calls in a trace, in order. */
  function Instantiated(calls: seq<Call>): seq<ObjectId>
    decreases |calls|
  {
    if calls == [] then []
    else
      var last := |calls| - 1;
      Instantiated(calls[..last]) + (if calls[last].InstantiateCalled? then [calls[last].target] else [])
  }

  /** The targets of the `destroy` calls in a trace, in order. */
  function Destroyed(calls: seq<Call>): seq<ObjectId>
    decreases |calls|
  {
    if calls == [] then []
    else
      var last := |calls| - 1;
      Destroyed(calls[..last]) + (if calls[last].DestroyCalled? then [calls[last].target] else [])
  }

  // ---- Properties of instantiate ----

  /** `instantiate` writes only the attribute `attr`, only on the listed objects, and
      never changes how an object's methods behave. */
  lemma {:induction false} InstantiateFrame(store: seq<PyObject>, targets: seq<ObjectId>, attr: string, v: real)
    requires ValidTargets(targets, store)
    ensures var r := InstantiateRun(store, targets, attr, v);
      forall id :: 0 <= id < |store| ==>
        && r.store[id].instantiateHook == store[id].instantiateHook
        && r.store[id].destroyHook == store[id].destroyHook
        && r.store[id].attrs - {attr} == store[id].attrs - {attr}
        && (id !in targets ==> r.store[id] == store[id])
    decreases |targets|
  {
    if targets != [] {
      var last := |targets| - 1;
      InstantiateFrame(store, targets[..last], attr, v);
      var o := InstantiateRun(store, targets[..last], attr, v);
      forall id | 0 <= id < |store|
        ensures InstantiateRun(store, targets, attr, v).store[id].attrs - {attr} == store[id].attrs - {attr}
      {
        if id == targets[last] && o.failure.None? {
          assert o.store[id].attrs[attr := v] - {attr} == o.store[id].attrs - {attr};
        }
      }
    }
  }

  /** After a run that raised nothing, every listed object has attribute `attr` equal to `v`. */
  lemma {:induction false} InstantiateSetsAll(store: seq<PyObject>, targets: seq<ObjectId>, attr: string, v: real)
    requires ValidTargets(targets, store)
    ensures var r := InstantiateRun(store, targets, attr, v);
      r.failure.None? ==>
        forall k :: 0 <= k < |targets| ==> attr in r.store[targets[k]].attrs && r.store[targets[k]].attrs[attr] == v
    decreases |targets|
  {
    if targets != [] {
      var last := |targets| - 1;
      InstantiateSetsAll(store, targets[..last], attr, v);
      var r := InstantiateRun(store, targets, attr, v);
      if r.failure.None? {
        forall k | 0 <= k < |targets|
          ensures attr in r.store[targets[k]].attrs && r.store[targets[k]].attrs[attr] == v
        {
          if k < last {
            assert targets[..last][k] == targets[k];
          }
        }
      }
    }
  }

  /** After any prefix of the run, the object `t` (with `attr` freshly written) has a
      callable `instantiate` exactly when `CallsInstantiate` says so of the original objects. */
  lemma CallableAfterRun(store: seq<PyObject>, targets: seq<ObjectId>, attr: string, v: real, t: ObjectId)
    requires ValidTargets(targets, store)
    requires t < |store|
    ensures var o := InstantiateRun(store, targets, attr, v);
      && o.store[t].instantiateHook == store[t].instantiateHook
      && (HasInstantiate(o.store[t].(attrs := o.store[t].attrs[attr := v])) <==> CallsInstantiate(store, t, attr))
  {
    InstantiateFrame(store, targets, attr, v);
    var o := InstantiateRun(store, targets, attr, v);
    assert "instantiate" != attr ==> ("instantiate" in o.store[t].attrs <==> "instantiate" in o.store[t].attrs - {attr});
    assert "instantiate" != attr ==> ("instantiate" in store[t].attrs <==> "instantiate" in store[t].attrs - {attr});
  }

  /** What one step that raised nothing before adds to the trace. */
  lemma StepCalls(o: Outcome, t: ObjectId, attr: string, v: real)
    requires t < |o.store|
    requires o.failure.None?
    ensures var r := InstantiateStep(o, t, attr, v);
      var called := HasInstantiate(o.store[t].(attrs := o.store[t].attrs[attr := v]));
      && r.calls == o.calls + [SetAttr(t, attr, v)] + (if called then [InstantiateCalled(t)] else [])
      && Setters(r.calls) == Setters(o.calls) + [t]
      && Instantiated(r.calls) == Instantiated(o.calls) + (if called then [t] else [])
      && Destroyed(r.calls) == Destroyed(o.calls)
  {
    var obj := o.store[t].(attrs := o.store[t].attrs[attr := v]);
    var c1 := o.calls + [SetAttr(t, attr, v)];
    assert c1[..|c1| - 1] == o.calls;
    if HasInstantiate(obj) {
      var c2 := c1 + [InstantiateCalled(t)];
      assert c2[..|c2| - 1] == c1;
    }
  }

  /** A run raises nothing exactly when no listed object's `instantiate` raises. */
  lemma {:induction false} InstantiateSucceeds(store: seq<PyObject>, targets: seq<ObjectId>, attr: string, v: real)
    requires ValidTargets(targets, store)
    ensures InstantiateRun(store, targets, attr, v).failure.None?
        <==> forall k :: 0 <= k < |targets| ==> !InstantiateRaises(store, targets[k], attr)
    decreases |targets|
  {
    if targets != [] {
      var last := |targets| - 1;
      var prefix := targets[..last];
      InstantiateSucceeds(store, prefix, attr, v);
      CallableAfterRun(store, prefix, attr, v, targets[last]);
      assert forall k :: 0 <= k < last ==> prefix[k] == targets[k];
    }
  }

  /** Objects are handled in list order: the `setattr` calls name the listed objects in
      order, and no `destroy` is called. */
  lemma {:induction false} InstantiateSetters(store: seq<PyObject>, targets: seq<ObjectId>, attr: string, v: real)
    requires ValidTargets(targets, store)
    ensures var r := InstantiateRun(store, targets, attr, v);
      r.failure.None? ==> Setters(r.calls) == targets && Destroyed(r.calls) == []
    decreases |targets|
  {
    if targets != [] {
      var last := |targets| - 1;
      var prefix := targets[..last];
      InstantiateSetters(store, prefix, attr, v);
      var o := InstantiateRun(store, prefix, attr, v);
      if o.failure.None? {
        StepCalls(o, targets[last], attr, v);
        assert prefix + [targets[last]] == targets;
      }
    }
  }

  /** `instantiate` is called on exactly the listed objects that have a callable one,
      in list order; the others only get the attribute. */
  lemma {:induction false} InstantiateInvocations(store: seq<PyObject>, targets: seq<ObjectId>, attr: string, v: real)
    requires ValidTargets(targets, store)
    ensures var r := InstantiateRun(store, targets, attr, v);
      r.failure.None? ==> Instantiated(r.calls) == WithInstantiate(store, targets, attr)
    decreases |targets|
  {
    if targets != [] {
      var last := |targets| - 1;
      var prefix := targets[..last];
      InstantiateInvocations(store, prefix, attr, v);
      var o := InstantiateRun(store, prefix, attr, v);
      if o.failure.None? {
        CallableAfterRun(store, prefix, attr, v, targets[last]);
        StepCalls(o, targets[last], attr, v);
      }
    }
  }

  /** Every `instantiate` call in `calls` comes right after a `setattr` of `attr` to `v`
      on the same object. */
  predicate SetPrecedesInstantiate(calls: seq<Call>, attr: string, v: real) {
    forall i :: 0 <= i < |calls| && calls[i].InstantiateCalled? ==>
      0 < i && calls[i - 1] == SetAttr(calls[i].target, attr, v)
  }

  /** Each `instantiate` call comes right after the `setattr` on the same object. */
  lemma {:induction false} SetBeforeInstantiate(store: seq<PyObject>, targets: seq<ObjectId>, attr: string, v: real)
    requires ValidTargets(targets, store)
    ensures SetPrecedesInstantiate(InstantiateRun(store, targets, attr, v).calls, attr, v)
    decreases |targets|
  {
    if targets != [] {
      var last := |targets| - 1;
      SetBeforeInstantiate(store, targets[..last], attr, v);
      var o := InstantiateRun(store, targets[..last], attr, v);
      if o.failure.None? {
        StepCalls(o, targets[last], attr, v);
        var r := InstantiateRun(store, targets, attr, v);
        forall i | 0 <= i < |r.calls| && r.calls[i].InstantiateCalled?
          ensures 0 < i && r.calls[i - 1] == SetAttr(r.calls[i].target, attr, v)
        {
          if i < |o.calls| {
            assert r.calls[i] == o.calls[i];
            assert 0 < i && o.calls[i - 1] == SetAttr(o.calls[i].target, attr, v);
            assert r.calls[i - 1] == o.calls[i - 1];
          } else {
            assert i == |o.calls| + 1;
          }
        }
      }
    }
  }

  /** After an exception, no later object is touched: the run over the whole list is
      the run over the prefix that raised. */
  lemma {:induction false} InstantiateStops(store: seq<PyObject>, targets: seq<ObjectId>, attr: string, v: real, j: nat)
    requires ValidTargets(targets, store)
    requires j <= |targets|
    requires InstantiateRun(store, targets[..j], attr, v).failure.Some?
    ensures InstantiateRun(store, targets, attr, v) == InstantiateRun(store, targets[..j], attr, v)
    decreases |targets|
  {
    if j < |targets| {
      var last := |targets| - 1;
      assert targets[..last][..j] == targets[..j];
      InstantiateStops(store, targets[..last], attr, v, j);
    } else {
      assert targets[..j] == targets;
    }
  }

  /** A prefix in which no `instantiate` raises runs to its end. */
  lemma PrefixSucceeds(store: seq<PyObject>, targets: seq<ObjectId>, attr: string, v: real, k: nat)
    requires ValidTargets(targets, store)
    requires k <= |targets|
    requires forall j :: 0 <= j < k ==> !InstantiateRaises(store, targets[j], attr)
    ensures ValidTargets(targets[..k], store)
    ensures InstantiateRun(store, targets[..k], attr, v).failure.None?
  {
    assert forall j :: 0 <= j < k ==> targets[..k][j] == targets[j];
    InstantiateSucceeds(store, targets[..k], attr, v);
  }

  /** The step at the first raising object ends the run with that object's exception. */
  lemma RaiseAt(store: seq<PyObject>, targets: seq<ObjectId>, attr: string, v: real, k: nat)
    requires ValidTargets(targets, store)
    requires k < |targets|
    requires forall j :: 0 <= j < k ==> !InstantiateRaises(store, targets[j], attr)
    requires InstantiateRaises(store, targets[k], attr)
    ensures var r := InstantiateRun(store, targets[..k + 1], attr, v);
      && r.failure == RaisedBy(store[targets[k]].instantiateHook, CannotInstantiate(targets[k]), targets[k])
      && Setters(r.calls) == targets[..k + 1]
  {
    var prefix := targets[..k];
    assert targets[..k + 1][..k] == prefix;
    assert targets[..k + 1] == prefix + [targets[k]];
    PrefixSucceeds(store, targets, attr, v, k);
    InstantiateSetters(store, prefix, attr, v);
    CallableAfterRun(store, prefix, attr, v, targets[k]);
    StepCalls(InstantiateRun(store, prefix, attr, v), targets[k], attr, v);
  }

  /** If object `k` is the first whose `instantiate` raises, the run ends with that
      exception (wrapped when it is a `TypeError`) and no object after `k` is reached. */
  lemma FirstRaiseAborts(store: seq<PyObject>, targets: seq<ObjectId>, attr: string, v: real, k: nat)
    requires ValidTargets(targets, store)
    requires k < |targets|
    requires forall j :: 0 <= j < k ==> !InstantiateRaises(store, targets[j], attr)
    requires InstantiateRaises(store, targets[k], attr)
    ensures var r := InstantiateRun(store, targets, attr, v);
      && r.failure == RaisedBy(store[targets[k]].instantiateHook, CannotInstantiate(targets[k]), targets[k])
      && Setters(r.calls) == targets[..k + 1]
      && (forall id :: 0 <= id < |store| && id !in targets[..k + 1] ==> r.store[id] == store[id])
  {
    RaiseAt(store, targets, attr, v, k);
    InstantiateFrame(store, targets[..k + 1], attr, v);
    InstantiateStops(store, targets, attr, v, k + 1);
  }

  /** ... and there is no rollback: objects `0..k` keep the new attribute. */
  lemma FirstRaiseKeepsWrites(store: seq<PyObject>, targets: seq<ObjectId>, attr: string, v: real, k: nat)
    requires ValidTargets(targets, store)
    requires k < |targets|
    requires forall j :: 0 <= j < k ==> !InstantiateRaises(store, targets[j], attr)
    requires InstantiateRaises(store, targets[k], attr)
    ensures var r := InstantiateRun(store, targets, attr, v);
      forall j :: 0 <= j <= k ==> attr in r.store[targets[j]].attrs && r.store[targets[j]].attrs[attr] == v
  {
    var prefix := targets[..k];
    assert targets[..k + 1][..k] == prefix;
    PrefixSucceeds(store, targets, attr, v, k);
    InstantiateSetsAll(store, prefix, attr, v);
    RaiseAt(store, targets, attr, v, k);
    InstantiateStops(store, targets, attr, v, k + 1);
    var o := InstantiateRun(store, prefix, attr, v);
    var r := InstantiateRun(store, targets[..k + 1], attr, v);
    forall j | 0 <= j <= k
      ensures attr in r.store[targets[j]].attrs && r.store[targets[j]].attrs[attr] == v
    {
      if j < k {
        assert prefix[j] == targets[j];
        assert attr in o.store[prefix[j]].attrs;
      }
    }
  }

  // ---- Properties of destroy ----

  /** `destroy` calls `destroy` on exactly the objects that have one, in list order,
      writes no attribute, needs no value, and raises nothing exactly when none of
      those calls raises. */
  lemma {:induction false} DestroyCalls(store: seq<PyObject>, targets: seq<ObjectId>)
    requires ValidTargets(targets, store)
    ensures var r := DestroyRun(store, targets);
      && (forall i :: 0 <= i < |r.calls| ==> r.calls[i].DestroyCalled?)
      && (r.failure.None? <==> forall k :: 0 <= k < |targets| ==> !DestroyRaises(store, targets[k]))
      && (r.failure.None? ==> Destroyed(r.calls) == WithDestroy(store, targets))
    decreases |targets|
  {
    if targets != [] {
      var last := |targets| - 1;
      var prefix := targets[..last];
      DestroyCalls(store, prefix);
      var o := DestroyRun(store, prefix);
      assert forall k :: 0 <= k < last ==> prefix[k] == targets[k];
      if o.failure.None? && HasDestroy(store[targets[last]]) {
        var c := o.calls + [DestroyCalled(targets[last])];
        assert c[..|c| - 1] == o.calls;
      }
      assert prefix + [targets[last]] == targets;
    }
  }

  /** If object `k` is the first whose `destroy` raises, the run ends with that
      exception (a `TypeError` becomes `CannotDestroy`, anything else propagates), after
      calling `destroy` on exactly the objects `0..k` that have one. */
  lemma FirstDestroyRaiseAborts(store: seq<PyObject>, targets: seq<ObjectId>, k: nat)
    requires ValidTargets(targets, store)
    requires k < |targets|
    requires forall j :: 0 <= j < k ==> !DestroyRaises(store, targets[j])
    requires DestroyRaises(store, targets[k])
    ensures var r := DestroyRun(store, targets);
      && r.failure == RaisedBy(store[targets[k]].destroyHook, CannotDestroy(targets[k]), targets[k])
      && Destroyed(r.calls) == WithDestroy(store, targets[..k + 1])
  {
    var prefix := targets[..k];
    var t := targets[k];
    assert forall j :: 0 <= j < k ==> prefix[j] == targets[j];
    DestroyCalls(store, prefix);
    var o := DestroyRun(store, prefix);
    assert targets[..k + 1][..k] == prefix;
    var r := DestroyRun(store, targets[..k + 1]);
    assert r == DestroyStep(o, t);
    var c := o.calls + [DestroyCalled(t)];
    assert r.calls == c;
    assert c[..|c| - 1] == o.calls;
    assert Destroyed(c) == Destroyed(o.calls) + [t];
    DestroyStops(store, targets, k + 1);
  }

  /** `instantiate` ends with no exception, a wrapped `TypeError` or another exception
      of an object's own `instantiate`, and makes at most two calls per listed object. */
  lemma {:induction false} InstantiateFailureKinds(store: seq<PyObject>, targets: seq<ObjectId>, attr: string, v: real)
    requires ValidTargets(targets, store)
    ensures var r := InstantiateRun(store, targets, attr, v);
      && (r.failure.None? || r.failure.value.CannotInstantiate? || r.failure.value.Raised?)
      && |r.calls| <= 2 * |targets|
    decreases |targets|
  {
    if targets != [] {
      var last := |targets| - 1;
      InstantiateFailureKinds(store, targets[..last], attr, v);
      var o := InstantiateRun(store, targets[..last], attr, v);
      if o.failure.None? {
        StepCalls(o, targets[last], attr, v);
      }
    }
  }

  /** `destroy` ends with no exception, a wrapped `TypeError` or another exception of an
      object's own `destroy`, and makes at most one call per listed object. */
  lemma {:induction false} DestroyFailureKinds(store: seq<PyObject>, targets: seq<ObjectId>)
    requires ValidTargets(targets, store)
    ensures var r := DestroyRun(store, targets);
      && (r.failure.None? || r.failure.value.CannotDestroy? || r.failure.value.Raised?)
      && |r.calls| <= |targets|
    decreases |targets|
  {
    if targets != [] {
      DestroyFailureKinds(store, targets[..|targets| - 1]);
    }
  }

  // ---- The objects and the parameter classes ----

  /** The Python objects the parameters write to, and the trace of calls made on them. */
  class Heap {
    var store: seq<PyObject>
    var calls: seq<Call>

    constructor (store: seq<PyObject>)
      ensures this.store == store && calls == []
    {
      this.store := store;
      calls := [];
    }
  }

  /** `PyParameter` (parameters.py:20-32): stores its arguments; `instantiate` and
      `destroy` do nothing. */
  class PyParameter {
    const name: string
    var value: Option<real>
    var frozen: bool
    var bounds: Option<(real, real)>
    const paramName: string

    constructor (name: string, value: Option<real>, frozen: bool, bounds: Option<(real, real)>, paramName: string)
      ensures this.name == name && this.value == value && this.frozen == frozen
      ensures this.bounds == bounds && this.paramName == paramName
    {
      this.name := name;
      this.value := value;
      this.frozen := frozen;
      this.bounds := bounds;
      this.paramName := paramName;
    }

    method Instantiate(heap: Heap)
      ensures heap.store == old(heap.store) && heap.calls == old(heap.calls)
    {
    }

    method Destroy(heap: Heap)
      ensures heap.store == old(heap.store) && heap.calls == old(heap.calls)
    {
    }
  }

  /** `PyObjectParameter` (parameters.py:44-80). */
  class PyObjectParameter {
    const name: string
    var value: Option<real>
    var frozen: bool
    var bounds: Option<(real, real)>
    const paramName: string
    const pyObjects: seq<ObjectId>

    constructor (name: string, value: Option<real>, frozen: bool, bounds: Option<(real, real)>,
                 paramName: string, pyObjects: seq<ObjectId>)
      ensures this.name == name && this.value == value && this.frozen == frozen
      ensures this.bounds == bounds && this.paramName == paramName && this.pyObjects == pyObjects
    {
      this.name := name;
      this.value := value;
      this.frozen := frozen;
      this.bounds := bounds;
      this.paramName := paramName;
      this.pyObjects := pyObjects;
    }

    /** Writes `value` into attribute `paramName` of each object in turn and calls the
        object's own `instantiate` when it has one; refuses up front without a value. */
    method Instantiate(heap: Heap) returns (failure: Option<Failure>)
      requires ValidTargets(pyObjects, heap.store)
      modifies heap
      ensures value.None? ==> failure == Some(MissingValue(name)) && heap.store == old(heap.store) && heap.calls == old(heap.calls)
      ensures var r := InstantiateSpec(name, value, paramName, pyObjects, old(heap.store));
        heap.store == r.store && heap.calls == old(heap.calls) + r.calls && failure == r.failure
    {
      if value.None? {
        return Some(MissingValue(name));
      }
      var v := value.value;
      ghost var store0 := heap.store;
      ghost var calls0 := heap.calls;
      var i := 0;
      while i < |pyObjects|
        invariant 0 <= i <= |pyObjects|
        invariant var r := InstantiateRun(store0, pyObjects[..i], paramName, v);
          heap.store == r.store && heap.calls == calls0 + r.calls && r.failure.None?
      {
        var t := pyObjects[i];
        ghost var prev := InstantiateRun(store0, pyObjects[..i], paramName, v);
        assert pyObjects[..i + 1][..i] == pyObjects[..i];
        ghost var next := InstantiateStep(prev, t, paramName, v);
        assert next == InstantiateRun(store0, pyObjects[..i + 1], paramName, v);
        var obj := heap.store[t];
        obj := obj.(attrs := obj.attrs[paramName := v]);
        heap.store := heap.store[t := obj];
        heap.calls := heap.calls + [SetAttr(t, paramName, v)];
        if HasInstantiate(obj) {
          heap.calls := heap.calls + [InstantiateCalled(t)];
          match obj.instantiateHook
          case RaisesTypeError =>
            assert next.failure == Some(CannotInstantiate(t));
            InstantiateStops(store0, pyObjects, paramName, v, i + 1);
            return Some(CannotInstantiate(t));
          case RaisesOther =>
            assert next.failure == Some(Raised(t));
            InstantiateStops(store0, pyObjects, paramName, v, i + 1);
            return Some(Raised(t));
          case _ =>
        }
        assert heap.store == next.store && heap.calls == calls0 + next.calls;
        i := i + 1;
      }
      assert pyObjects[..i] == pyObjects;
      return None;
    }

    /** Calls `destroy` on each object that has one; needs no value and writes nothing. */
    method Destroy(heap: Heap) returns (failure: Option<Failure>)
      requires ValidTargets(pyObjects, heap.store)
      modifies heap
      ensures var r := DestroyRun(old(heap.store), pyObjects);
        heap.store == old(heap.store) && heap.calls == old(heap.calls) + r.calls && failure == r.failure
    {
      ghost var calls0 := heap.calls;
      var i := 0;
      while i < |pyObjects|
        invariant 0 <= i <= |pyObjects|
        invariant heap.store == old(heap.store)
        invariant var r := DestroyRun(heap.store, pyObjects[..i]);
          heap.calls == calls0 + r.calls && r.failure.None?
      {
        var t := pyObjects[i];
        assert pyObjects[..i + 1][..i] == pyObjects[..i];
        ghost var prev := DestroyRun(heap.store, pyObjects[..i]);
        ghost var next := DestroyStep(prev, t);
        assert next == DestroyRun(heap.store, pyObjects[..i + 1]);
        var obj := heap.store[t];
        if HasDestroy(obj) {
          heap.calls := heap.calls + [DestroyCalled(t)];
          assert heap.calls == calls0 + next.calls;
          match obj.destroyHook
          case RaisesTypeError =>
            DestroyStops(heap.store, pyObjects, i + 1);
            return Some(CannotDestroy(t));
          case RaisesOther =>
            DestroyStops(heap.store, pyObjects, i + 1);
            return Some(Raised(t));
          case _ =>
        }
        i := i + 1;
      }
      assert pyObjects[..i] == pyObjects;
      return None;
    }
  }

  lemma {:induction false} DestroyStops(store: seq<PyObject>, targets: seq<ObjectId>, j: nat)
    requires ValidTargets(targets, store)
    requires j <= |targets|
    requires DestroyRun(store, targets[..j]).failure.Some?
    ensures DestroyRun(store, targets) == DestroyRun(store, targets[..j])
    decreases |targets|
  {
    if j < |targets| {
      var last := |targets| - 1;
      assert targets[..last][..j] == targets[..j];
      DestroyStops(store, targets[..last], j);
    } else {
      assert targets[..j] == targets;
    }
  }
}
