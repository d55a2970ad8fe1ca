/**
 * runx/meter.py: running meters. `AverageMeter` keeps a count and a running
 * sum; `MovingAverageMeter` keeps an exponential moving average. A value is a
 * number, a list or a dict; later values are folded in element by element.
 * Arithmetic is on reals.
 */
module Meter {
  import opened Wrappers
  import opened OrderedDicts

  /** An element of a list or dict handed to `add`: a number, or a one-element tensor. */
  datatype Elem = Number(x: real) | Tensor(item: real)

  /** A value handed to `add`. */
  datatype Raw = RawScalar(x: real) | RawList(elems: seq<Elem>) | RawDict(entries: seq<(string, Elem)>)

  /** A value after `check_type`, the form the meters store. */
  datatype Value = Scalar(x: real) | List(xs: seq<real>) | Dict(entries: seq<(string, real)>)

  /** The exceptions `add` and `value` can raise. */
  datatype Error = TypeError | IndexError | KeyError

  /** The state of a meter after an operation, and what it raised, if anything. */
  datatype Step<S> = Step(state: S, error: Option<Error>)

  /** `v.item()` for a tensor; a plain number stays as it is. */
  function ItemOf(e: Elem): real
  {
    match e
    case Number(x) => x
    case Tensor(item) => item
  }

  /** A dict value has unique keys, as every Python dict does. */
  ghost predicate WellFormed(v: Raw)
  {
    v.RawDict? ==> UniqueKeys(v.entries)
  }

  /** A stored value whose dict, if it is one, has unique keys. */
  ghost predicate Proper(v: Value)
  {
    v.Dict? ==> UniqueKeys(v.entries)
  }

  /** What `check_type` returns for `v`. */
  function Normalized(v: Raw): Value
  {
    match v
    case RawScalar(x) => Scalar(x)
    case RawList(es) => List(seq(|es|, i requires 0 <= i < |es| => ItemOf(es[i])))
    case RawDict(es) => Dict(seq(|es|, i requires 0 <= i < |es| => (es[i].0, ItemOf(es[i].1))))
  }

  /** Two sequences of items with the same keys in the same order. */
  lemma SameKeys<V, W>(a: seq<(string, V)>, b: seq<(string, W)>)
    requires |a| == |b| && forall i :: 0 <= i < |a| ==> a[i].0 == b[i].0
    ensures Keys(a) == Keys(b)
  {
    forall i | 0 <= i < |a| ensures Keys(a)[i] == Keys(b)[i] {
      KeysAt(a, i);
      KeysAt(b, i);
    }
  }

  /** `check_type`: converts the tensor elements of a list or dict with `.item()`. */
  method CheckType(value: Raw) returns (r: Value)
    requires WellFormed(value)
    ensures r == Normalized(value) && Proper(r)
    ensures value.RawScalar? ==> r == Scalar(value.x)
    ensures value.RawList? ==> r.List? && |r.xs| == |value.elems|
    ensures value.RawList? ==> forall i :: 0 <= i < |r.xs| ==>
      r.xs[i] == ItemOf(value.elems[i]) && (value.elems[i].Number? ==> r.xs[i] == value.elems[i].x)
    ensures value.RawDict? ==> r.Dict? && Keys(r.entries) == Keys(value.entries)
    ensures value.RawDict? ==> forall i :: 0 <= i < |r.entries| ==>
      r.entries[i] == (value.entries[i].0, ItemOf(value.entries[i].1))
  {
    match value {
      case RawScalar(x) =>
        r := Scalar(x);
      case RawList(es) =>
        var out: seq<real> := [];
        for i := 0 to |es|
          invariant out == seq(i, j requires 0 <= j < i => ItemOf(es[j]))
        {
          match es[i] {
            case Tensor(item) => out := out + [item];
            case Number(x) => out := out + [x];
          }
        }
        r := List(out);
      case RawDict(es) =>
        var out: seq<(string, real)> := [];
        for i := 0 to |es|
          invariant out == seq(i, j requires 0 <= j < i => (es[j].0, ItemOf(es[j].1)))
        {
          var (k, e) := es[i];
          UniquePrefix(es, i);
          SameKeys(out, es[..i]);
          PutKeys(out, k, ItemOf(e));
          out := Put(out, k, ItemOf(e));
        }
        r := Dict(out);
        SameKeys(out, es);
        assert UniqueKeys(out) by {
          forall i, j | 0 <= i < j < |out| ensures out[i].0 != out[j].0 {
            assert out[i].0 == es[i].0 && out[j].0 == es[j].0;
          }
        }
    }
  }

  // ---------------------------------------------------------------------------
  // AverageMeter
  // ---------------------------------------------------------------------------

  /** The fields of an `AverageMeter`: `count` and `sum` (`None` until the first add). */
  datatype AvgState = AvgState(count: nat, sum: Option<Value>)

  /** The state `reset` establishes. */
  const AvgReset: AvgState := AvgState(0, None)

  /** The invariant of the meter: it holds a sum exactly when it has counted something. */
  ghost predicate AvgValid(st: AvgState)
  {
    (st.count == 0 <==> st.sum.None?) && (st.sum.Some? ==> Proper(st.sum.value))
  }

  /** `sum[k] += v[k]` for every index `k` of `v`. */
  function AddPrefix(s: seq<real>, v: seq<real>): (r: seq<real>)
    requires |v| <= |s|
  {
    seq(|s|, i requires 0 <= i < |s| => if i < |v| then s[i] + v[i] else s[i])
  }

  /**
   * `for k, v in value.items(): sum[k] += v` on a dict sum: adds item by item
   * and stops at the first key the sum lacks, reporting whether all were present.
   */
  function AccumulateDict(s: seq<(string, real)>, es: seq<(string, real)>): (r: (seq<(string, real)>, bool))
    decreases |es|
  {
    if es == [] then (s, true)
    else
      match Get(s, es[0].0)
      case None => (s, false)
      case Some(t) => AccumulateDict(Put(s, es[0].0, t + es[0].1), es[1..])
  }

  /** Folding a dict into a dict sum keeps the sum's keys and their order. */
  lemma {:induction false} AccumulateDictKeys(s: seq<(string, real)>, es: seq<(string, real)>)
    requires UniqueKeys(s)
    ensures Keys(AccumulateDict(s, es).0) == Keys(s) && UniqueKeys(AccumulateDict(s, es).0)
    decreases |es|
  {
    if es != [] {
      match Get(s, es[0].0)
      case None =>
      case Some(t) =>
        PutKeys(s, es[0].0, t + es[0].1);
        PutUnique(s, es[0].0, t + es[0].1);
        AccumulateDictKeys(Put(s, es[0].0, t + es[0].1), es[1..]);
    }
  }

  /** Every key of a non-empty dict is in `ks` exactly when its first key and all keys of its tail are. */
  lemma AllKeysIn(es: seq<(string, real)>, ks: seq<string>)
    requires es != []
    ensures (forall i :: 0 <= i < |es| ==> es[i].0 in ks)
            <==> es[0].0 in ks && forall i :: 0 <= i < |es[1..]| ==> es[1..][i].0 in ks
  {
    assert forall i :: 1 <= i < |es| ==> es[i] == es[1..][i - 1];
  }

  /** A dict sum succeeds exactly when every key of the value is already in the sum. */
  lemma {:induction false} AccumulateDictSucceeds(s: seq<(string, real)>, es: seq<(string, real)>)
    requires UniqueKeys(s)
    ensures AccumulateDict(s, es).1 <==> forall i :: 0 <= i < |es| ==> es[i].0 in Keys(s)
    decreases |es|
  {
    if es != [] {
      var k := es[0].0;
      AllKeysIn(es, Keys(s));
      if k in Keys(s) {
        var t := Get(s, k).value;
        var s' := Put(s, k, t + es[0].1);
        assert AccumulateDict(s, es) == AccumulateDict(s', es[1..]);
        PutKeys(s, k, t + es[0].1);
        PutUnique(s, k, t + es[0].1);
        AccumulateDictSucceeds(s', es[1..]);
      } else {
        assert !AccumulateDict(s, es).1;
      }
    }
  }

  /** The old sum `t` for a key plus the value's entry for it, if any. */
  function Increased(t: Option<real>, x: Option<real>): Option<real>
  {
    match t
    case None => None
    case Some(a) => Some(match x case None => a case Some(b) => a + b)
  }

  /** The first key of a dict with unique keys does not occur again. */
  lemma HeadNotInTail<V>(es: seq<(string, V)>)
    requires UniqueKeys(es) && es != []
    ensures Get(es[1..], es[0].0) == None
  {
    forall i | 0 <= i < |es[1..]| ensures Keys(es[1..])[i] != es[0].0 {
      KeysAt(es[1..], i);
      assert es[1..][i] == es[i + 1];
    }
  }

  /**
   * On success, each key of the sum holds its old value plus the value's entry
   * for that key, if it has one; the sum's other keys keep their values.
   */
  lemma {:induction false} AccumulateDictGet(s: seq<(string, real)>, es: seq<(string, real)>, k: string)
    requires UniqueKeys(s) && UniqueKeys(es) && AccumulateDict(s, es).1
    ensures Get(AccumulateDict(s, es).0, k) == Increased(Get(s, k), Get(es, k))
    decreases |es|
  {
    if es != [] {
      var t0 := Get(s, es[0].0).value;
      var s' := Put(s, es[0].0, t0 + es[0].1);
      assert AccumulateDict(s, es) == AccumulateDict(s', es[1..]);
      PutUnique(s, es[0].0, t0 + es[0].1);
      UniqueTail(es);
      PutGet(s, es[0].0, t0 + es[0].1, k);
      AccumulateDictGet(s', es[1..], k);
      if k == es[0].0 {
        HeadNotInTail(es);
      }
    }
  }

  /** The effect of `add` on the sum once the meter has counted something. */
  function AddTo(sum: Option<Value>, v: Value): (r: (Option<Value>, Option<Error>))
  {
    match v
    case List(xs) =>
      if xs == [] then (sum, None)
      else (
        match sum
        case Some(List(s)) =>
          if |xs| <= |s| then (Some(List(AddPrefix(s, xs))), None)
          else (Some(List(AddPrefix(s, xs[..|s|]))), Some(IndexError))
        case Some(Dict(_)) => (sum, Some(KeyError))
        case _ => (sum, Some(TypeError)))
    case Dict(es) =>
      if es == [] then (sum, None)
      else (
        match sum
        case Some(Dict(s)) =>
          var (s', ok) := AccumulateDict(s, es);
          (Some(Dict(s')), if ok then None else Some(KeyError))
        case _ => (sum, Some(TypeError)))
    case Scalar(x) =>
      match sum
      case Some(Scalar(y)) => (Some(Scalar(y + x)), None)
      case _ => (sum, Some(TypeError))
  }

  /** `AverageMeter.add` on a converted value. */
  function AvgAdd(st: AvgState, v: Value): (r: Step<AvgState>)
    ensures r.error.None? ==> r.state.count == st.count + 1
    ensures r.error.Some? ==> r.state.count == st.count
    ensures st.count == 0 ==> r == Step(AvgState(1, Some(v)), None)
    ensures st.count > 0 && v.Scalar? && st.sum.Some? && st.sum.value.Scalar? ==>
      r == Step(AvgState(st.count + 1, Some(Scalar(st.sum.value.x + v.x))), None)
  {
    if st.count == 0 then Step(AvgState(1, Some(v)), None)
    else
      var (sum', err) := AddTo(st.sum, v);
      Step(AvgState(if err.None? then st.count + 1 else st.count, sum'), err)
  }

  /** `for k, v in enumerate(value): sum[k] += v` on a list sum; `ok` is false when it ran past the end of the sum. */
  method AddList(s0: seq<real>, xs: seq<real>) returns (s: seq<real>, ok: bool)
    ensures ok <==> |xs| <= |s0|
    ensures s == AddPrefix(s0, if ok then xs else xs[..|s0|])
  {
    s := s0;
    var k := 0;
    while k < |xs|
      invariant 0 <= k <= |xs| && k <= |s0|
      invariant s == AddPrefix(s0, xs[..k])
    {
      if k >= |s| {
        assert xs[..k] == xs[..|s0|];
        return s, false;
      }
      assert s[k := s[k] + xs[k]] == AddPrefix(s0, xs[..k + 1]);
      s := s[k := s[k] + xs[k]];
      k := k + 1;
    }
    assert xs[..k] == xs;
    ok := true;
  }

  /** `for k, v in value.items(): sum[k] += v` on a dict sum; `ok` is false when it met a key the sum lacks. */
  method AddDict(s0: seq<(string, real)>, es: seq<(string, real)>) returns (s: seq<(string, real)>, ok: bool)
    ensures (s, ok) == AccumulateDict(s0, es)
  {
    s := s0;
    var k := 0;
    while k < |es|
      invariant 0 <= k <= |es|
      invariant AccumulateDict(s0, es) == AccumulateDict(s, es[k..])
    {
      assert es[k..][0] == es[k] && es[k..][1..] == es[k + 1..];
      match Get(s, es[k].0) {
        case None =>
          assert AccumulateDict(s, es[k..]) == (s, false);
          return s, false;
        case Some(t) =>
          assert AccumulateDict(s, es[k..]) == AccumulateDict(Put(s, es[k].0, t + es[k].1), es[k + 1..]);
          s := Put(s, es[k].0, t + es[k].1);
      }
      k := k + 1;
    }
    assert es[k..] == [];
    ok := true;
  }

  /** `add` keeps the meter's invariant, whether it succeeds or raises. */
  lemma AvgAddValid(st: AvgState, v: Value)
    requires AvgValid(st) && Proper(v)
    ensures AvgValid(AvgAdd(st, v).state)
  {
    if st.count > 0 && v.Dict? && v.entries != [] && st.sum.value.Dict? {
      AccumulateDictKeys(st.sum.value.entries, v.entries);
    }
  }

  /** `list` sums: the sum gets longer lists' surplus rejected, and adds pointwise otherwise. */
  lemma AvgAddList(st: AvgState, xs: seq<real>)
    requires AvgValid(st) && st.count > 0 && st.sum.value.List? && xs != []
    ensures var r := AvgAdd(st, List(xs));
      var s := st.sum.value.xs;
      && (r.error.None? <==> |xs| <= |s|)
      && r.state.sum.Some? && r.state.sum.value.List? && |r.state.sum.value.xs| == |s|
      && (forall k :: 0 <= k < |s| ==> r.state.sum.value.xs[k] == if k < |xs| then s[k] + xs[k] else s[k])
  {
  }

  /** `value()`: the sum divided by the count, element by element. */
  function AverageOf(st: AvgState): (r: Result<Value, Error>)
    requires AvgValid(st)
  {
    match st.sum
    case None => Err(TypeError)
    case Some(Scalar(x)) => Ok(Scalar(x / st.count as real))
    case Some(List(s)) => Ok(List(seq(|s|, i requires 0 <= i < |s| => s[i] / st.count as real)))
    case Some(Dict(es)) => Ok(Dict(seq(|es|, i requires 0 <= i < |es| => (es[i].0, es[i].1 / st.count as real))))
  }

  /** The state after `add`ing each of `vs` in turn, starting from `st`. */
  function AvgRun(st: AvgState, vs: seq<Value>): AvgState
    decreases |vs|
  {
    if vs == [] then st else AvgRun(AvgAdd(st, vs[0]).state, vs[1..])
  }

  /** The numbers `xs` as scalar values. */
  function Scalars(xs: seq<real>): (vs: seq<Value>)
  {
    seq(|xs|, i requires 0 <= i < |xs| => Scalar(xs[i]))
  }

  /** v1 + ... + vn. */
  function Total(xs: seq<real>): real
  {
    if xs == [] then 0.0 else xs[0] + Total(xs[1..])
  }

  /** Adding scalars to a scalar sum adds their total and counts each of them. */
  lemma {:induction false} AvgRunScalars(n: nat, t: real, xs: seq<real>)
    requires n > 0
    ensures AvgRun(AvgState(n, Some(Scalar(t))), Scalars(xs)) == AvgState(n + |xs|, Some(Scalar(t + Total(xs))))
    decreases |xs|
  {
    if xs != [] {
      assert Scalars(xs)[0] == Scalar(xs[0]);
      assert Scalars(xs)[1..] == Scalars(xs[1..]);
      AvgRunScalars(n + 1, t + xs[0], xs[1..]);
    }
  }

  /** After n scalar adds v1..vn from a reset meter, `value()` is (v1 + ... + vn) / n. */
  lemma {:induction false} AverageOfScalars(xs: seq<real>)
    requires xs != []
    ensures AvgValid(AvgRun(AvgReset, Scalars(xs)))
    ensures AverageOf(AvgRun(AvgReset, Scalars(xs))) == Ok(Scalar(Total(xs) / |xs| as real))
  {
    assert Scalars(xs)[0] == Scalar(xs[0]);
    assert Scalars(xs)[1..] == Scalars(xs[1..]);
    AvgRunScalars(1, xs[0], xs[1..]);
  }

  /** An `AverageMeter`. */
  class AverageMeter {
    var count: nat
    var sum: Option<Value>

    function State(): AvgState
      reads this
    {
      AvgState(count, sum)
    }

    ghost predicate Valid()
      reads this
    {
      AvgValid(State())
    }

    constructor ()
      ensures Valid() && State() == AvgReset
    {
      count, sum := 0, None;
    }

    /** `reset()`. */
    method Reset()
      modifies this
      ensures Valid() && State() == AvgReset
    {
      count := 0;
      sum := None;
    }

    /**
     * `add(value)`: the first value is copied; later ones are added element by
     * element. A failing add has already updated the elements before the failing one.
     */
    method Add(value: Raw) returns (err: Option<Error>)
      requires Valid() && WellFormed(value)
      modifies this
      ensures Valid()
      ensures Step(State(), err) == AvgAdd(old(State()), Normalized(value))
    {
      var v := CheckType(value);
      AvgAddValid(State(), v);
      if count == 0 {
        sum := Some(v);
        count := count + 1;
        return None;
      }
      match v {
        case List(xs) =>
          if xs != [] {
            if !(sum.Some? && sum.value.List?) {
              err := if sum.Some? && sum.value.Dict? then Some(KeyError) else Some(TypeError);
              return;
            }
            var s, ok := AddList(sum.value.xs, xs);
            sum := Some(List(s));
            if !ok {
              return Some(IndexError);
            }
          }
        case Dict(es) =>
          if es != [] {
            if !(sum.Some? && sum.value.Dict?) {
              return Some(TypeError);
            }
            var s, ok := AddDict(sum.value.entries, es);
            sum := Some(Dict(s));
            if !ok {
              return Some(KeyError);
            }
          }
        case Scalar(x) =>
          if !(sum.Some? && sum.value.Scalar?) {
            return Some(TypeError);
          }
          sum := Some(Scalar(sum.value.x + x));
      }
      count := count + 1;
      err := None;
    }

    /** `value()`: the average so far; raises before the first add. Changes nothing. */
    method Value() returns (r: Result<Value, Error>)
      requires Valid()
      ensures r == AverageOf(State())
    {
      var n := count as real;
      match sum {
        case None =>
          r := Err(TypeError);
        case Some(Scalar(x)) =>
          r := Ok(Scalar(x / n));
        case Some(List(s)) =>
          var out := s;
          for k := 0 to |s|
            invariant |out| == |s|
            invariant forall i :: 0 <= i < |s| ==> out[i] == if i < k then s[i] / n else s[i]
          {
            out := out[k := s[k] / n];
          }
          assert out == seq(|s|, i requires 0 <= i < |s| => s[i] / n);
          r := Ok(List(out));
        case Some(Dict(es)) =>
          var out := es;
          for k := 0 to |es|
            invariant |out| == |es|
            invariant forall i :: 0 <= i < |es| ==> out[i] == if i < k then (es[i].0, es[i].1 / n) else es[i]
          {
            assert UniqueKeys(out) by {
              forall i, j | 0 <= i < j < |out| ensures out[i].0 != out[j].0 {
                assert out[i].0 == es[i].0 && out[j].0 == es[j].0;
              }
            }
            PutAt(out, k, es[k].1 / n);
            out := Put(out, es[k].0, es[k].1 / n);
          }
          assert out == seq(|es|, i requires 0 <= i < |es| => (es[i].0, es[i].1 / n));
          r := Ok(Dict(out));
      }
    }
  }

  // ---------------------------------------------------------------------------
  // MovingAverageMeter
  // ---------------------------------------------------------------------------

  /** The fields of a `MovingAverageMeter` besides `gamma`. */
  datatype MovState = MovState(count: nat, curr: Option<Value>, last: Option<Value>)

  /** The state `reset` establishes. */
  const MovReset: MovState := MovState(0, None, None)

  /** `a` and `b` are the same kind of value, with the same length or the same keys. */
  ghost predicate SameShape(a: Value, b: Value)
  {
    match a
    case Scalar(_) => b.Scalar?
    case List(xs) => b.List? && |b.xs| == |xs|
    case Dict(es) => b.Dict? && Keys(b.entries) == Keys(es) && UniqueKeys(es) && UniqueKeys(b.entries)
  }

  /**
   * The invariant of the meter: the current and the last value are both set
   * exactly when it has counted something, and they have the same shape.
   */
  ghost predicate MovValid(st: MovState)
  {
    && (st.count == 0 <==> st.curr.None?)
    && (st.count == 0 <==> st.last.None?)
    && (st.curr.Some? ==> SameShape(st.curr.value, st.last.value))
  }

  /** `gamma * last + (1.0 - gamma) * x`. */
  function Blend(gamma: real, last: real, x: real): real
  {
    gamma * last + (1.0 - gamma) * x
  }

  /** `curr[k] = gamma * last[k] + (1.0 - gamma) * v[k]` for every index `k` of `v`. */
  function BlendList(gamma: real, curr: seq<real>, last: seq<real>, v: seq<real>): (r: seq<real>)
    requires |v| <= |last| == |curr|
  {
    seq(|curr|, i requires 0 <= i < |curr| => if i < |v| then Blend(gamma, last[i], v[i]) else curr[i])
  }

  /**
   * `curr[k] = gamma * last[k] + (1.0 - gamma) * v` for every item of a dict
   * value, stopping at the first key `last` lacks; reports whether all were present.
   */
  function BlendDict(gamma: real, curr: seq<(string, real)>, last: seq<(string, real)>, es: seq<(string, real)>): (r: (seq<(string, real)>, bool))
    decreases |es|
  {
    if es == [] then (curr, true)
    else
      match Get(last, es[0].0)
      case None => (curr, false)
      case Some(l) => BlendDict(gamma, Put(curr, es[0].0, Blend(gamma, l, es[0].1)), last, es[1..])
  }

  /** Blending into a dict keeps its keys, since every key written is one of `last`'s. */
  lemma {:induction false} BlendDictKeys(gamma: real, curr: seq<(string, real)>, last: seq<(string, real)>, es: seq<(string, real)>)
    requires Keys(curr) == Keys(last) && UniqueKeys(curr)
    ensures Keys(BlendDict(gamma, curr, last, es).0) == Keys(curr)
    ensures UniqueKeys(BlendDict(gamma, curr, last, es).0)
    decreases |es|
  {
    if es != [] {
      match Get(last, es[0].0)
      case None =>
      case Some(l) =>
        var b := Blend(gamma, l, es[0].1);
        PutKeys(curr, es[0].0, b);
        PutUnique(curr, es[0].0, b);
        BlendDictKeys(gamma, Put(curr, es[0].0, b), last, es[1..]);
    }
  }

  /** A dict blend succeeds exactly when every key of the value is a key of `last`. */
  lemma {:induction false} BlendDictSucceeds(gamma: real, curr: seq<(string, real)>, last: seq<(string, real)>, es: seq<(string, real)>)
    ensures BlendDict(gamma, curr, last, es).1 <==> forall i :: 0 <= i < |es| ==> es[i].0 in Keys(last)
    decreases |es|
  {
    if es != [] {
      match Get(last, es[0].0)
      case None =>
      case Some(l) =>
        BlendDictSucceeds(gamma, Put(curr, es[0].0, Blend(gamma, l, es[0].1)), last, es[1..]);
        AllKeysIn(es, Keys(last));
    }
  }

  /** The current entry `c` for a key after blending the value's entry `x` against the last entry `l`. */
  function Blended(gamma: real, c: Option<real>, l: Option<real>, x: Option<real>): Option<real>
  {
    match x
    case None => c
    case Some(v) => match l case None => None case Some(a) => Some(Blend(gamma, a, v))
  }

  /**
   * On success, each key the value has holds gamma * last[k] + (1 - gamma) * v[k];
   * every other key keeps its current entry.
   */
  lemma {:induction false} BlendDictGet(gamma: real, curr: seq<(string, real)>, last: seq<(string, real)>, es: seq<(string, real)>, k: string)
    requires UniqueKeys(curr) && UniqueKeys(es) && BlendDict(gamma, curr, last, es).1
    ensures Get(BlendDict(gamma, curr, last, es).0, k) == Blended(gamma, Get(curr, k), Get(last, k), Get(es, k))
    decreases |es|
  {
    if es != [] {
      var l := Get(last, es[0].0).value;
      var c' := Put(curr, es[0].0, Blend(gamma, l, es[0].1));
      assert BlendDict(gamma, curr, last, es) == BlendDict(gamma, c', last, es[1..]);
      PutUnique(curr, es[0].0, Blend(gamma, l, es[0].1));
      UniqueTail(es);
      PutGet(curr, es[0].0, Blend(gamma, l, es[0].1), k);
      BlendDictGet(gamma, c', last, es[1..], k);
      if k == es[0].0 {
        HeadNotInTail(es);
      }
    }
  }

  /** The effect of `add` on the current value once the meter has counted something. */
  function BlendTo(gamma: real, curr: Value, last: Value, v: Value): (r: (Value, Option<Error>))
    requires SameShape(curr, last)
  {
    match v
    case List(xs) =>
      if xs == [] then (curr, None)
      else (
        match last
        case List(l) =>
          if |xs| <= |l| then (List(BlendList(gamma, curr.xs, l, xs)), None)
          else (List(BlendList(gamma, curr.xs, l, xs[..|l|])), Some(IndexError))
        case Dict(_) => (curr, Some(KeyError))
        case Scalar(_) => (curr, Some(TypeError)))
    case Dict(es) =>
      if es == [] then (curr, None)
      else (
        match last
        case Dict(l) =>
          var (c, ok) := BlendDict(gamma, curr.entries, l, es);
          (Dict(c), if ok then None else Some(KeyError))
        case _ => (curr, Some(TypeError)))
    case Scalar(x) =>
      match last
      case Scalar(l) => (Scalar(Blend(gamma, l, x)), None)
      case _ => (curr, Some(TypeError))
  }

  /**
   * `MovingAverageMeter.add` on a converted value: on success the last value
   * becomes a copy of the current one and the count goes up; on failure the
   * current value keeps the items written before the failing one.
   */
  function MovAdd(gamma: real, st: MovState, v: Value): (r: Step<MovState>)
    requires MovValid(st)
    ensures r.error.None? ==> r.state.count == st.count + 1 && r.state.last == r.state.curr
    ensures r.error.Some? ==> r.state.count == st.count && r.state.last == st.last
    ensures st.count == 0 ==> r == Step(MovState(1, Some(v), Some(v)), None)
    ensures st.count > 0 && v.Scalar? && st.last.value.Scalar? ==>
      r.error.None? && r.state.curr == Some(Scalar(Blend(gamma, st.last.value.x, v.x)))
  {
    if st.count == 0 then Step(MovState(1, Some(v), Some(v)), None)
    else
      var (c, err) := BlendTo(gamma, st.curr.value, st.last.value, v);
      if err.None? then Step(MovState(st.count + 1, Some(c), Some(c)), None)
      else Step(MovState(st.count, Some(c), st.last), err)
  }

  /** `add` keeps the meter's invariant, whether it succeeds or raises. */
  lemma MovAddValid(gamma: real, st: MovState, v: Value)
    requires MovValid(st) && Proper(v)
    ensures MovValid(MovAdd(gamma, st, v).state)
  {
    if st.count > 0 && v.Dict? && v.entries != [] && st.last.value.Dict? {
      BlendDictKeys(gamma, st.curr.value.entries, st.last.value.entries, v.entries);
    }
  }

  /**
   * A dict `add` after the first: it succeeds exactly when every key of the
   * value is in the last value, and then each key the value has becomes
   * gamma * last[k] + (1 - gamma) * v[k] while the others keep their entries.
   */
  lemma MovAddDict(gamma: real, st: MovState, es: seq<(string, real)>, k: string)
    requires MovValid(st) && st.count > 0 && st.last.value.Dict? && es != [] && UniqueKeys(es)
    ensures var r := MovAdd(gamma, st, Dict(es));
      && (r.error.None? <==> forall i :: 0 <= i < |es| ==> es[i].0 in Keys(st.last.value.entries))
      && (r.error.None? ==>
            && r.state.curr.Some? && r.state.curr.value.Dict?
            && Get(r.state.curr.value.entries, k)
               == Blended(gamma, Get(st.curr.value.entries, k), Get(st.last.value.entries, k), Get(es, k)))
  {
    var c, l := st.curr.value.entries, st.last.value.entries;
    var b := BlendDict(gamma, c, l, es);
    assert BlendTo(gamma, st.curr.value, st.last.value, Dict(es)) == (Dict(b.0), if b.1 then None else Some(KeyError));
    assert MovAdd(gamma, st, Dict(es)).error.None? <==> b.1;
    BlendDictSucceeds(gamma, c, l, es);
    if b.1 {
      assert MovAdd(gamma, st, Dict(es)).state.curr == Some(Dict(b.0));
      BlendDictGet(gamma, c, l, es, k);
    }
  }

  /** The state after `add`ing each of `vs` in turn, starting from `st`. */
  function MovRun(gamma: real, st: MovState, vs: seq<Value>): (r: MovState)
    requires MovValid(st) && forall i :: 0 <= i < |vs| ==> Proper(vs[i])
    ensures MovValid(r)
    decreases |vs|
  {
    if vs == [] then st
    else
      MovAddValid(gamma, st, vs[0]);
      MovRun(gamma, MovAdd(gamma, st, vs[0]).state, vs[1..])
  }

  /** A blend with a weight in [0, 1] lies between its two inputs' bounds. */
  lemma BlendBetween(gamma: real, lo: real, hi: real, last: real, x: real)
    requires 0.0 <= gamma <= 1.0 && lo <= last <= hi && lo <= x <= hi
    ensures lo <= Blend(gamma, last, x) <= hi
  {
    assert Blend(gamma, last, x) - lo == gamma * (last - lo) + (1.0 - gamma) * (x - lo);
    assert hi - Blend(gamma, last, x) == gamma * (hi - last) + (1.0 - gamma) * (hi - x);
    NonNegativeProduct(gamma, last - lo);
    NonNegativeProduct(1.0 - gamma, x - lo);
    NonNegativeProduct(gamma, hi - last);
    NonNegativeProduct(1.0 - gamma, hi - x);
  }

  lemma NonNegativeProduct(a: real, b: real)
    requires 0.0 <= a && 0.0 <= b
    ensures 0.0 <= a * b
  {
  }

  /** Scalar adds to a scalar meter keep its current value within the bounds of all values seen. */
  lemma {:induction false} MovRunScalars(gamma: real, lo: real, hi: real, n: nat, c: real, xs: seq<real>)
    requires 0.0 <= gamma <= 1.0 && n > 0 && lo <= c <= hi
    requires forall i :: 0 <= i < |xs| ==> lo <= xs[i] <= hi
    ensures forall i :: 0 <= i < |Scalars(xs)| ==> Proper(Scalars(xs)[i])
    ensures var st := MovRun(gamma, MovState(n, Some(Scalar(c)), Some(Scalar(c))), Scalars(xs));
      && st.count == n + |xs| && st.curr == st.last
      && st.curr.Some? && st.curr.value.Scalar? && lo <= st.curr.value.x <= hi
    decreases |xs|
  {
    if xs != [] {
      assert Scalars(xs)[0] == Scalar(xs[0]);
      assert Scalars(xs)[1..] == Scalars(xs[1..]);
      BlendBetween(gamma, lo, hi, c, xs[0]);
      MovRunScalars(gamma, lo, hi, n + 1, Blend(gamma, c, xs[0]), xs[1..]);
    }
  }

  /**
   * Bounds of the moving average: after scalar adds v1..vn from a reset meter
   * with 0 <= gamma <= 1, `value()` lies between the least and the greatest vi.
   */
  lemma {:induction false} MovingAverageBounded(gamma: real, lo: real, hi: real, xs: seq<real>)
    requires 0.0 <= gamma <= 1.0 && xs != []
    requires forall i :: 0 <= i < |xs| ==> lo <= xs[i] <= hi
    ensures forall i :: 0 <= i < |Scalars(xs)| ==> Proper(Scalars(xs)[i])
    ensures var st := MovRun(gamma, MovReset, Scalars(xs));
      st.count == |xs| && st.curr.Some? && st.curr.value.Scalar? && lo <= st.curr.value.x <= hi
  {
    assert Scalars(xs)[0] == Scalar(xs[0]);
    assert Scalars(xs)[1..] == Scalars(xs[1..]);
    MovRunScalars(gamma, lo, hi, 1, xs[0], xs[1..]);
  }

  /** Adding the same number again and again leaves the moving average at that number. */
  lemma {:induction false} MovingAverageConstant(gamma: real, c: real, xs: seq<real>)
    requires 0.0 <= gamma <= 1.0 && xs != []
    requires forall i :: 0 <= i < |xs| ==> xs[i] == c
    ensures forall i :: 0 <= i < |Scalars(xs)| ==> Proper(Scalars(xs)[i])
    ensures MovRun(gamma, MovReset, Scalars(xs)).curr == Some(Scalar(c))
  {
    MovingAverageBounded(gamma, c, c, xs);
  }

  /** `curr[k] = ...` for every index `k` of a list value; `ok` is false when it ran past the end of `last`. */
  method BlendListInto(gamma: real, c0: seq<real>, last: seq<real>, xs: seq<real>) returns (c: seq<real>, ok: bool)
    requires |c0| == |last|
    ensures ok <==> |xs| <= |last|
    ensures c == BlendList(gamma, c0, last, if ok then xs else xs[..|last|])
  {
    c := c0;
    var k := 0;
    while k < |xs|
      invariant 0 <= k <= |xs| && k <= |last|
      invariant c == BlendList(gamma, c0, last, xs[..k])
    {
      if k >= |last| {
        assert xs[..k] == xs[..|last|];
        return c, false;
      }
      assert c[k := Blend(gamma, last[k], xs[k])] == BlendList(gamma, c0, last, xs[..k + 1]);
      c := c[k := Blend(gamma, last[k], xs[k])];
      k := k + 1;
    }
    assert xs[..k] == xs;
    ok := true;
  }

  /** `curr[k] = ...` for every item of a dict value; `ok` is false when it met a key `last` lacks. */
  method BlendDictInto(gamma: real, c0: seq<(string, real)>, last: seq<(string, real)>, es: seq<(string, real)>) returns (c: seq<(string, real)>, ok: bool)
    ensures (c, ok) == BlendDict(gamma, c0, last, es)
  {
    c := c0;
    var k := 0;
    while k < |es|
      invariant 0 <= k <= |es|
      invariant BlendDict(gamma, c0, last, es) == BlendDict(gamma, c, last, es[k..])
    {
      assert es[k..][0] == es[k] && es[k..][1..] == es[k + 1..];
      match Get(last, es[k].0) {
        case None =>
          return c, false;
        case Some(l) =>
          c := Put(c, es[k].0, Blend(gamma, l, es[k].1));
      }
      k := k + 1;
    }
    assert es[k..] == [];
    ok := true;
  }

  /** A `MovingAverageMeter` with weight `gamma` on the previous value. */
  class MovingAverageMeter {
    const gamma: real
    var currValue: Option<Value>
    var lastValue: Option<Value>
    var count: nat

    function State(): MovState
      reads this
    {
      MovState(count, currValue, lastValue)
    }

    ghost predicate Valid()
      reads this
    {
      MovValid(State())
    }

    /** `MovingAverageMeter(gamma)`; the source's default weight is 0.9. */
    constructor (gamma: real)
      ensures this.gamma == gamma && Valid() && State() == MovReset
    {
      this.gamma := gamma;
      currValue, lastValue, count := None, None, 0;
    }

    /** `reset()`. */
    method Reset()
      modifies this
      ensures Valid() && State() == MovReset
    {
      currValue := None;
      lastValue := None;
      count := 0;
    }

    /** `add(value)`. */
    method Add(value: Raw) returns (err: Option<Error>)
      requires Valid() && WellFormed(value)
      modifies this
      ensures Valid()
      ensures Step(State(), err) == MovAdd(gamma, old(State()), Normalized(value))
    {
      var v := CheckType(value);
      MovAddValid(gamma, State(), v);
      if count == 0 {
        currValue := Some(v);
      } else {
        var curr, last := currValue.value, lastValue.value;
        match v {
          case List(xs) =>
            if xs != [] {
              if !last.List? {
                return if last.Dict? then Some(KeyError) else Some(TypeError);
              }
              var c, ok := BlendListInto(gamma, curr.xs, last.xs, xs);
              currValue := Some(List(c));
              if !ok {
                return Some(IndexError);
              }
            }
          case Dict(es) =>
            if es != [] {
              if !last.Dict? {
                return Some(TypeError);
              }
              var c, ok := BlendDictInto(gamma, curr.entries, last.entries, es);
              currValue := Some(Dict(c));
              if !ok {
                return Some(KeyError);
              }
            }
          case Scalar(x) =>
            if !last.Scalar? {
              return Some(TypeError);
            }
            currValue := Some(Scalar(Blend(gamma, last.x, x)));
        }
      }
      lastValue := currValue;
      count := count + 1;
      err := None;
    }

    /** `value()`: a copy of the current value, `None` before the first add. Changes nothing. */
    method Value() returns (r: Option<Value>)
      requires Valid()
      ensures r == State().curr
      ensures r.None? <==> State().count == 0
    {
      r := currValue;
    }
  }
}
