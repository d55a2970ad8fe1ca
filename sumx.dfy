/**
 * runx/sumx.py: `SumX` collects one record per summarised layer from a
 * forward hook, folds a BatchNorm2d into the Conv2d record before it, and
 * totals parameter and FLOP counts. Tensors are opaque values known by an
 * identity and a shape; the fused weights and biases are symbolic terms.
 */
module SumX {
  import opened Wrappers
  import opened Shapes

  /** The module types summarised unless the caller chooses others. */
  const DefaultSummaryModules: seq<string> :=
    ["Conv2d", "Add", "Linear", "ReLU", "BatchNorm2d", "InstanceNorm2d", "MaxPool2d", "AvgPool2d", "Upsample"]

  /** Which of the classes the hook tests with `isinstance` a module belongs to. */
  datatype Kind = Conv2d | Linear | BatchNorm2d | OtherKind

  /** A parameter tensor: its identity, its size and its `requires_grad` flag. */
  datatype Param = Param(id: nat, shape: seq<nat>, requiresGrad: bool)

  /** An activation tensor: its identity and its size. */
  datatype Tensor = Tensor(id: nat, shape: seq<nat>)

  /**
   * A module as the hook sees it: identity, class name, class, `weight` and
   * `bias` (`None` when absent), and whether it keeps running statistics.
   */
  datatype Module = Module(id: nat, typeName: string, kind: Kind, weight: Option<Param>, bias: Option<Param>, runningStats: bool)

  /** What a module's forward pass returned. */
  datatype Output = Single(t: Tensor) | TupleOut(ts: seq<Tensor>)

  /** A record's weight: the module's own, or a Conv2d weight scaled by the BatchNorm2d with identity `bn`. */
  datatype Weight = Given(p: Param) | Fused(base: Weight, bn: nat)

  /** A record's bias: the module's own, or a Conv2d bias (or none) folded with the BatchNorm2d `bn`. */
  datatype Bias = GivenBias(p: Param) | FusedBias(base: Option<Bias>, bn: nat)

  /** One entry of `self.layers`. `trainable` is `None` when the record has no such key. */
  datatype Layer = Layer(
    name: string, typeName: string, input: Tensor, output: Tensor,
    trainable: Option<bool>, weight: Option<Weight>, bias: Option<Bias>,
    paramNum: nat, flops: nat)

  /** The exceptions the hook can raise. */
  datatype Error = IndexError | KeyError | TypeError | ValueError

  /** `numel()` of an optional parameter, 0 when it is absent. */
  function NumelOf(p: Option<Param>): nat
  {
    if p.Some? then Numel(p.value.shape) else 0
  }

  /** A record has a `trainable` key exactly when it has a weight. */
  ghost predicate ValidLayer(l: Layer)
  {
    l.trainable.Some? <==> l.weight.Some?
  }

  ghost predicate ValidLayers(ls: seq<Layer>)
  {
    forall i :: 0 <= i < |ls| ==> ValidLayer(ls[i])
  }

  /** The FLOPs the hook counts for a weight: by kernel and output size for Conv2d, by matrix size for Linear. */
  function WeightFlops(kind: Kind, out: seq<nat>, w: seq<nat>): (r: Result<nat, Error>)
    ensures r.Err? ==> r.error == ValueError && (kind == Conv2d || kind == Linear)
    ensures kind == Conv2d ==> (r.Ok? <==> |out| == 4 && |w| == 4)
    ensures kind == Linear ==> (r.Ok? <==> |w| == 2)
    ensures kind == Conv2d && r.Ok? ==> r.value == w[0] * out[2] * out[3] * w[1] * w[2] * w[3]
    ensures kind == Linear && r.Ok? ==> r.value == w[0] * w[1]
    ensures kind != Conv2d && kind != Linear ==> r == Ok(0)
  {
    match kind
    case Conv2d =>
      if |out| != 4 || |w| != 4 then Err(ValueError)
      else Ok(w[0] * out[2] * out[3] * w[1] * w[2] * w[3])
    case Linear =>
      if |w| != 2 then Err(ValueError) else Ok(w[0] * w[1])
    case _ => Ok(0)
  }

  /** The record the hook appends for a module that is not fused. */
  function NewLayer(name: string, m: Module, input: Tensor, out: Tensor): (r: Result<Layer, Error>)
    ensures r.Err? <==> m.weight.Some? && WeightFlops(m.kind, out.shape, m.weight.value.shape).Err?
    ensures r.Ok? ==> ValidLayer(r.value)
    ensures r.Ok? ==>
      && r.value.name == name && r.value.typeName == m.typeName
      && r.value.input == input && r.value.output == out
    ensures r.Ok? ==>
      r.value.paramNum == NumelOf(m.weight) + NumelOf(m.bias)
    ensures r.Ok? ==>
      r.value.flops == (if m.weight.Some? then WeightFlops(m.kind, out.shape, m.weight.value.shape).value else 0) + NumelOf(m.bias)
    ensures r.Ok? ==> r.value.trainable == if m.weight.Some? then Some(m.weight.value.requiresGrad) else None
  {
    var (wFlops, wParams, err) :=
      if m.weight.None? then (0, 0, None)
      else match WeightFlops(m.kind, out.shape, m.weight.value.shape)
        case Ok(f) => (f, Numel(m.weight.value.shape), None)
        case Err(e) => (0, 0, Some(e));
    var bNum := if m.bias.Some? then Numel(m.bias.value.shape) else 0;
    if err.Some? then Err(err.value)
    else Ok(Layer(
      name, m.typeName, input, out,
      if m.weight.Some? then Some(m.weight.value.requiresGrad) else None,
      if m.weight.Some? then Some(Given(m.weight.value)) else None,
      if m.bias.Some? then Some(GivenBias(m.bias.value)) else None,
      wParams + bNum, wFlops + bNum))
  }

  /** Folding a BatchNorm2d into the Conv2d record before it: only the weight, the bias and the output change. */
  function Fuse(last: Layer, bn: Module, out: Tensor): (r: Result<Layer, Error>)
    ensures r.Err? <==> bn.weight.None? || bn.bias.None? || !bn.runningStats || last.weight.None?
    ensures r.Err? ==> r.error == TypeError
    ensures r.Ok? ==> r.value == last.(weight := r.value.weight, bias := r.value.bias, output := out)
    ensures r.Ok? ==> r.value.weight.Some? && r.value.bias.Some?
  {
    if bn.weight.None? || bn.bias.None? || !bn.runningStats || last.weight.None? then Err(TypeError)
    else Ok(last.(weight := Some(Fused(last.weight.value, bn.id)), bias := Some(FusedBias(last.bias, bn.id)), output := out))
  }

  /** Lines 54-86 of the hook: the record for a module that is not fused, or the `ValueError` an unpacking raises. */
  method BuildLayer(name: string, m: Module, input: Tensor, out: Tensor) returns (r: Result<Layer, Error>)
    ensures r == NewLayer(name, m, input, out)
  {
    var paramNum, flops := 0, 0;
    var trainable: Option<bool>, weight: Option<Weight> := None, None;
    if m.weight.Some? {
      var w := m.weight.value;
      if m.kind == Conv2d {
        if |out.shape| != 4 || |w.shape| != 4 {
          return Err(ValueError);
        }
        flops := w.shape[0] * out.shape[2] * out.shape[3] * w.shape[1] * w.shape[2] * w.shape[3];
      }
      if m.kind == Linear {
        if |w.shape| != 2 {
          return Err(ValueError);
        }
        flops := w.shape[0] * w.shape[1];
      }
      paramNum := paramNum + Numel(w.shape);
      trainable := Some(w.requiresGrad);
      weight := Some(Given(w));
    }
    var bias: Option<Bias> := None;
    if m.bias.Some? {
      paramNum := paramNum + Numel(m.bias.value.shape);
      flops := flops + Numel(m.bias.value.shape);
      bias := Some(GivenBias(m.bias.value));
    }
    r := Ok(Layer(name, m.typeName, input, out, trainable, weight, bias, paramNum, flops));
  }

  /** The module's output, or the first element of a tuple output. */
  function FirstOutput(output: Output): Option<Tensor>
  {
    match output
    case Single(t) => Some(t)
    case TupleOut(ts) => if ts == [] then None else Some(ts[0])
  }

  /** The hook leaves a module alone when its type is not summarised, or when it is named Conv2d without being one. */
  predicate Skipped(summaryModules: seq<string>, m: Module)
  {
    m.typeName !in summaryModules || (m.typeName == "Conv2d" && m.kind != Conv2d)
  }

  /** The hook fuses when the module is a BatchNorm2d, the last record is a Conv2d and fusion is on. */
  predicate Fuses(fusion: bool, layers: seq<Layer>, m: Module)
  {
    m.kind == BatchNorm2d && layers != [] && layers[|layers| - 1].typeName == "Conv2d" && fusion
  }

  /** `_summary_hook`: the new `self.layers`, or the exception raised (and then `self.layers` is unchanged). */
  function Hook(summaryModules: seq<string>, fusion: bool, idToName: map<nat, string>, layers: seq<Layer>,
                m: Module, input: seq<Tensor>, output: Output): (r: Result<seq<Layer>, Error>)
    ensures Skipped(summaryModules, m) ==> r == Ok(layers)
    ensures !Skipped(summaryModules, m) && FirstOutput(output).Some? && m.kind == BatchNorm2d && layers == [] ==>
      r == Err(IndexError)
    ensures r.Ok? && !Skipped(summaryModules, m) && Fuses(fusion, layers, m) ==>
      |r.value| == |layers| && r.value[..|layers| - 1] == layers[..|layers| - 1]
    ensures r.Ok? && !Skipped(summaryModules, m) && !Fuses(fusion, layers, m) ==>
      |r.value| == |layers| + 1 && r.value[..|layers|] == layers
  {
    if Skipped(summaryModules, m) then Ok(layers)
    else match FirstOutput(output)
      case None => Err(IndexError)
      case Some(out) =>
        if m.kind == BatchNorm2d && layers == [] then Err(IndexError)
        else if Fuses(fusion, layers, m) then
          match Fuse(layers[|layers| - 1], m, out)
          case Ok(l) => Ok(layers[|layers| - 1 := l])
          case Err(e) => Err(e)
        else if m.id !in idToName then Err(KeyError)
        else if input == [] then Err(IndexError)
        else
          match NewLayer(idToName[m.id], m, input[0], out)
          case Ok(l) => Ok(layers + [l])
          case Err(e) => Err(e)
  }

  /** The hook keeps every record's `trainable` key tied to its weight. */
  lemma HookValid(summaryModules: seq<string>, fusion: bool, idToName: map<nat, string>, layers: seq<Layer>,
                  m: Module, input: seq<Tensor>, output: Output)
    requires ValidLayers(layers)
    ensures var r := Hook(summaryModules, fusion, idToName, layers, m, input, output);
      r.Ok? ==> ValidLayers(r.value)
  {
  }

  // ---------------------------------------------------------------------------
  // Totals printed by `print_info`
  // ---------------------------------------------------------------------------

  /** The sum of `param_num` over the records. */
  function TotalParams(ls: seq<Layer>): nat
  {
    if ls == [] then 0 else TotalParams(ls[..|ls| - 1]) + ls[|ls| - 1].paramNum
  }

  /** The sum of `param_num` over the records whose `trainable` is true. */
  function TrainableParams(ls: seq<Layer>): nat
  {
    if ls == [] then 0
    else TrainableParams(ls[..|ls| - 1]) + (if ls[|ls| - 1].trainable == Some(true) then ls[|ls| - 1].paramNum else 0)
  }

  /** The sum of `flops` over the records. */
  function TotalFlops(ls: seq<Layer>): nat
  {
    if ls == [] then 0 else TotalFlops(ls[..|ls| - 1]) + ls[|ls| - 1].flops
  }

  /** Trainable parameters never exceed the total, so the non-trainable count is not negative. */
  lemma {:induction false} TrainableAtMostTotal(ls: seq<Layer>)
    ensures TrainableParams(ls) <= TotalParams(ls)
  {
    if ls != [] {
      TrainableAtMostTotal(ls[..|ls| - 1]);
    }
  }

  /** Records without a weight never count as trainable: a summary of weightless layers has no trainable parameter. */
  lemma {:induction false} WeightlessNotTrainable(ls: seq<Layer>)
    requires ValidLayers(ls)
    requires forall i :: 0 <= i < |ls| ==> ls[i].weight.None?
    ensures TrainableParams(ls) == 0
  {
    if ls != [] {
      WeightlessNotTrainable(ls[..|ls| - 1]);
    }
  }

  /** Replacing one record by one with the same counts and flag keeps all three totals. */
  lemma {:induction false} TotalsReplace(ls: seq<Layer>, i: nat, l: Layer)
    requires i < |ls| && l.paramNum == ls[i].paramNum && l.flops == ls[i].flops && l.trainable == ls[i].trainable
    ensures TotalParams(ls[i := l]) == TotalParams(ls)
    ensures TrainableParams(ls[i := l]) == TrainableParams(ls)
    ensures TotalFlops(ls[i := l]) == TotalFlops(ls)
  {
    var n := |ls| - 1;
    if i < n {
      assert ls[i := l][..n] == ls[..n][i := l];
      TotalsReplace(ls[..n], i, l);
    } else {
      assert ls[i := l][..n] == ls[..n];
    }
  }

  /** Appending a record adds its counts to the totals. */
  lemma TotalsAppend(ls: seq<Layer>, l: Layer)
    ensures TotalParams(ls + [l]) == TotalParams(ls) + l.paramNum
    ensures TrainableParams(ls + [l]) == TrainableParams(ls) + (if l.trainable == Some(true) then l.paramNum else 0)
    ensures TotalFlops(ls + [l]) == TotalFlops(ls) + l.flops
  {
    assert (ls + [l])[..|ls|] == ls;
  }

  /**
   * Effect of one hook call on the printed totals: a fusion changes none of
   * them, an appended record adds its own counts, and a skip or an error none.
   */
  lemma HookTotals(summaryModules: seq<string>, fusion: bool, idToName: map<nat, string>, layers: seq<Layer>,
                   m: Module, input: seq<Tensor>, output: Output)
    ensures var r := Hook(summaryModules, fusion, idToName, layers, m, input, output);
      r.Ok? ==>
        if |r.value| == |layers| then
          TotalParams(r.value) == TotalParams(layers) && TrainableParams(r.value) == TrainableParams(layers)
          && TotalFlops(r.value) == TotalFlops(layers)
        else
          var l := r.value[|layers|];
          && r.value == layers + [l]
          && TotalParams(r.value) == TotalParams(layers) + l.paramNum
          && TotalFlops(r.value) == TotalFlops(layers) + l.flops
  {
    var r := Hook(summaryModules, fusion, idToName, layers, m, input, output);
    if r.Ok? && !Skipped(summaryModules, m) {
      if Fuses(fusion, layers, m) {
        var l := Fuse(layers[|layers| - 1], m, FirstOutput(output).value).value;
        TotalsReplace(layers, |layers| - 1, l);
      } else {
        var l := r.value[|layers|];
        assert r.value == layers + [l];
        TotalsAppend(layers, l);
      }
    }
  }

  /** The mapping `summarize` builds from module identities to names, assigning each pair in turn. */
  function NamesFrom(m: map<nat, string>, named: seq<(nat, string)>): (r: map<nat, string>)
    ensures r.Keys == m.Keys + set i | 0 <= i < |named| :: named[i].0
  {
    if named == [] then m
    else
      var n := |named| - 1;
      var r := NamesFrom(m, named[..n])[named[n].0 := named[n].1];
      assert (set i | 0 <= i < |named| :: named[i].0) == (set i | 0 <= i < n :: named[..n][i].0) + {named[n].0};
      r
  }

  /** A module is known by the name of the last pair that mentions it. */
  lemma {:induction false} NamesFromLast(m: map<nat, string>, named: seq<(nat, string)>, i: nat)
    requires i < |named| && forall j :: i < j < |named| ==> named[j].0 != named[i].0
    ensures named[i].0 in NamesFrom(m, named) && NamesFrom(m, named)[named[i].0] == named[i].1
  {
    var n := |named| - 1;
    if i < n {
      NamesFromLast(m, named[..n], i);
    }
  }

  /** A `SumX` instance. Hook handles are opaque numbers. */
  class SumX {
    var hooks: seq<nat>
    var layers: seq<Layer>
    var summaryModules: seq<string>
    var fusion: bool
    var idToName: map<nat, string>
    var showRange: bool

    ghost predicate Valid()
      reads this
    {
      ValidLayers(layers)
    }

    /** `SumX(show_range, summary_modules, fusion)`; the defaults are `False`, `DefaultSummaryModules` and `True`. */
    constructor (showRange: bool, summaryModules: seq<string>, fusion: bool)
      ensures Valid() && hooks == [] && layers == [] && idToName == map[]
      ensures this.summaryModules == summaryModules && this.fusion == fusion && this.showRange == showRange
    {
      hooks, layers, idToName := [], [], map[];
      this.summaryModules, this.fusion, this.showRange := summaryModules, fusion, showRange;
    }

    /** The loop at the start of `summarize` that records each named module's name under its identity. */
    method NameModules(named: seq<(nat, string)>)
      modifies this
      ensures idToName == NamesFrom(old(idToName), named)
      ensures hooks == old(hooks) && layers == old(layers) && summaryModules == old(summaryModules)
      ensures fusion == old(fusion) && showRange == old(showRange)
    {
      for k := 0 to |named|
        invariant idToName == NamesFrom(old(idToName), named[..k])
        invariant hooks == old(hooks) && layers == old(layers) && summaryModules == old(summaryModules)
        invariant fusion == old(fusion) && showRange == old(showRange)
      {
        assert named[..k + 1][..k] == named[..k];
        idToName := idToName[named[k].0 := named[k].1];
      }
      assert named[..|named|] == named;
    }

    /** `_summary_hook(module, input, output)`; returns the exception it raises, if any. */
    method SummaryHook(m: Module, input: seq<Tensor>, output: Output) returns (err: Option<Error>)
      requires Valid()
      modifies this
      ensures Valid()
      ensures var r := Hook(summaryModules, fusion, idToName, old(layers), m, input, output);
        && (r.Ok? ==> layers == r.value && err == None)
        && (r.Err? ==> layers == old(layers) && err == Some(r.error))
      ensures hooks == old(hooks) && summaryModules == old(summaryModules) && fusion == old(fusion)
      ensures idToName == old(idToName) && showRange == old(showRange)
    {
      HookValid(summaryModules, fusion, idToName, layers, m, input, output);
      var moduleType := m.typeName;
      if moduleType !in summaryModules {
        return None;
      }
      if moduleType == "Conv2d" && m.kind != Conv2d {
        return None;
      }
      var out: Tensor;
      match output {
        case Single(t) =>
          out := t;
        case TupleOut(ts) =>
          if ts == [] {
            return Some(IndexError);
          }
          out := ts[0];
      }
      if m.kind == BatchNorm2d {
        if layers == [] {
          return Some(IndexError);
        }
        var last := layers[|layers| - 1];
        if last.typeName == "Conv2d" && fusion {
          if m.weight.None? || m.bias.None? || !m.runningStats || last.weight.None? {
            return Some(TypeError);
          }
          var fused := last.(weight := Some(Fused(last.weight.value, m.id)), bias := Some(FusedBias(last.bias, m.id)), output := out);
          layers := layers[|layers| - 1 := fused];
          return None;
        }
      }
      if m.id !in idToName {
        return Some(KeyError);
      }
      var name := idToName[m.id];
      if input == [] {
        return Some(IndexError);
      }
      var layer := BuildLayer(name, m, input[0], out);
      match layer {
        case Err(e) =>
          return Some(e);
        case Ok(l) =>
          layers := layers + [l];
          err := None;
      }
    }

    /** The totals `print_info` prints: total, trainable and non-trainable parameters, and total FLOPs. Changes nothing. */
    method PrintInfo() returns (totalParams: nat, trainableParams: nat, nonTrainable: int, totalFlops: nat)
      ensures totalParams == TotalParams(layers) && trainableParams == TrainableParams(layers)
      ensures totalFlops == TotalFlops(layers)
      ensures nonTrainable == totalParams - trainableParams && nonTrainable >= 0
    {
      totalParams, trainableParams, totalFlops := 0, 0, 0;
      for k := 0 to |layers|
        invariant totalParams == TotalParams(layers[..k]) && trainableParams == TrainableParams(layers[..k])
        invariant totalFlops == TotalFlops(layers[..k])
      {
        var info := layers[k];
        assert layers[..k + 1][..k] == layers[..k];
        totalParams := totalParams + info.paramNum;
        if info.trainable == Some(true) {
          trainableParams := trainableParams + info.paramNum;
        }
        totalFlops := totalFlops + info.flops;
      }
      assert layers[..|layers|] == layers;
      TrainableAtMostTotal(layers);
      nonTrainable := totalParams - trainableParams;
    }

    /** `_register_hook`: keeps the handle of the hook just registered. */
    method RegisterHook(handle: nat)
      modifies this
      ensures hooks == old(hooks) + [handle]
      ensures layers == old(layers) && idToName == old(idToName) && summaryModules == old(summaryModules)
      ensures fusion == old(fusion) && showRange == old(showRange)
    {
      hooks := hooks + [handle];
    }

    /** `clear()`: removes the hooks and forgets the records and the names. */
    method Clear()
      modifies this
      ensures Valid() && hooks == [] && layers == [] && idToName == map[]
      ensures summaryModules == old(summaryModules) && fusion == old(fusion) && showRange == old(showRange)
    {
      hooks := [];
      layers := [];
      idToName := map[];
    }
  }
}
