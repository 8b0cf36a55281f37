/** The discrete skeleton of the 8-8-1 feed-forward network: the shape its
    constructor builds, forward propagation and its 0/1 threshold, one
    prediction per input, the buffered order of the weight updates in back
    propagation, the training loop's stopping rule and the confusion-matrix
    counters. The activation function is a parameter of the model. */
module NeuralNet {
  import opened Draws
  import opened Doubles

  datatype Neuron = Neuron(error: real, value: real, bias: real, weights: seq<real>)

  datatype Layer = Layer(neurons: seq<Neuron>)

  /** Neurons per input and hidden layer, and weights per neuron. */
  const Width: nat := 8

  const LearningRate: real := 0.8

  /** `2.0 * rand() / RAND_MAX - 1`: the initial value of every parameter. */
  function Unit(r: nat): real
  {
    2.0 * (r as real) / (RandMax as real) - 1.0
  }

  /** RAND_MAX is odd, so no draw makes `Unit` zero: the constructor's
      redraw-while-zero loops never run. */
  lemma UnitNonZero(r: nat)
    ensures Unit(r) != 0.0
  {
  }

  lemma UnitInRange(r: nat)
    requires r <= RandMax
    ensures -1.0 <= Unit(r) <= 1.0
  {
  }

  /** The 8-8-1 shape with eight weights in every hidden and output neuron. */
  predicate Shaped(ls: seq<Layer>)
  {
    |ls| == 3 && |ls[0].neurons| == Width && |ls[1].neurons| == Width && |ls[2].neurons| == 1
    && (forall j :: 0 <= j < Width ==> |ls[1].neurons[j].weights| == Width)
    && |ls[2].neurons[0].weights| == Width
  }

  /** What forward propagation needs of any network: an output neuron, and
      no neuron with more weights than the layer before it has neurons. */
  predicate Wired(ls: seq<Layer>)
  {
    |ls| > 0 && |ls[|ls| - 1].neurons| > 0
    && forall i, j :: 0 < i < |ls| && 0 <= j < |ls[i].neurons| ==>
      |ls[i].neurons[j].weights| <= |ls[i - 1].neurons|
  }

  lemma ShapedIsWired(ls: seq<Layer>)
    requires Shaped(ls)
    ensures Wired(ls)
  {
  }

  /** Same layer and neuron counts, weights and biases: only values and
      errors may differ. */
  predicate SameParameters(a: seq<Layer>, b: seq<Layer>)
  {
    |a| == |b|
    && forall i :: 0 <= i < |a| ==>
      (|a[i].neurons| == |b[i].neurons|
       && forall j :: 0 <= j < |a[i].neurons| ==>
         a[i].neurons[j].weights == b[i].neurons[j].weights && a[i].neurons[j].bias == b[i].neurons[j].bias)
  }

  lemma SameParametersKeepShape(a: seq<Layer>, b: seq<Layer>)
    requires SameParameters(a, b)
    ensures Wired(b) ==> Wired(a)
    ensures Shaped(b) ==> Shaped(a)
  {
    if Wired(b) {
      forall i, j | 0 < i < |a| && 0 <= j < |a[i].neurons|
        ensures |a[i].neurons[j].weights| <= |a[i - 1].neurons|
      {
        assert a[i].neurons[j].weights == b[i].neurons[j].weights;
      }
    }
    if Shaped(b) {
      assert a[2].neurons[0].weights == b[2].neurons[0].weights;
      forall j | 0 <= j < Width
        ensures |a[1].neurons[j].weights| == Width
      {
        assert a[1].neurons[j].weights == b[1].neurons[j].weights;
      }
    }
  }

  lemma SameParametersTransitive(a: seq<Layer>, b: seq<Layer>, c: seq<Layer>)
    requires SameParameters(a, b) && SameParameters(b, c)
    ensures SameParameters(a, c)
  {
  }

  lemma SameParametersSymmetric(a: seq<Layer>, b: seq<Layer>)
    requires SameParameters(a, b)
    ensures SameParameters(b, a)
  {
  }

  function Values(l: Layer): (v: seq<real>)
    ensures |v| == |l.neurons|
    ensures forall j :: 0 <= j < |l.neurons| ==> v[j] == l.neurons[j].value
  {
    seq(|l.neurons|, j requires 0 <= j < |l.neurons| => l.neurons[j].value)
  }

  /** `sum += weights[k] * previous[k]` over the first n weights, in order. */
  function WeightedSum(w: seq<real>, v: seq<real>, n: nat): real
    requires n <= |w| && n <= |v|
  {
    if n == 0 then 0.0 else WeightedSum(w, v, n - 1) + w[n - 1] * v[n - 1]
  }

  /** A neuron whose value is the activation of its weighted input plus bias. */
  function Fire(n: Neuron, previous: seq<real>, sigmoid: real -> real): Neuron
    requires |n.weights| <= |previous|
  {
    n.(value := sigmoid(WeightedSum(n.weights, previous, |n.weights|) + n.bias))
  }

  /** Layer i after its turn in `forwardPropagate`: the input layer takes the
      input row, every later layer fires from the one before it. */
  function Step(p: seq<Layer>, i: nat, input: seq<real>, sigmoid: real -> real): (l: Layer)
    requires Wired(p) && i < |p| && |input| >= |p[0].neurons|
    ensures |l.neurons| == |p[i].neurons|
    ensures forall j :: 0 <= j < |l.neurons| ==>
      l.neurons[j].weights == p[i].neurons[j].weights && l.neurons[j].bias == p[i].neurons[j].bias
  {
    if i == 0 then
      Layer(seq(|p[0].neurons|, j requires 0 <= j < |p[0].neurons| => p[0].neurons[j].(value := input[j])))
    else
      Layer(seq(|p[i].neurons|, j requires 0 <= j < |p[i].neurons| => Fire(p[i].neurons[j], Values(p[i - 1]), sigmoid)))
  }

  lemma StepNeuron(p: seq<Layer>, i: nat, j: nat, input: seq<real>, sigmoid: real -> real)
    requires Wired(p) && i < |p| && |input| >= |p[0].neurons| && j < |p[i].neurons|
    ensures i == 0 ==> Step(p, i, input, sigmoid).neurons[j] == p[0].neurons[j].(value := input[j])
    ensures i > 0 ==> Step(p, i, input, sigmoid).neurons[j] == Fire(p[i].neurons[j], Values(p[i - 1]), sigmoid)
  {
  }

  /** The network after the first i layers have had their turn. */
  function ForwardUpTo(ls: seq<Layer>, input: seq<real>, sigmoid: real -> real, i: nat): (r: seq<Layer>)
    requires Wired(ls) && |input| >= |ls[0].neurons| && i <= |ls|
    ensures SameParameters(r, ls) && Wired(r) && |r[0].neurons| == |ls[0].neurons|
    decreases i
  {
    if i == 0 then ls
    else
      var p := ForwardUpTo(ls, input, sigmoid, i - 1);
      var r := p[i - 1 := Step(p, i - 1, input, sigmoid)];
      SameParametersTransitive(r, p, ls);
      SameParametersKeepShape(r, ls);
      r
  }

  function Forward(ls: seq<Layer>, input: seq<real>, sigmoid: real -> real): (r: seq<Layer>)
    requires Wired(ls) && |input| >= |ls[0].neurons|
    ensures SameParameters(r, ls) && Wired(r)
  {
    ForwardUpTo(ls, input, sigmoid, |ls|)
  }

  function Output(ls: seq<Layer>): real
    requires |ls| > 0 && |ls[|ls| - 1].neurons| > 0
  {
    ls[|ls| - 1].neurons[0].value
  }

  /** The thresholded output: 1 when the output value is at least 0.5. */
  function Classify(ls: seq<Layer>, input: seq<real>, sigmoid: real -> real): (c: int)
    requires Wired(ls) && |input| >= |ls[0].neurons|
    ensures c == 0 || c == 1
    ensures c == 1 <==> Output(Forward(ls, input, sigmoid)) >= 0.5
  {
    if Output(Forward(ls, input, sigmoid)) >= 0.5 then 1 else 0
  }

  /** The class of every row, in order. */
  function Classifications(ls: seq<Layer>, inputs: seq<seq<real>>, sigmoid: real -> real): (c: seq<int>)
    requires Wired(ls) && forall i :: 0 <= i < |inputs| ==> |inputs[i]| >= |ls[0].neurons|
    ensures |c| == |inputs|
    ensures forall i :: 0 <= i < |inputs| ==> c[i] == Classify(ls, inputs[i], sigmoid)
  {
    seq(|inputs|, i requires 0 <= i < |inputs| => Classify(ls, inputs[i], sigmoid))
  }

  /** Forward propagation overwrites the input layer with the input row. */
  lemma {:induction false} ForwardLoadsInput(ls: seq<Layer>, input: seq<real>, sigmoid: real -> real, i: nat)
    requires Wired(ls) && |input| >= |ls[0].neurons| && 0 < i <= |ls|
    ensures Values(ForwardUpTo(ls, input, sigmoid, i)[0]) == input[..|ls[0].neurons|]
    decreases i
  {
    if i > 1 {
      ForwardLoadsInput(ls, input, sigmoid, i - 1);
    }
  }

  /** The values left by forward propagation depend on the weights, biases
      and the input row only, not on the values held before. */
  lemma {:induction false} ForwardUsesOnlyParameters(a: seq<Layer>, b: seq<Layer>, input: seq<real>,
                                                     sigmoid: real -> real, i: nat)
    requires Wired(a) && SameParameters(a, b) && |input| >= |a[0].neurons| && i <= |a|
    ensures Wired(b) && |input| >= |b[0].neurons|
    ensures forall l :: 0 <= l < i ==>
      Values(ForwardUpTo(a, input, sigmoid, i)[l]) == Values(ForwardUpTo(b, input, sigmoid, i)[l])
    decreases i
  {
    SameParametersSymmetric(a, b);
    SameParametersKeepShape(b, a);
    if i > 0 {
      ForwardUsesOnlyParameters(a, b, input, sigmoid, i - 1);
      var pa := ForwardUpTo(a, input, sigmoid, i - 1);
      var pb := ForwardUpTo(b, input, sigmoid, i - 1);
      SameParametersSymmetric(pb, b);
      SameParametersTransitive(pa, a, b);
      SameParametersTransitive(pa, b, pb);
      StepSameValues(pa, pb, i - 1, input, sigmoid);
    }
  }

  /** One layer's turn gives the same values in two networks with the same
      parameters, once the layer before it holds the same values. */
  lemma StepSameValues(pa: seq<Layer>, pb: seq<Layer>, i: nat, input: seq<real>, sigmoid: real -> real)
    requires Wired(pa) && Wired(pb) && SameParameters(pa, pb) && i < |pa|
    requires |input| >= |pa[0].neurons|
    requires i > 0 ==> Values(pa[i - 1]) == Values(pb[i - 1])
    ensures Values(Step(pa, i, input, sigmoid)) == Values(Step(pb, i, input, sigmoid))
  {
    var sa, sb := Step(pa, i, input, sigmoid), Step(pb, i, input, sigmoid);
    forall j | 0 <= j < |sa.neurons|
      ensures sa.neurons[j].value == sb.neurons[j].value
    {
      StepNeuron(pa, i, j, input, sigmoid);
      StepNeuron(pb, i, j, input, sigmoid);
      if i > 0 {
        assert pa[i].neurons[j].weights == pb[i].neurons[j].weights;
        assert pa[i].neurons[j].bias == pb[i].neurons[j].bias;
      }
    }
  }

  /** Two networks with the same parameters classify every row alike. */
  lemma SameParametersSameClass(a: seq<Layer>, b: seq<Layer>, input: seq<real>, sigmoid: real -> real)
    requires Wired(a) && SameParameters(a, b) && |input| >= |a[0].neurons|
    ensures Wired(b) && |input| >= |b[0].neurons|
    ensures Classify(a, input, sigmoid) == Classify(b, input, sigmoid)
  {
    ForwardUsesOnlyParameters(a, b, input, sigmoid, |a|);
    var fa, fb := Forward(a, input, sigmoid), Forward(b, input, sigmoid);
    assert Values(fa[|a| - 1])[0] == Values(fb[|b| - 1])[0];
  }

  /** One forward pass leaves the parameters as they were and classifies as
      the original network does. */
  lemma PredictStep(original: seq<Layer>, before: seq<Layer>, input: seq<real>, sigmoid: real -> real)
    requires Wired(original) && SameParameters(before, original) && |input| >= |original[0].neurons|
    ensures Wired(before) && |input| >= |before[0].neurons|
    ensures SameParameters(Forward(before, input, sigmoid), original) && Wired(Forward(before, input, sigmoid))
    ensures Classify(before, input, sigmoid) == Classify(original, input, sigmoid)
  {
    SameParametersSymmetric(before, original);
    SameParametersSameClass(original, before, input, sigmoid);
    SameParametersTransitive(Forward(before, input, sigmoid), before, original);
  }

  /** `sigmoidDerivative`, applied (as the program does) to a neuron's value. */
  function Derivative(sigmoid: real -> real, x: real): real
  {
    sigmoid(x) * (1.0 - sigmoid(x))
  }

  /** `w + learningRate * error * value`. */
  function Adjusted(w: real, e: real, v: real): real
  {
    w + LearningRate * e * v
  }

  /** The output neuron's error term for a target output. */
  function OutputDelta(ls: seq<Layer>, target: real, sigmoid: real -> real): real
    requires Shaped(ls)
  {
    (target - ls[2].neurons[0].value) * Derivative(sigmoid, ls[2].neurons[0].value)
  }

  /** Hidden neuron i after back propagation: its error is the output error
      times the output neuron's weight i from before the update. */
  function HiddenUpdated(ls: seq<Layer>, i: nat, e: real, sigmoid: real -> real): (n: Neuron)
    requires Shaped(ls) && i < Width
    ensures |n.weights| == Width
  {
    var h := ls[1].neurons[i];
    var he := e * ls[2].neurons[0].weights[i] * Derivative(sigmoid, h.value);
    h.(error := he, weights := seq(Width, j requires 0 <= j < Width => Adjusted(h.weights[j], he, ls[0].neurons[j].value)))
  }

  /** The hidden layer after back propagation. */
  function HiddenLayerUpdated(ls: seq<Layer>, e: real, sigmoid: real -> real): (l: Layer)
    requires Shaped(ls)
    ensures |l.neurons| == Width
    ensures forall i :: 0 <= i < Width ==> l.neurons[i] == HiddenUpdated(ls, i, e, sigmoid)
  {
    Layer(seq(Width, i requires 0 <= i < Width => HiddenUpdated(ls, i, e, sigmoid)))
  }

  /** The hidden update reads the input and hidden layers and the output
      weights, and nothing else of the output neuron. */
  lemma HiddenUpdateFrame(a: seq<Layer>, b: seq<Layer>, e: real, sigmoid: real -> real)
    requires Shaped(a) && Shaped(b) && a[0] == b[0] && a[1] == b[1]
    requires a[2].neurons[0].weights == b[2].neurons[0].weights
    ensures HiddenLayerUpdated(a, e, sigmoid) == HiddenLayerUpdated(b, e, sigmoid)
  {
    forall i | 0 <= i < Width
      ensures HiddenUpdated(a, i, e, sigmoid) == HiddenUpdated(b, i, e, sigmoid)
    {
      var h := a[1].neurons[i];
      var he := e * a[2].neurons[0].weights[i] * Derivative(sigmoid, h.value);
      assert he == e * b[2].neurons[0].weights[i] * Derivative(sigmoid, b[1].neurons[i].value);
      var wa, wb := HiddenUpdated(a, i, e, sigmoid).weights, HiddenUpdated(b, i, e, sigmoid).weights;
      forall j | 0 <= j < Width
        ensures wa[j] == wb[j]
      {
        assert wa[j] == Adjusted(h.weights[j], he, a[0].neurons[j].value);
      }
      assert wa == wb;
    }
  }

  /** The output neuron after back propagation. */
  function OutputUpdated(ls: seq<Layer>, e: real): (n: Neuron)
    requires Shaped(ls)
    ensures |n.weights| == Width
  {
    var out := ls[2].neurons[0];
    out.(error := e, weights := seq(Width, i requires 0 <= i < Width => Adjusted(out.weights[i], e, ls[1].neurons[i].value)))
  }

  /** One `backPropagate` step towards a target output. */
  function Backpropagated(ls: seq<Layer>, target: real, sigmoid: real -> real): (r: seq<Layer>)
    requires Shaped(ls)
    ensures Shaped(r)
  {
    var e := OutputDelta(ls, target, sigmoid);
    [ls[0], HiddenLayerUpdated(ls, e, sigmoid), Layer([OutputUpdated(ls, e)])]
  }

  /** Back propagation keeps the input layer and every value, and changes
      hidden neurons using the output weights as they were before it. */
  lemma BackpropagatedUsesOldWeights(ls: seq<Layer>, target: real, sigmoid: real -> real)
    requires Shaped(ls)
    ensures var r := Backpropagated(ls, target, sigmoid);
      r[0] == ls[0]
      && (forall l, j :: 0 <= l < 3 && 0 <= j < |ls[l].neurons| ==> r[l].neurons[j].value == ls[l].neurons[j].value)
      && (forall j :: 0 <= j < Width ==>
            r[1].neurons[j].error == r[2].neurons[0].error * ls[2].neurons[0].weights[j] * Derivative(sigmoid, ls[1].neurons[j].value))
      && (forall j :: 0 <= j < Width ==>
            r[2].neurons[0].weights[j] == Adjusted(ls[2].neurons[0].weights[j], r[2].neurons[0].error, ls[1].neurons[j].value))
  {
    var r := Backpropagated(ls, target, sigmoid);
    forall l, j | 0 <= l < 3 && 0 <= j < |ls[l].neurons|
      ensures r[l].neurons[j].value == ls[l].neurons[j].value
    {
      if l == 1 {
        assert r[1].neurons[j] == HiddenUpdated(ls, j, OutputDelta(ls, target, sigmoid), sigmoid);
      }
    }
  }

  /** `abs(previous - mean) < threshold` where either side may be NaN: any
      comparison with NaN is false. */
  predicate SettledBelow(previous: Mean, current: Mean, threshold: real)
  {
    previous.Finite? && current.Finite?
    && (if previous.v >= current.v then previous.v - current.v else current.v - previous.v) < threshold
  }

  /** `(int)x`: truncation towards zero. */
  function Truncate(x: real): int
  {
    if x >= 0.0 then x.Floor else -((-x).Floor)
  }

  /** Number of the first n predictions equal to 1. */
  function Ones(p: seq<int>, n: nat): nat
    requires n <= |p|
  {
    if n == 0 then 0 else Ones(p, n - 1) + (if p[n - 1] == 1 then 1 else 0)
  }

  /** Number of the first n predictions equal to the truncated expected output. */
  function Agreements(p: seq<int>, actual: seq<real>, n: nat): nat
    requires n <= |p| && n <= |actual|
  {
    if n == 0 then 0 else Agreements(p, actual, n - 1) + (if p[n - 1] == Truncate(actual[n - 1]) then 1 else 0)
  }

  /** Number of the first n positions where prediction and truncated output are both 1. */
  function Hits(p: seq<int>, actual: seq<real>, n: nat): nat
    requires n <= |p| && n <= |actual|
  {
    if n == 0 then 0 else Hits(p, actual, n - 1) + (if p[n - 1] == 1 && Truncate(actual[n - 1]) == 1 then 1 else 0)
  }

  /** The counting loop of `calculateMetrics`. */
  method Tally(predictions: seq<int>, testOutputs: seq<real>) returns (tp: nat, tn: nat, fp: nat, fn: nat)
    requires |testOutputs| >= |predictions|
    ensures tp + tn + fp + fn == |predictions|
    ensures tp + fp == Ones(predictions, |predictions|)
    ensures tp + tn == Agreements(predictions, testOutputs, |predictions|)
    ensures tp == Hits(predictions, testOutputs, |predictions|)
  {
    tp, tn, fp, fn := 0, 0, 0, 0;
    var i := 0;
    while i < |predictions|
      invariant 0 <= i <= |predictions|
      invariant tp + tn + fp + fn == i
      invariant tp + fp == Ones(predictions, i)
      invariant tp + tn == Agreements(predictions, testOutputs, i)
      invariant tp == Hits(predictions, testOutputs, i)
    {
      var predictedOutput := predictions[i];
      var actualOutput := Truncate(testOutputs[i]);
      if predictedOutput == actualOutput {
        if predictedOutput == 1 {
          tp := tp + 1;
        } else {
          tn := tn + 1;
        }
      } else {
        if predictedOutput == 1 {
          fp := fp + 1;
        } else {
          fn := fn + 1;
        }
      }
      i := i + 1;
    }
  }

  class NeuralNetwork {
    var layers: seq<Layer>
    /** The logistic function of the program, left abstract. */
    const sigmoid: real -> real

    predicate Valid()
      reads this
    {
      Shaped(layers)
    }

    /** Draw order: the shared hidden bias, then per hidden neuron its value
        and eight weights, then the output neuron's value, bias and eight
        weights. Fields the program leaves unset are 0 here. */
    constructor (activation: real -> real, rand: Stream, k: nat)
      ensures sigmoid == activation && Valid()
      ensures forall i :: 0 <= i < Width ==>
        layers[1].neurons[i].bias == Unit(rand(k))
        && layers[1].neurons[i].value == Unit(rand(k + 1 + (Width + 1) * i))
        && forall j :: 0 <= j < Width ==>
          layers[1].neurons[i].weights[j] == Unit(rand(k + 2 + (Width + 1) * i + j))
          && layers[1].neurons[i].weights[j] != 0.0
      ensures layers[2].neurons[0].value == Unit(rand(k + 1 + (Width + 1) * Width))
      ensures layers[2].neurons[0].bias == Unit(rand(k + 2 + (Width + 1) * Width))
      ensures forall j :: 0 <= j < Width ==>
        layers[2].neurons[0].weights[j] == Unit(rand(k + 3 + (Width + 1) * Width + j))
        && layers[2].neurons[0].weights[j] != 0.0
    {
      sigmoid := activation;
      var inputLayer: seq<Neuron> := [];
      for i := 0 to Width
        invariant |inputLayer| == i
      {
        inputLayer := inputLayer + [Neuron(0.0, 0.0, 0.0, [])];
      }
      var hiddenLayer: seq<Neuron> := [];
      var bias := Unit(rand(k));
      var next := k + 1;
      for i := 0 to Width
        invariant |hiddenLayer| == i && next == k + 1 + (Width + 1) * i
        invariant forall i' :: 0 <= i' < i ==>
          hiddenLayer[i'].bias == bias
          && hiddenLayer[i'].value == Unit(rand(k + 1 + (Width + 1) * i'))
          && |hiddenLayer[i'].weights| == Width
          && forall j :: 0 <= j < Width ==>
            hiddenLayer[i'].weights[j] == Unit(rand(k + 2 + (Width + 1) * i' + j))
            && hiddenLayer[i'].weights[j] != 0.0
      {
        var value := Unit(rand(next));
        var weights;
        weights, next := DrawWeights(rand, next + 1);
        hiddenLayer := hiddenLayer + [Neuron(0.0, value, bias, weights)];
      }
      var value := Unit(rand(next));
      var outputBias := Unit(rand(next + 1));
      var weights;
      weights, next := DrawWeights(rand, next + 2);
      layers := [Layer(inputLayer), Layer(hiddenLayer), Layer([Neuron(0.0, value, outputBias, weights)])];
    }

    /** Eight weights from consecutive draws. */
    static method DrawWeights(rand: Stream, k: nat) returns (weights: seq<real>, next: nat)
      ensures |weights| == Width && next == k + Width
      ensures forall j :: 0 <= j < Width ==> weights[j] == Unit(rand(k + j)) && weights[j] != 0.0
    {
      weights := [];
      next := k;
      for j := 0 to Width
        invariant |weights| == j && next == k + j
        invariant forall j' :: 0 <= j' < j ==> weights[j'] == Unit(rand(k + j')) && weights[j'] != 0.0
      {
        var weight := Unit(rand(next));
        UnitNonZero(rand(next));
        weights := weights + [weight];
        next := next + 1;
      }
    }

    /** `forwardPropagate`: each layer in turn, the input layer copying the
        row and every later layer firing from the one before; returns 1 when
        the output value is at least 0.5 and 0 otherwise. */
    method ForwardPropagate(input: seq<real>) returns (prediction: int)
      requires Wired(layers) && |input| >= |layers[0].neurons|
      modifies this
      ensures layers == Forward(old(layers), input, sigmoid)
      ensures Values(layers[0]) == input[..|layers[0].neurons|]
      ensures prediction == Classify(old(layers), input, sigmoid)
      ensures prediction == 0 || prediction == 1
    {
      ghost var start := layers;
      var i := 0;
      while i < |layers|
        invariant 0 <= i <= |layers| == |start|
        invariant layers == ForwardUpTo(start, input, sigmoid, i)
      {
        PropagateLayer(i, input);
        i := i + 1;
      }
      ForwardLoadsInput(start, input, sigmoid, |start|);
      var output := layers[|layers| - 1].neurons[0].value;
      prediction := if output >= 0.5 then 1 else 0;
    }

    /** One pass of the outer loop of `forwardPropagate`: layer i, neuron
        by neuron. */
    method PropagateLayer(i: nat, input: seq<real>)
      requires Wired(layers) && i < |layers| && |input| >= |layers[0].neurons|
      modifies this
      ensures layers == old(layers)[i := Step(old(layers), i, input, sigmoid)]
    {
      var ls := layers;
      ghost var target := Step(ls, i, input, sigmoid).neurons;
      var neurons := ls[i].neurons;
      var j := 0;
      while j < |neurons|
        invariant 0 <= j <= |neurons| == |target| == |ls[i].neurons|
        invariant forall m :: 0 <= m < j ==> neurons[m] == target[m]
        invariant forall m :: j <= m < |neurons| ==> neurons[m] == ls[i].neurons[m]
      {
        StepNeuron(ls, i, j, input, sigmoid);
        var neuron := neurons[j];
        if i == 0 {
          neuron := neuron.(value := input[j]);
        } else {
          assert |neuron.weights| <= |ls[i - 1].neurons|;
          var sum := NeuronSum(neuron.weights, ls[i - 1]);
          neuron := neuron.(value := sigmoid(sum + neuron.bias));
        }
        assert neuron == target[j];
        neurons := neurons[j := neuron];
        j := j + 1;
      }
      assert neurons == target;
      layers := ls[i := Layer(neurons)];
    }

    /** The innermost loop of `forwardPropagate`: the weighted sum of the
        previous layer's values. */
    static method NeuronSum(weights: seq<real>, previous: Layer) returns (sum: real)
      requires |weights| <= |previous.neurons|
      ensures sum == WeightedSum(weights, Values(previous), |weights|)
    {
      sum := 0.0;
      var k := 0;
      while k < |weights|
        invariant 0 <= k <= |weights|
        invariant sum == WeightedSum(weights, Values(previous), k)
      {
        sum := sum + weights[k] * previous.neurons[k].value;
        k := k + 1;
      }
    }

    /** `predict`: one forward pass per row, in order. */
    method Predict(inputs: seq<seq<real>>) returns (predictions: seq<int>)
      requires Wired(layers) && forall i :: 0 <= i < |inputs| ==> |inputs[i]| >= |layers[0].neurons|
      modifies this
      ensures predictions == Classifications(old(layers), inputs, sigmoid)
      ensures SameParameters(layers, old(layers)) && Wired(layers)
    {
      ghost var original := layers;
      ghost var expected := Classifications(original, inputs, sigmoid);
      predictions := [];
      var i := 0;
      while i < |inputs|
        invariant 0 <= i <= |inputs|
        invariant Keeps(original)
        invariant |predictions| == i
        invariant forall m :: 0 <= m < i ==> predictions[m] == expected[m]
      {
        var prediction := PredictRow(inputs[i], original);
        Agreement(predictions, expected, prediction);
        predictions := predictions + [prediction];
        i := i + 1;
      }
      assert predictions == expected;
    }

    /** Appending the next expected class keeps a prefix of `expected`. */
    static lemma Agreement(done: seq<int>, expected: seq<int>, next: int)
      requires |done| < |expected| && next == expected[|done|]
      requires forall m :: 0 <= m < |done| ==> done[m] == expected[m]
      ensures forall m :: 0 <= m <= |done| ==> (done + [next])[m] == expected[m]
    {
    }

    /** The network still has the parameters of `original`. */
    predicate Keeps(original: seq<Layer>)
      reads this
    {
      SameParameters(layers, original) && Wired(layers)
    }

    /** One row of `predict`: a forward pass that keeps the parameters and
        classifies as the network did before any pass. */
    method PredictRow(input: seq<real>, ghost original: seq<Layer>) returns (prediction: int)
      requires Wired(original) && Keeps(original) && |input| >= |original[0].neurons|
      modifies this
      ensures Keeps(original)
      ensures prediction == Classify(original, input, sigmoid)
    {
      PredictStep(original, layers, input, sigmoid);
      prediction := ForwardPropagate(input);
    }

    /** `backPropagate`: for the (at most one) target output, sets the output
        error, buffers the new output weights, updates every hidden neuron
        with the output weights not yet changed, then writes the buffer. */
    method BackPropagate(actualOutputs: seq<real>)
      requires Valid() && |actualOutputs| <= 1
      modifies this
      ensures Valid()
      ensures layers == if |actualOutputs| == 0 then old(layers) else Backpropagated(old(layers), actualOutputs[0], sigmoid)
    {
      var a := 0;
      while a < |actualOutputs|
        invariant 0 <= a <= |actualOutputs|
        invariant layers == if a == 0 then old(layers) else Backpropagated(old(layers), actualOutputs[0], sigmoid)
      {
        BackStep(actualOutputs[a]);
        a := a + 1;
      }
    }

    /** The body of the loop of `backPropagate`. */
    method BackStep(target: real)
      requires Valid()
      modifies this
      ensures layers == Backpropagated(old(layers), target, sigmoid)
    {
      ghost var start := layers;
      var outputNeuron := layers[2].neurons[0];
      var outputError := target - outputNeuron.value;
      outputNeuron := outputNeuron.(error := outputError * Derivative(sigmoid, outputNeuron.value));
      var e := outputNeuron.error;
      assert e == OutputDelta(start, target, sigmoid);
      layers := layers[2 := Layer([outputNeuron])];
      var newWeights := BufferWeights(outputNeuron.weights, e, layers[1]);
      ghost var mid := layers;
      HiddenUpdateFrame(mid, start, e, sigmoid);
      UpdateHiddenLayer(e);
      var weights := outputNeuron.weights;
      ghost var buffered := newWeights[..];
      for i := 0 to Width
        invariant |weights| == Width
        invariant newWeights[..] == buffered
        invariant forall i' :: 0 <= i' < i ==> weights[i'] == buffered[i']
      {
        weights := weights[i := newWeights[i]];
      }
      assert forall i :: 0 <= i < Width ==> weights[i] == OutputUpdated(start, e).weights[i];
      outputNeuron := outputNeuron.(weights := weights);
      assert outputNeuron == OutputUpdated(start, e);
      layers := layers[2 := Layer([outputNeuron])];
    }

    /** The `newWeights` buffer: the output weights after the update, computed
        before any of them is written back. */
    static method BufferWeights(weights: seq<real>, e: real, hiddenLayer: Layer) returns (buffer: array<real>)
      requires |weights| == Width && |hiddenLayer.neurons| == Width
      ensures fresh(buffer) && buffer.Length == Width
      ensures forall i :: 0 <= i < Width ==> buffer[i] == Adjusted(weights[i], e, hiddenLayer.neurons[i].value)
    {
      buffer := new real[Width];
      for i := 0 to Width
        invariant forall i' :: 0 <= i' < i ==> buffer[i'] == Adjusted(weights[i'], e, hiddenLayer.neurons[i'].value)
      {
        buffer[i] := Adjusted(weights[i], e, hiddenLayer.neurons[i].value);
      }
    }

    /** The hidden-layer loop of `backPropagate`: each hidden neuron's error
        from the output error and the output weight it feeds, then its
        weights. */
    method UpdateHiddenLayer(e: real)
      requires Valid()
      modifies this
      ensures layers == old(layers)[1 := HiddenLayerUpdated(old(layers), e, sigmoid)]
    {
      var ls := layers;
      var neurons := ls[1].neurons;
      for i := 0 to Width
        invariant |neurons| == Width
        invariant forall i' :: 0 <= i' < i ==> neurons[i'] == HiddenUpdated(ls, i', e, sigmoid)
        invariant forall i' :: i <= i' < Width ==> neurons[i'] == ls[1].neurons[i']
      {
        var hidden := neurons[i];
        hidden := hidden.(error := e * ls[2].neurons[0].weights[i] * Derivative(sigmoid, hidden.value));
        var weights := UpdatedWeights(hidden.weights, hidden.error, ls[0]);
        ghost var expected := HiddenUpdated(ls, i, e, sigmoid);
        assert weights == expected.weights by {
          forall j | 0 <= j < Width
            ensures weights[j] == expected.weights[j]
          {
          }
        }
        hidden := hidden.(weights := weights);
        neurons := neurons[i := hidden];
      }
      assert Layer(neurons) == HiddenLayerUpdated(ls, e, sigmoid);
      layers := ls[1 := Layer(neurons)];
    }

    /** The inner loop of the hidden-layer update: every weight moves by
        `learningRate * error * input value`. */
    static method UpdatedWeights(weights: seq<real>, e: real, inputLayer: Layer) returns (r: seq<real>)
      requires |weights| == Width && |inputLayer.neurons| >= Width
      ensures r == seq(Width, j requires 0 <= j < Width => Adjusted(weights[j], e, inputLayer.neurons[j].value))
    {
      r := weights;
      for j := 0 to Width
        invariant |r| == Width
        invariant forall j' :: 0 <= j' < j ==> r[j'] == Adjusted(weights[j'], e, inputLayer.neurons[j'].value)
        invariant forall j' :: j <= j' < Width ==> r[j'] == weights[j']
      {
        r := r[j := Adjusted(r[j], e, inputLayer.neurons[j].value)];
      }
    }

    /** `train`: at most `epochs` passes of forward then back propagation
        over all rows; from the second pass on, stops once the mean error
        changes by less than the threshold. An empty training set makes the
        mean NaN, which never stops the loop. Returns the number of passes. */
    method Train(inputs: seq<seq<real>>, outputs: seq<real>, epochs: int, threshold: real)
      returns (epochsRun: nat)
      requires Valid() && |outputs| >= |inputs|
      requires forall i :: 0 <= i < |inputs| ==> |inputs[i]| >= Width
      modifies this
      ensures Valid()
      ensures epochsRun <= if epochs > 0 then epochs else 0
      ensures epochs >= 2 ==> epochsRun >= 2
      ensures epochs < 2 ==> epochsRun == if epochs > 0 then epochs else 0
      ensures |inputs| == 0 ==> epochsRun == if epochs > 0 then epochs else 0
    {
      var previousMeanError := Finite(0.0);
      var epoch := 0;
      epochsRun := 0;
      while epoch < epochs
        invariant Valid()
        invariant 0 <= epoch <= if epochs > 0 then epochs else 0
        invariant epochsRun == epoch
      {
        var totalError := 0.0;
        var i := 0;
        while i < |inputs|
          invariant 0 <= i <= |inputs| && Valid()
        {
          ShapedIsWired(layers);
          ghost var before := layers;
          var prediction := ForwardPropagate(inputs[i]);
          SameParametersKeepShape(layers, before);
          BackPropagate([outputs[i]]);
          var error := outputs[i] - prediction as real;
          totalError := totalError + error * error;
          i := i + 1;
        }
        var meanError := if |inputs| == 0 then NaN else Finite(totalError / |inputs| as real);
        epochsRun := epoch + 1;
        if epoch > 0 && SettledBelow(previousMeanError, meanError, threshold) {
          return;
        }
        previousMeanError := meanError;
        epoch := epoch + 1;
      }
    }
  }

  /** `calculateMetrics`: predictions for the test rows, then the four
      confusion-matrix counters. */
  method CalculateMetrics(nn: NeuralNetwork, testInputs: seq<seq<real>>, testOutputs: seq<real>)
    returns (tp: nat, tn: nat, fp: nat, fn: nat)
    requires nn.Valid() && |testOutputs| >= |testInputs|
    requires forall i :: 0 <= i < |testInputs| ==> |testInputs[i]| >= Width
    modifies nn
    ensures tp + tn + fp + fn == |testInputs|
    ensures var predictions := Classifications(old(nn.layers), testInputs, nn.sigmoid);
      tp + fp == Ones(predictions, |testInputs|)
      && tp + tn == Agreements(predictions, testOutputs, |testInputs|)
      && tp == Hits(predictions, testOutputs, |testInputs|)
  {
    ShapedIsWired(nn.layers);
    var predictions := nn.Predict(testInputs);
    tp, tn, fp, fn := Tally(predictions, testOutputs);
  }
}
