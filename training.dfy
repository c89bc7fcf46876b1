/**
 * The training step of a network. Its output error is the constant 0, so every
 * delta it propagates back is 0 and every weight and bias change it applies
 * is 0: training leaves the network as it was. The definitions here are
 * what the step reads, over the neuron lists and the configured layer sizes.
 */
module Training {
  import opened NetworkUtil
  import opened NeuronGraph
  import opened ForwardPass

  /**
   * The derivative Backpropagate applies, chosen by the network's activation
   * kind and written in terms of the activated value.
   */
  function Derivative(kind: ActivationKind, value: real): real {
    match kind
    case Sigmoid => value * (1.0 - value)
    case ReLU => if value > 0.0 then 1.0 else 0.0
    case Tanh => 1.0 - value * value
  }

  /**
   * What Backpropagate reads from hidden list li: its first counts[li]
   * neurons, their first counts[li + 1] outgoing synapses and, for a
   * non-empty next layer, the first counts[li + 1] entries of bias vector li.
   */
  ghost predicate BackStepDefined(lists: seq<seq<Neuron>>, counts: seq<nat>, biases: seq<seq<real>>, li: int)
    requires |counts| == |lists| && 0 <= li < |lists| - 1
    reads NeuronsIn(lists)`outgoing
  {
    var count, nextCount := counts[li], counts[li + 1];
    && count <= |lists[li]|
    && (forall i :: 0 <= i < count ==> nextCount <= |lists[li][i].outgoing|)
    && (nextCount > 0 ==> li < |biases| && nextCount <= |biases[li]|)
  }

  /** What the whole of Backpropagate reads: an output layer and every BackStepDefined. */
  ghost predicate BackpropDefined(lists: seq<seq<Neuron>>, counts: seq<nat>, biases: seq<seq<real>>)
    requires |counts| == |lists|
    reads NeuronsIn(lists)`outgoing
  {
    && |lists| >= 1
    && counts[|lists| - 1] <= |lists[|lists| - 1]|
    && forall li :: 0 <= li < |lists| - 1 ==> BackStepDefined(lists, counts, biases, li)
  }

  /** One delta row per layer, of the layer's configured size, every entry 0. */
  ghost predicate ZeroDeltas(delta: seq<seq<real>>, counts: seq<nat>) {
    && |delta| == |counts|
    && (forall i :: 0 <= i < |delta| ==> |delta[i]| == counts[i])
    && forall i, j :: 0 <= i < |delta| && 0 <= j < |delta[i]| ==> delta[i][j] == 0.0
  }

  /**
   * The deltas of the training step over lists with configured sizes
   * `counts`: one row per layer; the output row is the error 0 times the
   * derivative, and each hidden row is the delta-weighted sum of the next
   * row times the derivative. All of them are 0. Nothing changes.
   */
  method ComputeDeltas(lists: seq<seq<Neuron>>, counts: seq<nat>, biases: seq<seq<real>>,
                       kind: ActivationKind, act: (ActivationKind, real) -> real) returns (delta: seq<seq<real>>)
    requires |counts| == |lists| && BackpropDefined(lists, counts, biases)
    ensures ZeroDeltas(delta, counts)
  {
    delta := [];
    var i := 0;
    while i < |lists|
      invariant 0 <= i <= |lists|
      invariant ZeroDeltas(delta, counts[..i])
    {
      delta := delta + [seq(counts[i], _ => 0.0)];
      i := i + 1;
    }
    assert counts[..|lists|] == counts;
    var last := |lists| - 1;
    i := 0;
    while i < counts[last]
      invariant 0 <= i
      invariant ZeroDeltas(delta, counts)
    {
      var error := 0.0;
      delta := delta[last := delta[last][i := error * Derivative(kind, act(lists[last][i].activation, 0.0))]];
      i := i + 1;
    }
    var layerIndex := |lists| - 2;
    while layerIndex >= 0
      invariant -1 <= layerIndex <= |lists| - 2
      invariant ZeroDeltas(delta, counts)
    {
      assert BackStepDefined(lists, counts, biases, layerIndex);
      i := 0;
      while i < counts[layerIndex]
        invariant 0 <= i
        invariant ZeroDeltas(delta, counts)
      {
        var error := 0.0;
        var j := 0;
        while j < counts[layerIndex + 1]
          invariant 0 <= j
          invariant error == 0.0
        {
          error := error + delta[layerIndex + 1][j] * lists[layerIndex][i].outgoing[j].weight;
          j := j + 1;
        }
        delta := delta[layerIndex := delta[layerIndex][i := error * Derivative(kind, act(lists[layerIndex][i].activation, 0.0))]];
        i := i + 1;
      }
      layerIndex := layerIndex - 1;
    }
  }

  /**
   * The update half of the training step: for every hidden list li and
   * target i, adds -rate * delta[li + 1][i] * act(kind of neuron j, 0) to
   * the weight of synapse i of each neuron j, then -rate * delta[li + 1][i]
   * to bias i of vector li. With zero deltas the weights and the returned
   * biases are the ones given.
   */
  method ApplyDeltas(lists: seq<seq<Neuron>>, counts: seq<nat>, biases: seq<seq<real>>, delta: seq<seq<real>>,
                     rate: real, act: (ActivationKind, real) -> real) returns (updated: seq<seq<real>>)
    requires |counts| == |lists| && BackpropDefined(lists, counts, biases) && ZeroDeltas(delta, counts)
    modifies SynapsesIn(lists)`weight
    ensures updated == biases
    ensures forall s | s in SynapsesIn(lists) :: s.weight == old(s.weight)
  {
    updated := biases;
    var layerIndex := 0;
    while layerIndex < |lists| - 1
      invariant 0 <= layerIndex
      invariant updated == biases
      invariant forall s | s in SynapsesIn(lists) :: s.weight == old(s.weight)
    {
      assert BackStepDefined(lists, counts, biases, layerIndex);
      updated := ApplyLayerDeltas(lists, counts, updated, delta, layerIndex, rate, act);
      layerIndex := layerIndex + 1;
    }
  }

  /** The update of ApplyDeltas for hidden list li: its synapses into list li + 1 and bias vector li. */
  method ApplyLayerDeltas(lists: seq<seq<Neuron>>, counts: seq<nat>, biases: seq<seq<real>>, delta: seq<seq<real>>,
                          li: int, rate: real, act: (ActivationKind, real) -> real) returns (updated: seq<seq<real>>)
    requires |counts| == |lists| && 0 <= li < |lists| - 1
    requires BackStepDefined(lists, counts, biases, li) && ZeroDeltas(delta, counts)
    modifies SynapsesIn(lists)`weight
    ensures updated == biases
    ensures forall s | s in SynapsesIn(lists) :: s.weight == old(s.weight)
  {
    updated := biases;
    var i := 0;
    while i < counts[li + 1]
      invariant 0 <= i
      invariant updated == biases
      invariant forall s | s in SynapsesIn(lists) :: s.weight == old(s.weight)
    {
      var j := 0;
      while j < counts[li]
        invariant 0 <= j
        invariant forall s | s in SynapsesIn(lists) :: s.weight == old(s.weight)
      {
        var synapse := lists[li][j].outgoing[i];
        assert synapse in SynapsesIn(lists);
        var weightChange := -rate * delta[li + 1][i] * act(lists[li][j].activation, 0.0);
        synapse.weight := synapse.weight + weightChange;
        j := j + 1;
      }
      var bias := updated[li][i] + -rate * delta[li + 1][i];
      assert updated[li][i := bias] == updated[li];
      updated := updated[li := updated[li][i := bias]];
      i := i + 1;
    }
  }

  /**
   * The training step over the neuron lists: the deltas, then their
   * application. The views of the lists, their neurons and the returned
   * biases end as they were.
   */
  method TrainingStep(lists: seq<seq<Neuron>>, counts: seq<nat>, biases: seq<seq<real>>, kind: ActivationKind,
                      rate: real, act: (ActivationKind, real) -> real) returns (updated: seq<seq<real>>)
    requires |counts| == |lists| && BackpropDefined(lists, counts, biases)
    modifies SynapsesIn(lists)`weight
    ensures updated == biases
    ensures forall s | s in SynapsesIn(lists) :: s.weight == old(s.weight)
    ensures View(lists) == old(View(lists))
  {
    assert forall n | n in NeuronsIn(lists) :: allocated(n);
    assert forall s | s in SynapsesIn(lists) :: allocated(s);
    var delta := ComputeDeltas(lists, counts, biases, kind, act);
    ViewFrame(lists);
    label Computed:
    updated := ApplyDeltas(lists, counts, biases, delta, rate, act);
    ViewFrame@Computed(lists);
  }

  /**
   * The training loop over the neuron lists: `epochs` rounds of a forward
   * pass, whose result is dropped, and a training step, then a last forward
   * pass. Since no step changes a weight or a bias, the result is the
   * forward pass of the lists as they were.
   */
  method TrainEpochs(lists: seq<seq<Neuron>>, counts: seq<nat>, biases: seq<seq<real>>, kind: ActivationKind,
                     rate: real, epochs: int, input: seq<real>, act: Activation)
    returns (output: seq<real>, updated: seq<seq<real>>)
    requires |counts| == |lists| && FeedsForward(View(lists), counts, biases, 0, |input|)
    requires epochs > 0 ==> BackpropDefined(lists, counts, biases)
    modifies SynapsesIn(lists)`weight
    ensures updated == biases
    ensures forall s | s in SynapsesIn(lists) :: s.weight == old(s.weight)
    ensures View(lists) == old(View(lists))
    ensures output == old(Forward(View(lists), counts, biases, kind, 0, input, act))
  {
    ghost var net := View(lists);
    updated := biases;
    var epoch := 0;
    while epoch < epochs
      invariant updated == biases
      invariant forall s | s in SynapsesIn(lists) :: s.weight == old(s.weight)
      invariant View(lists) == net
    {
      label Before:
      var _ := ForwardValues(lists, counts, updated, kind, input, act);
      ViewFrame@Before(lists);
      updated := TrainingStep(lists, counts, updated, kind, rate, act);
      epoch := epoch + 1;
    }
    label Trained:
    output := ForwardValues(lists, counts, updated, kind, input, act);
    ViewFrame@Trained(lists);
  }
}
