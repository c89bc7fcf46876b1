/**
 * The network: a list of layers, the weight matrices and bias vectors built
 * beside them, and the graph of neurons and synapses that the forward pass
 * actually reads. Construction, the forward pass, the (inert) training step,
 * crossover and the six mutation operators.
 */
module NeuralNet {
  import opened NetworkUtil
  import opened NeuronGraph
  import opened UnityRandom
  import opened ForwardPass
  import opened Training
  import opened Pruning

  /**
   * The Random.Range(-1f, 1f) draws made while a network is built: the entry
   * (j, k) of the weight matrix of layer i, the bias j of layer i, and the
   * weight of the synapse with a given id. Nothing the constructor promises
   * depends on their range, so they are left unconstrained.
   */
  datatype InitDraws = InitDraws(matrixWeight: (int, int, int) -> real,
                                 bias: (int, int) -> real,
                                 synapseWeight: int -> real)

  /** The configured neuron count of each layer. */
  function Counts(layers: seq<NeuralLayer>): (counts: seq<nat>)
    ensures |counts| == |layers|
    ensures forall i :: 0 <= i < |layers| ==> counts[i] == layers[i].neuronCount
  {
    seq(|layers|, i requires 0 <= i < |layers| => layers[i].neuronCount)
  }

  /**
   * `w` and `b` have the shapes the constructor gives them for layer sizes
   * `counts`: one matrix and one vector per layer after the first; the
   * matrix of layer i + 1 has counts[i + 1] rows of counts[i] entries.
   */
  predicate MatrixShapes(w: seq<seq<seq<real>>>, b: seq<seq<real>>, counts: seq<nat>) {
    && |w| == (if |counts| == 0 then 0 else |counts| - 1)
    && |b| == |w|
    && forall i :: 0 <= i < |w| ==>
         && |w[i]| == counts[i + 1]
         && |b[i]| == counts[i + 1]
         && forall j :: 0 <= j < |w[i]| ==> |w[i][j]| == counts[i]
  }

  /**
   * The matrices and vectors hold the constructor's draws: entry (j, k) of
   * the matrix of layer i is matrixWeight(i, j, k), bias j of layer i is
   * bias(i, j).
   */
  predicate MatricesDrawn(w: seq<seq<seq<real>>>, b: seq<seq<real>>, counts: seq<nat>, draws: InitDraws) {
    && MatrixShapes(w, b, counts)
    && (forall i, j, k :: 0 <= i < |w| && 0 <= j < |w[i]| && 0 <= k < |w[i][j]| ==>
          w[i][j][k] == draws.matrixWeight(i + 1, j, k))
    && (forall i, j :: 0 <= i < |b| && 0 <= j < |b[i]| ==> b[i][j] == draws.bias(i + 1, j))
  }

  /**
   * The number of connections between adjacent layers of sizes `counts`:
   * the sum of counts[i] * counts[i + 1].
   */
  function ConnectionCount(counts: seq<nat>): nat {
    if |counts| < 2 then 0
    else ConnectionCount(counts[..|counts| - 1]) + counts[|counts| - 2] * counts[|counts| - 1]
  }

  /** The matrices of the first a layers after the first hold ConnectionCount(counts[..a + 1]) entries. */
  lemma {:induction false} MatrixPrefixSize(w: seq<seq<seq<real>>>, b: seq<seq<real>>, counts: seq<nat>, a: int)
    requires MatrixShapes(w, b, counts) && 0 <= a <= |w| && a < |counts|
    ensures |Flatten2(w[..a])| == ConnectionCount(counts[..a + 1])
  {
    if a > 0 {
      MatrixPrefixSize(w, b, counts, a - 1);
      Flatten2Prefix(w, a - 1);
      var rows, cols := counts[a], counts[a - 1];
      assert |w[a - 1]| == rows;
      FlattenRowsLength(w[a - 1], cols);
      assert |Flatten(w[a - 1])| == rows * cols;
      var c := counts[..a + 1];
      assert c[..|c| - 1] == counts[..a];
      assert ConnectionCount(c) == ConnectionCount(counts[..a]) + cols * rows;
    }
  }

  /**
   * Where FlattenWeights puts entry (j, k) of the matrix of layer a + 1: after
   * the entries of the matrices before it, row by row.
   */
  function WeightPosition(counts: seq<nat>, a: nat, j: int, k: int): int
    requires a < |counts|
  {
    ConnectionCount(counts[..a + 1]) + j * counts[a] + k
  }

  /** The matrices hold ConnectionCount(counts) entries in all. */
  lemma MatrixSize(w: seq<seq<seq<real>>>, b: seq<seq<real>>, counts: seq<nat>)
    requires MatrixShapes(w, b, counts)
    ensures |Flatten2(w)| == ConnectionCount(counts)
  {
    if |counts| > 0 {
      MatrixPrefixSize(w, b, counts, |w|);
      assert w[..|w|] == w;
      assert counts[..|w| + 1] == counts;
    }
  }

  /** Entry (j, k) of matrix a in the flattened matrices. */
  lemma MatrixEntry(w: seq<seq<seq<real>>>, b: seq<seq<real>>, counts: seq<nat>, a: int, j: int, k: int)
    requires MatrixShapes(w, b, counts)
    requires 0 <= a < |w| && 0 <= j < |w[a]| && 0 <= k < |w[a][j]|
    ensures WeightPosition(counts, a, j, k) < |Flatten2(w)|
    ensures Flatten2(w)[WeightPosition(counts, a, j, k)] == w[a][j][k]
  {
    MatrixPrefixSize(w, b, counts, a);
    FlattenRowsLength(w[a][..j], counts[a]);
    FlattenAt(w[a], j, k);
    var p := |Flatten(w[a][..j])| + k;
    Flatten2At(w, a, p);
  }

  /**
   * Flattening the matrices lays them out layer after layer, row by row, at
   * WeightPosition, and there are ConnectionCount(counts) entries in all.
   */
  lemma MatrixLayout(w: seq<seq<seq<real>>>, b: seq<seq<real>>, counts: seq<nat>)
    requires MatrixShapes(w, b, counts)
    ensures |Flatten2(w)| == ConnectionCount(counts)
    ensures forall a, j, k :: 0 <= a < |w| && 0 <= j < |w[a]| && 0 <= k < |w[a][j]| ==>
      WeightPosition(counts, a, j, k) < |Flatten2(w)| && Flatten2(w)[WeightPosition(counts, a, j, k)] == w[a][j][k]
  {
    MatrixSize(w, b, counts);
    var flat := Flatten2(w);
    forall a, j, k | 0 <= a < |w| && 0 <= j < |w[a]| && 0 <= k < |w[a][j]|
      ensures WeightPosition(counts, a, j, k) < |flat| && flat[WeightPosition(counts, a, j, k)] == w[a][j][k]
    {
      MatrixEntry(w, b, counts, a, j, k);
    }
  }

  /**
   * Where the constructor numbers the synapse from neuron j of layer a to
   * neuron k of layer a + 1: after the synapses of the layers before a,
   * source by source.
   */
  function SynapsePosition(counts: seq<nat>, a: nat, j: int, k: int): int
    requires a + 1 < |counts|
  {
    ConnectionCount(counts[..a + 1]) + j * counts[a + 1] + k
  }

  /**
   * The outgoing lists of fully connected layers of sizes `counts`: list a
   * has counts[a] neurons with counts[a + 1] synapses each, the last layer's
   * neurons have none.
   */
  ghost predicate OutgoingShapes(outs: seq<seq<seq<Synapse>>>, counts: seq<nat>) {
    && |outs| == |counts|
    && (forall a :: 0 <= a < |outs| ==> |outs[a]| == counts[a])
    && (forall a, j :: 0 <= a < |outs| - 1 && 0 <= j < |outs[a]| ==> |outs[a][j]| == counts[a + 1])
    && (|outs| > 0 ==> var last := outs[|outs| - 1]; forall j :: 0 <= j < |last| ==> last[j] == [])
  }

  /** The outgoing lists of the first a layers hold ConnectionCount(counts[..a + 1]) synapses. */
  lemma {:induction false} OutgoingPrefixSize(outs: seq<seq<seq<Synapse>>>, counts: seq<nat>, a: int)
    requires OutgoingShapes(outs, counts) && 0 <= a < |outs|
    ensures |Flatten2(outs[..a])| == ConnectionCount(counts[..a + 1])
  {
    if a > 0 {
      OutgoingPrefixSize(outs, counts, a - 1);
      Flatten2Prefix(outs, a - 1);
      var rows, cols := counts[a - 1], counts[a];
      assert |outs[a - 1]| == rows;
      FlattenRowsLength(outs[a - 1], cols);
      assert |Flatten(outs[a - 1])| == rows * cols;
      var c := counts[..a + 1];
      assert c[..|c| - 1] == counts[..a];
      assert ConnectionCount(c) == ConnectionCount(counts[..a]) + rows * cols;
    }
  }

  /** The outgoing lists hold ConnectionCount(counts) synapses in all: the last layer adds none. */
  lemma OutgoingSize(outs: seq<seq<seq<Synapse>>>, counts: seq<nat>)
    requires OutgoingShapes(outs, counts)
    ensures |Flatten2(outs)| == ConnectionCount(counts)
  {
    if |outs| > 0 {
      var n := |outs| - 1;
      OutgoingPrefixSize(outs, counts, n);
      FlattenNone(outs[n]);
      assert outs[..n + 1] == outs;
      Flatten2Prefix(outs, n);
      assert counts[..n + 1] == counts;
    }
  }

  /** The synapse from neuron j of layer a to neuron k of layer a + 1 in the flattened outgoing lists. */
  lemma OutgoingEntry(outs: seq<seq<seq<Synapse>>>, counts: seq<nat>, a: int, j: int, k: int)
    requires OutgoingShapes(outs, counts)
    requires 0 <= a < |outs| - 1 && 0 <= j < |outs[a]| && 0 <= k < |outs[a][j]|
    ensures SynapsePosition(counts, a, j, k) < |Flatten2(outs)|
    ensures Flatten2(outs)[SynapsePosition(counts, a, j, k)] == outs[a][j][k]
  {
    OutgoingPrefixSize(outs, counts, a);
    FlattenRowsLength(outs[a][..j], counts[a + 1]);
    FlattenAt(outs[a], j, k);
    var p := |Flatten(outs[a][..j])| + k;
    Flatten2At(outs, a, p);
  }

  /**
   * The flattened outgoing lists hold ConnectionCount(counts) synapses, the
   * one from neuron j of layer a to neuron k of layer a + 1 at SynapsePosition.
   */
  lemma OutgoingLayout(outs: seq<seq<seq<Synapse>>>, counts: seq<nat>)
    requires OutgoingShapes(outs, counts)
    ensures |Flatten2(outs)| == ConnectionCount(counts)
    ensures forall a, j, k :: 0 <= a < |outs| - 1 && 0 <= j < |outs[a]| && 0 <= k < |outs[a][j]| ==>
      SynapsePosition(counts, a, j, k) < |Flatten2(outs)| && Flatten2(outs)[SynapsePosition(counts, a, j, k)] == outs[a][j][k]
  {
    OutgoingSize(outs, counts);
    forall a, j, k | 0 <= a < |outs| - 1 && 0 <= j < |outs[a]| && 0 <= k < |outs[a][j]|
      ensures SynapsePosition(counts, a, j, k) < |Flatten2(outs)| && Flatten2(outs)[SynapsePosition(counts, a, j, k)] == outs[a][j][k]
    {
      OutgoingEntry(outs, counts, a, j, k);
    }
  }

  /**
   * Each list holds exactly its layer's configured number of neurons, and the
   * neuron at position j has index j.
   */
  ghost predicate NeuronsAsConfigured(lists: seq<seq<Neuron>>, counts: seq<nat>) {
    && |lists| == |counts|
    && (forall i :: 0 <= i < |lists| ==> |lists[i]| == counts[i])
    && forall i, j :: 0 <= i < |lists| && 0 <= j < |lists[i]| ==> lists[i][j].index == j
  }

  /** Every neuron of `lists` has activation kind `kind`. */
  ghost predicate KindsAre(lists: seq<seq<Neuron>>, kind: ActivationKind)
    reads NeuronsIn(lists)`activation
  {
    forall i, j :: 0 <= i < |lists| && 0 <= j < |lists[i]| ==> lists[i][j].activation == kind
  }

  /** Synapse m of `synapses` has id m and the drawn weight draw(m). */
  ghost predicate Enumerated(synapses: seq<Synapse>, draw: int -> real)
    reads (set s | s in synapses)`weight
  {
    forall m :: 0 <= m < |synapses| ==> synapses[m].id == m && synapses[m].weight == draw(m)
  }

  /**
   * The synapses are numbered in (layer, source, target) order: the k-th
   * outgoing synapse of neuron j of list a is the synapse at SynapsePosition,
   * with that id and the weight drawn for it.
   */
  ghost predicate NumberedInOrder(lists: seq<seq<Neuron>>, counts: seq<nat>, synapses: seq<Synapse>, draw: int -> real)
    requires |lists| == |counts|
    reads NeuronsIn(lists)`outgoing, (set s | s in synapses)`weight
  {
    forall a, j, k :: 0 <= a < |lists| - 1 && 0 <= j < |lists[a]| && 0 <= k < |lists[a + 1]| ==>
      && k < |lists[a][j].outgoing|
      && SynapsePosition(counts, a, j, k) < |synapses|
      && synapses[SynapsePosition(counts, a, j, k)] == lists[a][j].outgoing[k]
      && lists[a][j].outgoing[k].id == SynapsePosition(counts, a, j, k)
      && lists[a][j].outgoing[k].weight == draw(SynapsePosition(counts, a, j, k))
  }

  /**
   * Fully connected lists of the configured sizes whose synapses are listed
   * and enumerated in AllOutgoing order have ConnectionCount(counts)
   * synapses, numbered in order.
   */
  lemma SynapseLayout(lists: seq<seq<Neuron>>, counts: seq<nat>, synapses: seq<Synapse>, draw: int -> real)
    requires NeuronsAsConfigured(lists, counts) && FullyConnected(lists)
    requires synapses == AllOutgoing(lists) && Enumerated(synapses, draw)
    ensures |synapses| == ConnectionCount(counts)
    ensures NumberedInOrder(lists, counts, synapses, draw)
  {
    var outs := OutgoingValues(lists);
    AllOutgoingIs(lists, outs);
    OutgoingShapesOf(lists, counts, outs);
    OutgoingLayout(outs, counts);
    forall a, j, k | 0 <= a < |lists| - 1 && 0 <= j < |lists[a]| && 0 <= k < |lists[a + 1]|
      ensures && k < |lists[a][j].outgoing|
              && SynapsePosition(counts, a, j, k) < |synapses|
              && synapses[SynapsePosition(counts, a, j, k)] == lists[a][j].outgoing[k]
              && lists[a][j].outgoing[k].id == SynapsePosition(counts, a, j, k)
              && lists[a][j].outgoing[k].weight == draw(SynapsePosition(counts, a, j, k))
    {
      assert outs[a][j] == lists[a][j].outgoing;
    }
  }

  /** The outgoing lists read off fully connected lists of the configured sizes have the constructor's shapes. */
  lemma OutgoingShapesOf(lists: seq<seq<Neuron>>, counts: seq<nat>, outs: seq<seq<seq<Synapse>>>)
    requires NeuronsAsConfigured(lists, counts) && FullyConnected(lists)
    requires |outs| == |lists| && forall a :: 0 <= a < |lists| ==> |outs[a]| == |lists[a]|
    requires forall a, b :: 0 <= a < |lists| && 0 <= b < |lists[a]| ==> outs[a][b] == lists[a][b].outgoing
    ensures OutgoingShapes(outs, counts)
  {
    forall a, j | 0 <= a < |outs| - 1 && 0 <= j < |outs[a]|
      ensures |outs[a][j]| == counts[a + 1]
    {
      assert Connects(lists[a], lists[a + 1]);
    }
  }

  /**
   * Fully connected lists of the configured sizes, with bias vectors of the
   * constructor's shapes, can run the forward pass from list li with n
   * values whenever n does not exceed that list's size.
   */
  lemma {:induction false} FullFeedsForward(lists: seq<seq<Neuron>>, w: seq<seq<seq<real>>>, biases: seq<seq<real>>,
                                            counts: seq<nat>, li: nat, n: nat)
    requires NeuronsAsConfigured(lists, counts) && FullyConnected(lists) && MatrixShapes(w, biases, counts)
    requires li < |lists| ==> n <= counts[li]
    ensures FeedsForward(View(lists), counts, biases, li, n)
    decreases |lists| - li
  {
    ViewAt(lists);
    if li + 1 < |lists| {
      assert Connects(lists[li], lists[li + 1]);
      FullFeedsForward(lists, w, biases, counts, li + 1, counts[li + 1]);
    }
  }

  /**
   * The values one mutation draws with Random.Range, by role: a layer index,
   * a neuron index, a target neuron index, a synapse index, a new weight in
   * [-1, 1], a weight change in [-0.5, 0.5], an activation kind's ordinal,
   * and the weights of the synapses into an added neuron, one per neuron of
   * the layer before it, in that layer's order.
   */
  datatype MutationDraws = MutationDraws(layer: int, neuron: int, target: int, synapse: int,
                                         weight: real, change: real, kind: int, weights: seq<real>)

  /**
   * A neuron as EvolveToAddNeuron builds it: the given index and kind, no
   * outgoing synapse, and one incoming synapse, with id 0, from each neuron
   * of `previous` in order, weighted by `weights`.
   */
  ghost predicate BuiltFrom(n: Neuron, index: int, kind: ActivationKind, previous: seq<Neuron>, weights: seq<real>)
    reads {n}`activation, {n}`outgoing, {n}`incoming, (set s | s in n.incoming)`weight
  {
    && n.index == index && n.activation == kind && n.outgoing == []
    && |n.incoming| == |previous| == |weights|
    && forall k :: 0 <= k < |n.incoming| ==>
         var s := n.incoming[k];
         s.id == 0 && s.inputNeuron == previous[k] && s.outputNeuron == n && s.weight == weights[k]
  }

  /**
   * The loop of RemoveDisconnectedElements over layers holding the neuron
   * lists `lists`: from layer 1 on, in order, layer i's list becomes the
   * Connected neurons of it against layer i - 1 as already filtered.
   */
  method PruneLayers(layers: seq<NeuralLayer>, ghost lists: seq<seq<Neuron>>)
    requires forall a, b :: 0 <= a < b < |layers| ==> layers[a] != layers[b]
    requires |lists| == |layers| && forall i :: 0 <= i < |layers| ==> layers[i].neurons == lists[i]
    modifies (set l | l in layers)`neurons
    ensures forall i :: 0 <= i < |layers| ==> layers[i].neurons == old(Prune(lists))[i]
  {
    ghost var pruned := Prune(lists);
    assert forall n | n in NeuronsIn(lists) :: allocated(n);
    var layerIndex := 1;
    while layerIndex < |layers|
      invariant 1 <= layerIndex
      invariant forall i :: 0 <= i < layerIndex && i < |layers| ==> layers[i].neurons == pruned[i]
      invariant forall i :: layerIndex <= i < |layers| ==> layers[i].neurons == lists[i]
    {
      PruneAt(lists, layerIndex);
      assert Prune(lists) == pruned;
      MembersIn(lists, layerIndex);
      var connectedNeurons := ConnectedNeurons(layers[layerIndex].neurons, layers[layerIndex - 1].neurons);
      assert connectedNeurons == pruned[layerIndex];
      layers[layerIndex].neurons := connectedNeurons;
      layerIndex := layerIndex + 1;
    }
  }

  /** `child` has `parent`'s configured neuron count and settings. */
  predicate SameSettings(child: NeuralLayer, parent: NeuralLayer) {
    && child.neuronCount == parent.neuronCount && child.activation == parent.activation
    && child.regularization == parent.regularization && child.optimization == parent.optimization
  }

  /**
   * `child` is `first` crossed with `second`: first's count and settings, as
   * many neurons as `first`, first's neuron at every even position and
   * second's at every odd one.
   */
  ghost predicate CrossedFrom(child: NeuralLayer, first: NeuralLayer, second: NeuralLayer)
    reads child, first, second
  {
    && SameSettings(child, first)
    && |child.neurons| == |first.neurons|
    && (forall k :: 0 <= k < |first.neurons| && k % 2 == 0 ==> child.neurons[k] == first.neurons[k])
    && (forall k :: 0 <= k < |first.neurons| && k % 2 == 1 && k < |second.neurons| ==>
          child.neurons[k] == second.neurons[k])
  }

  /**
   * Every layer pair the network crossover crosses can be crossed: layer i of
   * `mine` with layer i of `theirs` at even i, the other way round at odd i.
   */
  ghost predicate LayersCrossable(mine: seq<NeuralLayer>, theirs: seq<NeuralLayer>)
    reads (set l | l in mine)`neurons, (set l | l in theirs)`neurons
  {
    && |mine| <= |theirs|
    && forall i :: 0 <= i < |mine| ==>
         if i % 2 == 0 then mine[i].CrossoverDefined(theirs[i]) else theirs[i].CrossoverDefined(mine[i])
  }

  /**
   * A layer at an odd position that has one neuron more than its partner
   * layer, whose length is odd, cannot be crossed: the crossover with it as
   * second parent reads the partner's neuron at that odd length. This is what
   * a network grown by EvolveToAddNeuron meets when it is drawn as second
   * parent against one that was not.
   */
  lemma GrownLayerNotCrossable(mine: seq<NeuralLayer>, theirs: seq<NeuralLayer>, i: int)
    requires 0 <= i < |mine| <= |theirs| && i % 2 == 1
    requires |mine[i].neurons| % 2 == 1 && |theirs[i].neurons| == |mine[i].neurons| + 1
    ensures !LayersCrossable(mine, theirs)
  {
    var j := |mine[i].neurons|;
    assert 0 <= j < |theirs[i].neurons| && j % 2 == 1 && !(j < |mine[i].neurons|);
    assert !theirs[i].CrossoverDefined(mine[i]);
  }

  /**
   * The child layers of the network crossover, one per layer of `mine`:
   * layer i is the crossover of `mine[i]` with `theirs[i]` at even i and of
   * `theirs[i]` with `mine[i]` at odd i. Each is a new layer object.
   */
  method ChildLayers(mine: seq<NeuralLayer>, theirs: seq<NeuralLayer>) returns (childLayers: seq<NeuralLayer>)
    requires LayersCrossable(mine, theirs)
    ensures |childLayers| == |mine| && Counts(childLayers) == ChildCounts(mine, theirs)
    ensures forall a, b :: 0 <= a < b < |childLayers| ==> childLayers[a] != childLayers[b]
    ensures forall i :: 0 <= i < |mine| ==>
      && fresh(childLayers[i])
      && (if i % 2 == 0 then CrossedFrom(childLayers[i], mine[i], theirs[i])
          else CrossedFrom(childLayers[i], theirs[i], mine[i]))
  {
    childLayers := [];
    var i := 0;
    while i < |mine|
      invariant 0 <= i <= |mine| && |childLayers| == i
      invariant forall a, b :: 0 <= a < b < |childLayers| ==> childLayers[a] != childLayers[b]
      invariant forall j :: 0 <= j < i ==>
        && fresh(childLayers[j])
        && (if j % 2 == 0 then CrossedFrom(childLayers[j], mine[j], theirs[j])
            else CrossedFrom(childLayers[j], theirs[j], mine[j]))
    {
      var childLayer;
      if i % 2 == 0 {
        childLayer := mine[i].Crossover(theirs[i]);
      } else {
        childLayer := theirs[i].Crossover(mine[i]);
      }
      childLayers := childLayers + [childLayer];
      i := i + 1;
    }
  }

  /**
   * The layer sizes of a crossover child of networks with layers `mine` and
   * `theirs`: the configured count of mine's layer at even positions and of
   * theirs' at odd ones.
   */
  function ChildCounts(mine: seq<NeuralLayer>, theirs: seq<NeuralLayer>): (counts: seq<nat>)
    requires |mine| <= |theirs|
    ensures |counts| == |mine|
    ensures forall i :: 0 <= i < |mine| ==>
      counts[i] == if i % 2 == 0 then mine[i].neuronCount else theirs[i].neuronCount
  {
    seq(|mine|, i requires 0 <= i < |mine| => if i % 2 == 0 then mine[i].neuronCount else theirs[i].neuronCount)
  }

  /**
   * The draws `d` of the mutation numbered `choice` are in range for a new
   * network with layer sizes `counts`, in which every neuron of layer i has
   * one outgoing synapse per neuron of layer i + 1.
   */
  predicate MutationDrawnFor(counts: seq<nat>, choice: int, d: MutationDraws) {
    match choice
    case 0 =>
      && |counts| >= 2 && IntDraw(d.layer, 0, |counts| - 1)
      && 0 <= d.neuron < counts[d.layer] && 0 <= d.target < counts[d.layer + 1]
      && FloatDraw(d.weight, -1.0, 1.0)
    case 1 =>
      && |counts| >= 1 && IntDraw(d.layer, 0, |counts| - 1) && d.layer + 1 < |counts|
      && 0 <= d.neuron < counts[d.layer] && 0 <= d.synapse < counts[d.layer + 1]
      && FloatDraw(d.change, -0.5, 0.5)
    case 2 =>
      && |counts| >= 1 && IntDraw(d.layer, 0, |counts| - 1) && d.layer + 1 < |counts|
      && 0 <= d.neuron < counts[d.layer] && 0 <= d.synapse < counts[d.layer + 1]
    case 3 =>
      && |counts| >= 2 && IntDraw(d.layer, 1, |counts| - 1)
      && IntDraw(d.neuron, 0, counts[d.layer])
      && |d.weights| == counts[d.layer - 1]
      && forall k :: 0 <= k < |d.weights| ==> FloatDraw(d.weights[k], -1.0, 1.0)
    case 4 =>
      && |counts| >= 2 && IntDraw(d.layer, 1, |counts| - 1)
      && 0 <= d.neuron < counts[d.layer] && IntDraw(d.kind, 0, ACTIVATION_KIND_COUNT)
    case _ => true
  }

  class NeuralNetwork {
    var layers: seq<NeuralLayer>
    var weights: seq<seq<seq<real>>>
    var biases: seq<seq<real>>
    const activation: ActivationKind
    const regularization: RegularizationKind
    const regularizationRate: real
    const optimization: OptimizationKind
    const learningRate: real
    const epochs: int
    const dropoutRate: real
    var synapses: seq<Synapse>
    var synapseId: int

    ghost function LayerSet(): set<NeuralLayer>
      reads this`layers
    {
      set l | l in layers
    }

    /** The neuron list of each layer, in layer order. */
    function NeuronLists(): (lists: seq<seq<Neuron>>)
      reads this`layers, LayerSet()
      ensures |lists| == |layers|
      ensures forall i :: 0 <= i < |layers| ==> lists[i] == layers[i].neurons
    {
      var ls := layers;
      seq(|ls|, i requires 0 <= i < |ls| reads set l | l in ls => ls[i].neurons)
    }

    ghost function NeuronSet(): set<Neuron>
      reads this`layers, LayerSet()
    {
      NeuronsIn(NeuronLists())
    }

    /** The synapses reachable from the neurons through their outgoing lists. */
    ghost function SynapseSet(): set<Synapse>
      reads this`layers, LayerSet(), NeuronSet()`outgoing
    {
      SynapsesIn(NeuronLists())
    }

    /** The synapses in the incoming lists of the neurons. */
    ghost function IncomingSet(): set<Synapse>
      reads this`layers, LayerSet(), NeuronSet()`incoming
    {
      set n, s | n in NeuronSet() && s in n.incoming :: s
    }

    /** The layer objects are pairwise distinct. */
    ghost predicate DistinctLayers()
      reads this`layers
    {
      forall a, b :: 0 <= a < b < |layers| ==> layers[a] != layers[b]
    }

    /** Everything the constructor establishes about a new network. */
    ghost predicate AsConstructed(draws: InitDraws)
      reads this, LayerSet(), NeuronSet()`activation, NeuronSet()`incoming, NeuronSet()`outgoing
      reads (set s | s in synapses)`weight
    {
      var built :=
        && MatricesDrawn(weights, biases, Counts(layers), draws)
        && GraphAsConstructed(draws.synapseWeight);
      built
    }

    /**
     * The neuron graph of a new network: the configured neurons of every
     * layer, each neuron occurring once, adjacent layers fully connected and
     * `synapses` listing every synapse with its id and drawn weight.
     */
    ghost predicate GraphAsConstructed(draw: int -> real)
      reads this, LayerSet(), NeuronSet()`activation, NeuronSet()`incoming, NeuronSet()`outgoing
      reads (set s | s in synapses)`weight
    {
      GraphBuiltWith(NeuronLists(), draw)
    }

    /** GraphAsConstructed, for neuron lists `lists` given apart from the layers. */
    ghost predicate GraphBuiltWith(lists: seq<seq<Neuron>>, draw: int -> real)
      reads this, NeuronsIn(lists)`activation, NeuronsIn(lists)`incoming, NeuronsIn(lists)`outgoing
      reads (set s | s in synapses)`weight
    {
      var built :=
        && NeuronsAsConfigured(lists, Counts(layers))
        && KindsAre(lists, activation)
        && DistinctNeurons(lists)
        && FullyConnected(lists)
        && synapses == AllOutgoing(lists)
        && synapseId == |synapses|
        && Enumerated(synapses, draw);
      built
    }

    /**
     * Builds the matrices, gives every layer fresh neurons and fully connects
     * adjacent layers. The layer objects are the caller's, and their neuron
     * lists are overwritten.
     */
    constructor (layers: seq<NeuralLayer>, activation: ActivationKind,
                 regularization: RegularizationKind, regularizationRate: real,
                 optimization: OptimizationKind, learningRate: real,
                 epochs: int, dropoutRate: real, draws: InitDraws)
      requires forall a, b :: 0 <= a < b < |layers| ==> layers[a] != layers[b]
      modifies (set l | l in layers)`neurons
      ensures this.layers == layers && this.activation == activation
      ensures this.regularization == regularization && this.regularizationRate == regularizationRate
      ensures this.optimization == optimization && this.learningRate == learningRate
      ensures this.epochs == epochs && this.dropoutRate == dropoutRate
      ensures AsConstructed(draws)
      ensures fresh(NeuronSet()) && fresh(SynapseSet())
    {
      this.layers := layers;
      this.activation := activation;
      this.regularization := regularization;
      this.regularizationRate := regularizationRate;
      this.optimization := optimization;
      this.learningRate := learningRate;
      this.epochs := epochs;
      this.dropoutRate := dropoutRate;
      synapses := [];
      new;
      Initialize(draws);
    }

    /** The constructor's three steps, in order. */
    method Initialize(draws: InitDraws)
      requires synapses == [] && DistinctLayers()
      modifies this`weights, this`biases, this`synapses, this`synapseId, LayerSet()`neurons
      ensures AsConstructed(draws)
      ensures fresh(NeuronSet()) && fresh(SynapseSet())
    {
      InitializeWeightsAndBiases(draws);
      InitializeGraph(draws.synapseWeight);
    }

    /** The last two steps: fresh neurons for every layer, then the synapses between them. */
    method InitializeGraph(draw: int -> real)
      requires synapses == [] && DistinctLayers()
      modifies this`synapses, this`synapseId, LayerSet()`neurons
      ensures GraphAsConstructed(draw)
      ensures fresh(NeuronSet()) && fresh(SynapseSet())
    {
      ghost var lists := InitializeNeurons();
      WireNeurons(lists, draw);
      NeuronListsAre(lists);
      SynapsesInAllOutgoing(lists);
    }

    /** The synapses of InitializeGraph, over the fresh unwired neuron lists `lists` the layers hold. */
    method WireNeurons(ghost lists: seq<seq<Neuron>>, draw: int -> real)
      requires synapses == [] && Holds(lists)
      requires NeuronsAsConfigured(lists, Counts(layers)) && KindsAre(lists, activation)
      requires DistinctNeurons(lists) && Unwired(lists)
      modifies this`synapseId, this`synapses, NeuronsIn(lists)`outgoing, NeuronsIn(lists)`incoming
      ensures Holds(lists) && GraphBuiltWith(lists, draw)
      ensures forall k :: 0 <= k < |synapses| ==> fresh(synapses[k])
    {
      InitializeSynapses(lists, draw);
      GraphBuilt(lists, draw);
    }

    /** Fills one weight matrix and one bias vector per layer after the first. */
    method InitializeWeightsAndBiases(draws: InitDraws)
      modifies this`weights, this`biases
      ensures MatricesDrawn(weights, biases, Counts(layers), draws)
    {
      weights := [];
      biases := [];
      var i := 1;
      while i < |layers|
        invariant 1 <= i <= if |layers| == 0 then 1 else |layers|
        invariant |weights| == i - 1 && |biases| == i - 1
        invariant forall i' :: 0 <= i' < i - 1 ==>
          && |weights[i']| == layers[i' + 1].neuronCount
          && |biases[i']| == layers[i' + 1].neuronCount
          && forall j :: 0 <= j < |weights[i']| ==> |weights[i'][j]| == layers[i'].neuronCount
        invariant forall i', j, k :: 0 <= i' < |weights| && 0 <= j < |weights[i']| && 0 <= k < |weights[i'][j]| ==>
          weights[i'][j][k] == draws.matrixWeight(i' + 1, j, k)
        invariant forall i', j :: 0 <= i' < |biases| && 0 <= j < |biases[i']| ==>
          biases[i'][j] == draws.bias(i' + 1, j)
      {
        var previousLayerSize := layers[i - 1].neuronCount;
        var currentLayerSize := layers[i].neuronCount;

        var layerWeights: seq<seq<real>> := [];
        var j := 0;
        while j < currentLayerSize
          invariant 0 <= j <= currentLayerSize
          invariant |layerWeights| == j
          invariant forall j' :: 0 <= j' < j ==> |layerWeights[j']| == previousLayerSize
          invariant forall j', k :: 0 <= j' < j && 0 <= k < |layerWeights[j']| ==>
            layerWeights[j'][k] == draws.matrixWeight(i, j', k)
        {
          var row: seq<real> := [];
          var k := 0;
          while k < previousLayerSize
            invariant 0 <= k <= previousLayerSize
            invariant |row| == k
            invariant forall k' :: 0 <= k' < k ==> row[k'] == draws.matrixWeight(i, j, k')
          {
            row := row + [draws.matrixWeight(i, j, k)];
            k := k + 1;
          }
          layerWeights := layerWeights + [row];
          j := j + 1;
        }
        weights := weights + [layerWeights];

        var layerBiases: seq<real> := [];
        j := 0;
        while j < currentLayerSize
          invariant 0 <= j <= currentLayerSize
          invariant |layerBiases| == j
          invariant forall j' :: 0 <= j' < j ==> layerBiases[j'] == draws.bias(i, j')
        {
          layerBiases := layerBiases + [draws.bias(i, j)];
          j := j + 1;
        }
        biases := biases + [layerBiases];
        i := i + 1;
      }
    }

    /**
     * In a new network both weight stores have ConnectionCount entries, and
     * the synapses are numbered in (layer, source, target) order.
     */
    lemma ConstructedLayout(draws: InitDraws)
      requires AsConstructed(draws)
      ensures |synapses| == ConnectionCount(Counts(layers)) == |Flatten2(weights)|
      ensures NumberedInOrder(NeuronLists(), Counts(layers), synapses, draws.synapseWeight)
    {
      MatrixSize(weights, biases, Counts(layers));
      SynapseLayout(NeuronLists(), Counts(layers), synapses, draws.synapseWeight);
    }

    /** The weight matrices, layer by layer and row by row, as one list. Nothing changes. */
    method FlattenWeights() returns (flat: seq<real>)
      ensures flat == Flatten2(weights)
    {
      flat := [];
      var i := 0;
      while i < |weights|
        invariant 0 <= i <= |weights|
        invariant flat == Flatten2(weights[..i])
      {
        var layerWeights := weights[i];
        var j := 0;
        while j < |layerWeights|
          invariant 0 <= j <= |layerWeights|
          invariant flat == Flatten2(weights[..i]) + Flatten(layerWeights[..j])
        {
          assert layerWeights[..j + 1][..j] == layerWeights[..j];
          flat := flat + layerWeights[j];
          j := j + 1;
        }
        assert layerWeights[..j] == layerWeights;
        assert weights[..i + 1][..i] == weights[..i];
        i := i + 1;
      }
      assert weights[..i] == weights;
    }

    /** The layers hold the neuron lists `lists`, in order. */
    ghost predicate Holds(lists: seq<seq<Neuron>>)
      reads this`layers, LayerSet()`neurons
    {
      |layers| == |lists| && forall a :: 0 <= a < |lists| ==> layers[a].neurons == lists[a]
    }

    lemma GraphBuilt(lists: seq<seq<Neuron>>, draw: int -> real)
      requires NeuronsAsConfigured(lists, Counts(layers)) && KindsAre(lists, activation)
      requires DistinctNeurons(lists) && FullyConnected(lists)
      requires synapses == AllOutgoing(lists)
      requires synapseId == |synapses| && Enumerated(synapses, draw)
      ensures GraphBuiltWith(lists, draw)
    {
    }

    lemma NeuronListsAre(lists: seq<seq<Neuron>>)
      requires Holds(lists)
      ensures NeuronLists() == lists
    {
    }

    /**
     * Replaces every layer's neuron list with fresh neurons 0 .. neuronCount-1;
     * `lists` is the new lists.
     */
    method InitializeNeurons() returns (ghost lists: seq<seq<Neuron>>)
      requires DistinctLayers()
      modifies LayerSet()`neurons
      ensures Holds(lists)
      ensures NeuronsAsConfigured(lists, Counts(layers)) && KindsAre(lists, activation)
      ensures DistinctNeurons(lists) && Unwired(lists)
      ensures fresh(NeuronsIn(lists))
    {
      lists := [];
      var layerIndex := 0;
      while layerIndex < |layers|
        invariant 0 <= layerIndex <= |layers| && |lists| == layerIndex
        invariant forall a :: 0 <= a < layerIndex ==> layers[a].neurons == lists[a]
        invariant forall a :: 0 <= a < layerIndex ==> |lists[a]| == layers[a].neuronCount
        invariant forall a, b :: 0 <= a < layerIndex && 0 <= b < |lists[a]| ==>
          && fresh(lists[a][b])
          && lists[a][b].index == b && lists[a][b].activation == activation
          && lists[a][b].incoming == [] && lists[a][b].outgoing == []
        invariant DistinctNeurons(lists)
      {
        var layerSize := layers[layerIndex].neuronCount;
        var layerNeurons := NewNeurons(layerSize);
        layers[layerIndex].neurons := layerNeurons;
        lists := lists + [layerNeurons];
        layerIndex := layerIndex + 1;
      }
    }

    /** `count` fresh neurons with indices 0 .. count-1 and this network's activation kind. */
    method NewNeurons(count: nat) returns (layerNeurons: seq<Neuron>)
      ensures |layerNeurons| == count
      ensures forall b :: 0 <= b < count ==>
        && fresh(layerNeurons[b])
        && layerNeurons[b].index == b && layerNeurons[b].activation == activation
        && layerNeurons[b].incoming == [] && layerNeurons[b].outgoing == []
      ensures DistinctSeq(layerNeurons)
    {
      layerNeurons := [];
      var neuronIndex := 0;
      while neuronIndex < count
        invariant 0 <= neuronIndex <= count
        invariant |layerNeurons| == neuronIndex
        invariant forall b :: 0 <= b < neuronIndex ==>
          && fresh(layerNeurons[b])
          && layerNeurons[b].index == b && layerNeurons[b].activation == activation
          && layerNeurons[b].incoming == [] && layerNeurons[b].outgoing == []
        invariant DistinctSeq(layerNeurons)
      {
        var neuron := new Neuron(neuronIndex, activation);
        layerNeurons := layerNeurons + [neuron];
        neuronIndex := neuronIndex + 1;
      }
    }

    /**
     * Connects every neuron of each layer to every neuron of the next one, in
     * (layer, source, target) order, numbering the synapses 0, 1, 2, ...
     */
    method InitializeSynapses(ghost lists: seq<seq<Neuron>>, draw: int -> real)
      requires synapses == []
      requires Holds(lists) && DistinctNeurons(lists) && Unwired(lists)
      modifies this`synapseId, this`synapses, NeuronsIn(lists)`outgoing, NeuronsIn(lists)`incoming
      ensures FullyConnected(lists)
      ensures synapses == AllOutgoing(lists)
      ensures synapseId == |synapses| && Enumerated(synapses, draw)
      ensures forall k :: 0 <= k < |synapses| ==> fresh(synapses[k])
    {
      ghost var outs := UnwiredRecorded(lists);
      ghost var ins := outs;
      synapseId := 0;
      var i := 0;
      while i < |layers| - 1
        invariant 0 <= i <= if |layers| == 0 then 0 else |layers| - 1
        invariant Holds(lists)
        invariant Recorded(lists, outs, ins) && WiredUpTo(lists, i, outs, ins)
        invariant synapses == Flatten2(outs[..i])
        invariant synapseId == |synapses| && Enumerated(synapses, draw)
        invariant forall k :: 0 <= k < |synapses| ==> fresh(synapses[k])
      {
        outs, ins := ConnectNext(lists, i, draw, outs, ins);
        i := i + 1;
      }
      FullyConnectedOf(lists, outs, ins, i);
    }

    /**
     * The body of InitializeSynapses's loop: connects layer i to layer i + 1;
     * `outs` and `ins` record every neuron's synapse lists.
     */
    method ConnectNext(ghost lists: seq<seq<Neuron>>, i: int, draw: int -> real,
                       ghost outs: seq<seq<seq<Synapse>>>, ghost ins: seq<seq<seq<Synapse>>>)
      returns (ghost outs': seq<seq<seq<Synapse>>>, ghost ins': seq<seq<seq<Synapse>>>)
      requires 0 <= i < |layers| - 1 && Holds(lists) && DistinctNeurons(lists)
      requires Recorded(lists, outs, ins) && WiredUpTo(lists, i, outs, ins)
      requires synapses == Flatten2(outs[..i])
      requires synapseId == |synapses| && Enumerated(synapses, draw)
      modifies this`synapseId, this`synapses, Members(lists[i])`outgoing, Members(lists[i + 1])`incoming
      ensures Recorded(lists, outs', ins') && WiredUpTo(lists, i + 1, outs', ins')
      ensures synapses == Flatten2(outs'[..i + 1])
      ensures synapseId == |synapses| && Enumerated(synapses, draw)
      ensures |old(synapses)| <= |synapses| && synapses[..|old(synapses)|] == old(synapses)
      ensures forall k :: |old(synapses)| <= k < |synapses| ==> fresh(synapses[k])
    {
      OutsidePair(lists, i);
      DistinctList(lists, i);
      DistinctList(lists, i + 1);
      var lo, li := ConnectLayer(layers[i].neurons, layers[i + 1].neurons, draw);
      WiredStep(lists, i, outs, ins, lo, li);
      outs', ins' := outs[i := lo], ins[i + 1 := li];
      assert outs'[..i + 1][..i] == outs[..i];
    }

    /**
     * Connects every neuron of `src` to every neuron of `dst`, source by
     * source and target by target, continuing the synapse numbering; `outs`
     * and `ins` are the new outgoing and incoming lists.
     */
    method ConnectLayer(src: seq<Neuron>, dst: seq<Neuron>, draw: int -> real)
      returns (ghost outs: seq<seq<Synapse>>, ghost ins: seq<seq<Synapse>>)
      requires DistinctSeq(src) && DistinctSeq(dst)
      requires NoOutgoing(src) && NoIncoming(dst)
      requires synapseId == |synapses| && Enumerated(synapses, draw)
      modifies this`synapseId, this`synapses, Members(src)`outgoing, Members(dst)`incoming
      ensures Linked(src, dst, outs, ins)
      ensures forall j :: 0 <= j < |src| ==> src[j].outgoing == outs[j]
      ensures forall k :: 0 <= k < |dst| ==> dst[k].incoming == ins[k]
      ensures synapses == old(synapses) + Flatten(outs)
      ensures synapseId == |synapses| && Enumerated(synapses, draw)
      ensures forall k :: |old(synapses)| <= k < |synapses| ==> fresh(synapses[k])
    {
      outs := [];
      ins := seq(|dst|, k => []);
      var j := 0;
      while j < |src|
        invariant LinkedUpTo(src, dst, outs, ins, j)
        invariant |outs| == j && forall j' :: 0 <= j' < j ==> src[j'].outgoing == outs[j']
        invariant forall j' :: j <= j' < |src| ==> src[j'].outgoing == []
        invariant forall k :: 0 <= k < |dst| ==> dst[k].incoming == ins[k]
        invariant synapses == old(synapses) + Flatten(outs)
        invariant synapseId == |synapses| && Enumerated(synapses, draw)
        invariant forall k :: |old(synapses)| <= k < |synapses| ==> fresh(synapses[k])
      {
        outs, ins := ConnectSource(src, dst, j, draw, outs, ins);
        j := j + 1;
      }
    }

    /**
     * The body of ConnectLayer's loop: connects source j to every target,
     * extending the recorded lists `outs` and `ins` by one source.
     */
    method ConnectSource(src: seq<Neuron>, dst: seq<Neuron>, j: int, draw: int -> real,
                         ghost outs: seq<seq<Synapse>>, ghost ins: seq<seq<Synapse>>)
      returns (ghost outs': seq<seq<Synapse>>, ghost ins': seq<seq<Synapse>>)
      requires DistinctSeq(src) && DistinctSeq(dst) && 0 <= j < |src|
      requires LinkedUpTo(src, dst, outs, ins, j)
      requires forall j' :: 0 <= j' < j ==> src[j'].outgoing == outs[j']
      requires forall j' :: j <= j' < |src| ==> src[j'].outgoing == []
      requires forall k :: 0 <= k < |dst| ==> dst[k].incoming == ins[k]
      requires synapseId == |synapses| && Enumerated(synapses, draw)
      modifies this`synapseId, this`synapses, {src[j]}`outgoing, Members(dst)`incoming
      ensures LinkedUpTo(src, dst, outs', ins', j + 1)
      ensures forall j' :: 0 <= j' < j + 1 ==> src[j'].outgoing == outs'[j']
      ensures forall j' :: j + 1 <= j' < |src| ==> src[j'].outgoing == []
      ensures forall k :: 0 <= k < |dst| ==> dst[k].incoming == ins'[k]
      ensures synapses == old(synapses) + outs'[j] && outs'[..j] == outs
      ensures forall k :: |old(synapses)| <= k < |synapses| ==> fresh(synapses[k])
      ensures synapseId == |synapses| && Enumerated(synapses, draw)
    {
      ConnectNeuron(src[j], dst, draw);
      ghost var o := src[j].outgoing;
      LinkedStep(src, dst, outs, ins, o);
      outs', ins' := outs + [o], AppendEach(ins, o);
      assert outs'[..j] == outs;
    }

    /** Connects `source` to every neuron of `targets`, in order, continuing the synapse numbering. */
    method ConnectNeuron(source: Neuron, targets: seq<Neuron>, draw: int -> real)
      requires DistinctSeq(targets)
      requires source.outgoing == []
      requires synapseId == |synapses| && Enumerated(synapses, draw)
      modifies this`synapseId, this`synapses, source`outgoing, Members(targets)`incoming
      ensures |source.outgoing| == |targets|
      ensures synapses == old(synapses) + source.outgoing
      ensures synapseId == |synapses| && Enumerated(synapses, draw)
      ensures forall k :: 0 <= k < |source.outgoing| ==> fresh(source.outgoing[k])
      ensures forall k :: 0 <= k < |targets| ==> targets[k].incoming == old(targets[k].incoming) + [source.outgoing[k]]
      ensures forall k :: 0 <= k < |targets| ==>
        source.outgoing[k].inputNeuron == source && source.outgoing[k].outputNeuron == targets[k]
    {
      var k := 0;
      while k < |targets|
        invariant 0 <= k <= |targets|
        invariant |source.outgoing| == k
        invariant synapses == old(synapses) + source.outgoing
        invariant synapseId == |synapses| && Enumerated(synapses, draw)
        invariant forall k' :: 0 <= k' < k ==> fresh(source.outgoing[k'])
        invariant forall k' :: 0 <= k' < k ==> targets[k'].incoming == old(targets[k'].incoming) + [source.outgoing[k']]
        invariant forall k' :: k <= k' < |targets| ==> targets[k'].incoming == old(targets[k'].incoming)
        invariant forall k' :: 0 <= k' < k ==>
          source.outgoing[k'].inputNeuron == source && source.outgoing[k'].outputNeuron == targets[k']
      {
        AddSynapse(source, targets[k], draw);
        k := k + 1;
      }
    }

    /**
     * One step of the wiring: a new synapse numbered `synapseId`, with the
     * drawn weight, appended to the network's list, to the source's outgoing
     * list and to the target's incoming list.
     */
    method AddSynapse(source: Neuron, target: Neuron, draw: int -> real)
      requires synapseId == |synapses| && Enumerated(synapses, draw)
      modifies this`synapseId, this`synapses, source`outgoing, target`incoming
      ensures synapseId == |synapses| && Enumerated(synapses, draw)
      ensures |synapses| > 0
      ensures var s := synapses[|synapses| - 1];
        && fresh(s) && s.inputNeuron == source && s.outputNeuron == target
        && synapses == old(synapses) + [s]
        && source.outgoing == old(source.outgoing) + [s]
        && target.incoming == old(target.incoming) + [s]
    {
      var synapse := new Synapse(synapseId, source, target, draw(synapseId));
      synapseId := synapseId + 1;
      synapses := synapses + [synapse];
      source.outgoing := source.outgoing + [synapse];
      target.incoming := target.incoming + [synapse];
    }

    /**
     * A new network can run the forward pass on any input no longer than
     * its first layer.
     */
    lemma ConstructedFeedsForward(draws: InitDraws, n: nat)
      requires AsConstructed(draws)
      requires |layers| > 0 ==> n <= layers[0].neuronCount
      ensures FeedsForward(View(NeuronLists()), Counts(layers), biases, 0, n)
    {
      FullFeedsForward(NeuronLists(), weights, biases, Counts(layers), 0, n);
    }

    /**
     * The forward pass, layer by layer: output k of a step is the network's
     * activation of bias k plus the weighted sum of the current values.
     * Nothing changes.
     */
    method FeedForward(input: seq<real>, act: Activation) returns (output: seq<real>)
      requires FeedsForward(View(NeuronLists()), Counts(layers), biases, 0, |input|)
      ensures FeedsForward(View(NeuronLists()), Counts(layers), biases, 0, |input|)
      ensures output == Forward(View(NeuronLists()), Counts(layers), biases, activation, 0, input, act)
      ensures unchanged(LayerSet(), NeuronSet())
      ensures View(NeuronLists()) == old(View(NeuronLists()))
    {
      var lists := NeuronLists();
      assert forall l | l in layers :: allocated(l);
      assert forall n | n in NeuronsIn(lists) :: allocated(n);
      assert forall s | s in SynapsesIn(lists) :: allocated(s);
      output := ForwardValues(lists, Counts(layers), biases, activation, input, act);
      assert NeuronLists() == lists;
    }

    /**
     * Trains for `epochs` rounds of a forward pass and a training step, then
     * returns a last forward pass. A training step changing nothing, the
     * biases and weights end as they were and the result is the forward
     * pass of the network as it was.
     */
    method Train(input: seq<real>, act: Activation) returns (output: seq<real>)
      requires FeedsForward(View(NeuronLists()), Counts(layers), biases, 0, |input|)
      requires epochs > 0 ==> BackpropDefined(NeuronLists(), Counts(layers), biases)
      modifies SynapseSet()`weight, this`biases
      ensures biases == old(biases)
      ensures NeuronLists() == old(NeuronLists())
      ensures forall s | s in old(SynapseSet()) :: s.weight == old(s.weight)
      ensures output == old(Forward(View(NeuronLists()), Counts(layers), biases, activation, 0, input, act))
    {
      var lists := NeuronLists();
      var updated;
      output, updated := TrainEpochs(lists, Counts(layers), biases, activation, learningRate, epochs, input, act);
      biases := updated;
    }

    /**
     * The training step: computes the deltas, then adds -learningRate times
     * delta times the source neuron's activation of 0 to every weight it
     * reads, and -learningRate times delta to every bias. Every delta being
     * 0, no weight and no bias changes.
     */
    method Backpropagate(act: Activation)
      requires BackpropDefined(NeuronLists(), Counts(layers), biases)
      modifies SynapseSet()`weight, this`biases
      ensures biases == old(biases)
      ensures NeuronLists() == old(NeuronLists())
      ensures forall s | s in old(SynapseSet()) :: s.weight == old(s.weight)
    {
      var lists := NeuronLists();
      var updated := TrainingStep(lists, Counts(layers), biases, activation, learningRate, act);
      biases := updated;
    }

    /**
     * What AddConnection reads: a layer index below the last layer, a neuron
     * of that layer and a target neuron of the next. With fewer than two
     * layers, or an empty layer, the source indexes out of range.
     */
    ghost predicate AddConnectionDefined(li: int, ni: int, ti: int, weight: real)
      reads this`layers, LayerSet()
    {
      && |layers| >= 2 && IntDraw(li, 0, |layers| - 1)
      && 0 <= ni < |layers[li].neurons| && 0 <= ti < |layers[li + 1].neurons|
      && FloatDraw(weight, -1.0, 1.0)
    }

    /**
     * Appends to neuron ni of layer li a new outgoing synapse, with id 0, to
     * neuron ti of layer li + 1. The target's incoming list is not touched.
     */
    method AddConnection(li: int, ni: int, ti: int, weight: real)
      requires AddConnectionDefined(li, ni, ti, weight)
      modifies {layers[li].neurons[ni]}`outgoing
      ensures var source := layers[li].neurons[ni];
        && |source.outgoing| == |old(source.outgoing)| + 1
        && source.outgoing[..|old(source.outgoing)|] == old(source.outgoing)
        && var s := source.outgoing[|source.outgoing| - 1];
           fresh(s) && s.id == 0 && s.inputNeuron == source
           && s.outputNeuron == layers[li + 1].neurons[ti] && s.weight == weight
      ensures layers == old(layers) && NeuronLists() == old(NeuronLists())
    {
      var layerIndex, neuronIndex, targetNeuronIndex := li, ni, ti;
      layers[layerIndex].neurons[neuronIndex].AddOutgoingSynapse(layers[layerIndex + 1].neurons[targetNeuronIndex], weight);
    }

    /**
     * What ChangeConnectionWeight and DisableConnection read: a layer index
     * below the last layer (layer 0 when there is one layer), a neuron of it
     * and one of its outgoing synapses.
     */
    ghost predicate SynapseDrawn(li: int, ni: int, si: int)
      reads this`layers, LayerSet(), NeuronSet()`outgoing
    {
      && |layers| >= 1 && IntDraw(li, 0, |layers| - 1)
      && 0 <= ni < |layers[li].neurons|
      && (assert layers[li].neurons[ni] == NeuronLists()[li][ni];
          0 <= si < |layers[li].neurons[ni].outgoing|)
    }

    /** Adds `change` to the weight of outgoing synapse si of neuron ni of layer li. */
    method ChangeConnectionWeight(li: int, ni: int, si: int, change: real)
      requires SynapseDrawn(li, ni, si) && FloatDraw(change, -0.5, 0.5)
      modifies {layers[li].neurons[ni].outgoing[si]}`weight
      ensures var s := layers[li].neurons[ni].outgoing[si]; s.weight == old(s.weight) + change
      ensures layers == old(layers) && NeuronLists() == old(NeuronLists())
      ensures layers[li].neurons[ni].outgoing == old(layers[li].neurons[ni].outgoing)
    {
      var layerIndex, neuronIndex, synapseIndex := li, ni, si;
      var synapse := layers[layerIndex].neurons[neuronIndex].outgoing[synapseIndex];
      synapse.weight := synapse.weight + change;
    }

    /** Sets the weight of outgoing synapse si of neuron ni of layer li to 0. */
    method DisableConnection(li: int, ni: int, si: int)
      requires SynapseDrawn(li, ni, si)
      modifies {layers[li].neurons[ni].outgoing[si]}`weight
      ensures layers[li].neurons[ni].outgoing[si].weight == 0.0
      ensures layers == old(layers) && NeuronLists() == old(NeuronLists())
      ensures layers[li].neurons[ni].outgoing == old(layers[li].neurons[ni].outgoing)
    {
      var layerIndex, neuronIndex, synapseIndex := li, ni, si;
      layers[layerIndex].neurons[neuronIndex].outgoing[synapseIndex].weight := 0.0;
    }

    /**
     * What EvolveToAddNeuron reads: a layer index from 1 below the last
     * layer (layer 1 when there are two layers), a neuron index that is only
     * stored, and one weight per neuron of the layer before. With fewer than
     * two layers the source indexes out of range.
     */
    ghost predicate AddNeuronDefined(li: int, ni: int, weights: seq<real>)
      reads this`layers, LayerSet()
    {
      && |layers| >= 2 && IntDraw(li, 1, |layers| - 1)
      && IntDraw(ni, 0, |layers[li].neurons|)
      && |weights| == |layers[li - 1].neurons|
      && forall k :: 0 <= k < |weights| ==> FloatDraw(weights[k], -1.0, 1.0)
    }

    /**
     * Builds a new neuron with index ni and the network's activation kind,
     * gives it one incoming synapse from each neuron of layer li - 1, and
     * appends it to layer li. No neuron of layer li - 1 learns of the new
     * synapses, and the layer's configured count stays as it was.
     */
    method EvolveToAddNeuron(li: int, ni: int, weights: seq<real>)
      requires AddNeuronDefined(li, ni, weights)
      modifies {layers[li]}`neurons
      ensures |layers[li].neurons| == |old(layers[li].neurons)| + 1
      ensures layers[li].neurons[..|old(layers[li].neurons)|] == old(layers[li].neurons)
      ensures var added := layers[li].neurons[|layers[li].neurons| - 1];
        && fresh(added) && (forall k :: 0 <= k < |added.incoming| ==> fresh(added.incoming[k]))
        && BuiltFrom(added, ni, activation, old(layers[li - 1].neurons), weights)
      ensures layers == old(layers)
      ensures forall i :: 0 <= i < |layers| && layers[i] != layers[li] ==> layers[i].neurons == old(layers[i].neurons)
    {
      var layerIndex, neuronIndex := li, ni;
      var newNeuron := new Neuron(neuronIndex, activation);
      var previousNeurons := layers[layerIndex - 1].neurons;
      var k := 0;
      while k < |previousNeurons|
        modifies {newNeuron}`incoming
        invariant 0 <= k <= |previousNeurons|
        invariant |newNeuron.incoming| == k
        invariant forall m :: 0 <= m < k ==> fresh(newNeuron.incoming[m])
        invariant BuiltFrom(newNeuron, ni, activation, previousNeurons[..k], weights[..k])
      {
        var weight := weights[k];
        newNeuron.AddIncomingSynapse(previousNeurons[k], weight);
        k := k + 1;
      }
      assert previousNeurons[..k] == previousNeurons && weights[..k] == weights;
      layers[layerIndex].AddNeuron(newNeuron);
    }

    /**
     * What ChangeActivationFunction reads: a layer index drawn as for
     * EvolveToAddNeuron, a neuron of that layer and a kind's ordinal.
     */
    ghost predicate ActivationChangeDefined(li: int, ni: int, kind: int)
      reads this`layers, LayerSet()
    {
      && |layers| >= 2 && IntDraw(li, 1, |layers| - 1)
      && 0 <= ni < |layers[li].neurons|
      && IntDraw(kind, 0, ACTIVATION_KIND_COUNT)
    }

    /** Gives neuron ni of layer li the activation kind with ordinal `kind`. */
    method ChangeActivationFunction(li: int, ni: int, kind: int)
      requires ActivationChangeDefined(li, ni, kind)
      modifies {layers[li].neurons[ni]}`activation
      ensures Ordinal(layers[li].neurons[ni].activation) == kind
      ensures layers == old(layers) && NeuronLists() == old(NeuronLists())
    {
      var layerIndex, neuronIndex := li, ni;
      var newActivationFunction := FromOrdinal(kind);
      layers[layerIndex].neurons[neuronIndex].activation := newActivationFunction;
    }

    /**
     * On a new network whose layers, but possibly the last, are configured
     * with at least one neuron, RemoveDisconnectedElements removes nothing.
     */
    lemma ConstructedIsPruned(draws: InitDraws)
      requires AsConstructed(draws)
      requires forall i :: 0 <= i < |layers| - 1 ==> layers[i].neuronCount > 0
      ensures Prune(NeuronLists()) == NeuronLists()
    {
      var lists := NeuronLists();
      assert FullyConnected(lists) && NeuronsAsConfigured(lists, Counts(layers));
      PruneConnected(lists);
    }

    /**
     * The last mutation operator: from layer 1 on, in order, each layer keeps
     * only its neurons with an incoming synapse from a neuron of the layer
     * before it, as that layer stands after its own filtering.
     */
    method RemoveDisconnectedElements()
      requires DistinctLayers()
      modifies LayerSet()`neurons
      ensures NeuronLists() == old(Prune(NeuronLists()))
    {
      ghost var lists := NeuronLists();
      assert forall n | n in NeuronsIn(lists) :: allocated(n);
      PruneLayers(layers, lists);
    }

    /**
     * What the mutation numbered `choice` reads of the network and of its
     * draws `d`: the requirement of the operator the number selects. The
     * numbers run 0 to 5; any other number selects nothing.
     */
    ghost predicate MutationDefined(choice: int, d: MutationDraws)
      reads this`layers, LayerSet(), NeuronSet()`outgoing
    {
      match choice
      case 0 => AddConnectionDefined(d.layer, d.neuron, d.target, d.weight)
      case 1 => SynapseDrawn(d.layer, d.neuron, d.synapse) && FloatDraw(d.change, -0.5, 0.5)
      case 2 => SynapseDrawn(d.layer, d.neuron, d.synapse)
      case 3 => AddNeuronDefined(d.layer, d.neuron, d.weights)
      case 4 => ActivationChangeDefined(d.layer, d.neuron, d.kind)
      case 5 => DistinctLayers()
      case _ => true
    }

    /** On a new network, draws in range for its configured layer sizes are draws the mutation can use. */
    lemma MutationDefinedOnNew(draws: InitDraws, choice: int, d: MutationDraws)
      requires AsConstructed(draws) && DistinctLayers()
      requires MutationDrawnFor(Counts(layers), choice, d)
      ensures MutationDefined(choice, d)
    {
      var lists := NeuronLists();
      if choice == 1 || choice == 2 {
        var li := d.layer;
        assert Connects(lists[li], lists[li + 1]);
        assert |lists[li][d.neuron].outgoing| == |lists[li + 1]|;
      }
    }

    /**
     * The effect of the mutation numbered `choice` with draws `d`, between
     * the state before it and the current one: 0 appends a new outgoing
     * synapse, 1 shifts a weight, 2 zeroes a weight, 3 appends a new neuron,
     * 4 changes an activation kind, 5 filters the layers; any other number
     * leaves the neuron lists as they were.
     */
    twostate predicate Mutated(choice: int, d: MutationDraws)
      reads this`layers, LayerSet(), NeuronSet()`outgoing, NeuronSet()`activation, NeuronSet()`incoming
      reads SynapseSet()`weight, IncomingSet()`weight
    {
      var li, ni := d.layer, d.neuron;
      old(MutationDefined(choice, d)) && layers == old(layers) &&
      match choice
      case 0 =>
        && NeuronLists() == old(NeuronLists())
        && var source := layers[li].neurons[ni];
           && |source.outgoing| == |old(source.outgoing)| + 1
           && source.outgoing[..|old(source.outgoing)|] == old(source.outgoing)
           && var s := source.outgoing[|source.outgoing| - 1];
              fresh(s) && s.id == 0 && s.inputNeuron == source
              && s.outputNeuron == layers[li + 1].neurons[d.target] && s.weight == d.weight
      case 1 =>
        && NeuronLists() == old(NeuronLists())
        && layers[li].neurons[ni].outgoing == old(layers[li].neurons[ni].outgoing)
        && var s := layers[li].neurons[ni].outgoing[d.synapse]; s.weight == old(s.weight) + d.change
      case 2 =>
        && NeuronLists() == old(NeuronLists())
        && layers[li].neurons[ni].outgoing == old(layers[li].neurons[ni].outgoing)
        && layers[li].neurons[ni].outgoing[d.synapse].weight == 0.0
      case 3 =>
        && (forall i :: 0 <= i < |layers| && layers[i] != layers[li] ==> layers[i].neurons == old(layers[i].neurons))
        && |layers[li].neurons| == |old(layers[li].neurons)| + 1
        && layers[li].neurons[..|old(layers[li].neurons)|] == old(layers[li].neurons)
        && var added := layers[li].neurons[|layers[li].neurons| - 1];
           fresh(added) && BuiltFrom(added, ni, activation, old(layers[li - 1].neurons), d.weights)
      case 4 =>
        && NeuronLists() == old(NeuronLists())
        && Ordinal(layers[li].neurons[ni].activation) == d.kind
      case 5 => NeuronLists() == old(Prune(NeuronLists()))
      case _ => NeuronLists() == old(NeuronLists())
    }

    /** Applies the mutation numbered `choice`, with draws `d`. */
    method ApplyMutation(choice: int, d: MutationDraws)
      requires MutationDefined(choice, d)
      modifies LayerSet()`neurons, NeuronSet()`outgoing, NeuronSet()`activation, SynapseSet()`weight
      ensures Mutated(choice, d)
    {
      var mutationType := choice;
      match mutationType
      case 0 => AddConnection(d.layer, d.neuron, d.target, d.weight);
      case 1 => ChangeConnectionWeight(d.layer, d.neuron, d.synapse, d.change);
      case 2 => DisableConnection(d.layer, d.neuron, d.synapse);
      case 3 => EvolveToAddNeuron(d.layer, d.neuron, d.weights);
      case 4 => ChangeActivationFunction(d.layer, d.neuron, d.kind);
      case 5 => RemoveDisconnectedElements();
      case _ =>
    }

    /**
     * With probability mutationRate, a mutation: when the draw r from [0, 1]
     * is below the rate, the mutation numbered by the draw `choice` from
     * 0 to 5 is applied; otherwise nothing changes.
     */
    method Mutate(mutationRate: real, r: real, choice: int, d: MutationDraws)
      requires FloatDraw(r, 0.0, 1.0)
      requires r < mutationRate ==> IntDraw(choice, 0, 6) && MutationDefined(choice, d)
      modifies LayerSet()`neurons, NeuronSet()`outgoing, NeuronSet()`activation, SynapseSet()`weight
      ensures r < mutationRate ==> Mutated(choice, d)
      ensures !(r < mutationRate) ==> unchanged(old(LayerSet()), old(NeuronSet()), old(SynapseSet()))
    {
      if r < mutationRate {
        ApplyMutation(choice, d);
      }
    }

    /**
     * The mark the mutation numbered `choice`, with draws `d`, leaves on a
     * network built with the draws `draws`, stated on the current state
     * alone: 0 leaves one extra outgoing synapse, id 0 and weight d.weight,
     * after the constructed ones of the source; 1 the chosen constructed
     * synapse with its drawn weight plus d.change; 2 that synapse with
     * weight 0; 3 one extra neuron at the end of the chosen layer, wired from
     * the layer before; 4 the chosen neuron with the drawn kind; 5 neuron
     * lists that the filter leaves as they are. No other number names an
     * operator.
     */
    ghost predicate BearsMutation(choice: int, d: MutationDraws, draws: InitDraws)
      reads this`layers, LayerSet(), NeuronSet(), SynapseSet()`weight, IncomingSet()`weight
    {
      var lists, counts, li, ni := NeuronLists(), Counts(layers), d.layer, d.neuron;
      match choice
      case 0 =>
        && NeuronsAsConfigured(lists, counts) && 0 <= li < |lists| - 1
        && 0 <= ni < |lists[li]| && 0 <= d.target < |lists[li + 1]|
        && var source := lists[li][ni];
           && |source.outgoing| == counts[li + 1] + 1
           && var s := source.outgoing[counts[li + 1]];
              s.id == 0 && s.inputNeuron == source && s.outputNeuron == lists[li + 1][d.target]
              && s.weight == d.weight
      case 1 =>
        && SynapseAt(li, ni, d.synapse)
        && var s := lists[li][ni].outgoing[d.synapse];
           s.weight == draws.synapseWeight(SynapsePosition(counts, li, ni, d.synapse)) + d.change
      case 2 =>
        && SynapseAt(li, ni, d.synapse)
        && lists[li][ni].outgoing[d.synapse].weight == 0.0
      case 3 =>
        && |lists| == |counts| && 1 <= li < |lists|
        && |lists[li - 1]| == counts[li - 1] && |lists[li]| == counts[li] + 1
        && BuiltFrom(lists[li][counts[li]], ni, activation, lists[li - 1], d.weights)
      case 4 =>
        && NeuronsAsConfigured(lists, counts) && 1 <= li < |lists| && 0 <= ni < |lists[li]|
        && Ordinal(lists[li][ni].activation) == d.kind
      case 5 => Prune(lists) == lists
      case _ => false
    }

    /**
     * A network built with `draws` after Mutate with the rate draw `r`:
     * bearing the mark of the drawn operator when r is below the rate,
     * otherwise still exactly as its constructor left it.
     */
    ghost predicate MutatedFromNew(mutationRate: real, r: real, choice: int, d: MutationDraws, draws: InitDraws)
      reads this, LayerSet(), NeuronSet(), SynapseSet(), IncomingSet(), set s | s in synapses
    {
      if r < mutationRate then BearsMutation(choice, d, draws) else AsConstructed(draws)
    }

    /**
     * The neuron lists are as configured and outgoing synapse k of neuron j
     * of layer a is the constructed one: to neuron k of layer a + 1, with the
     * id of its (layer, source, target) position.
     */
    ghost predicate SynapseAt(a: int, j: int, k: int)
      reads this`layers, LayerSet(), NeuronSet()`outgoing
    {
      var lists, counts := NeuronLists(), Counts(layers);
      && NeuronsAsConfigured(lists, counts) && 0 <= a < |lists| - 1
      && 0 <= j < |lists[a]| && 0 <= k < |lists[a + 1]|
      && |lists[a][j].outgoing| == counts[a + 1]
      && var s := lists[a][j].outgoing[k];
         s.inputNeuron == lists[a][j] && s.outputNeuron == lists[a + 1][k]
         && s.id == SynapsePosition(counts, a, j, k)
    }

    /**
     * Mutate on a new network, which changed no incoming list: when the
     * rate draw r is below the rate, the mutation numbered 0 to 5 leaves the
     * mark BearsMutation describes; otherwise the network is as its
     * constructor left it.
     */
    twostate lemma MutationMark(new draws: InitDraws, new mutationRate: real, new r: real, new choice: int, new d: MutationDraws)
      requires old(AsConstructed(draws) && DistinctLayers())
      requires old(NumberedInOrder(NeuronLists(), Counts(layers), synapses, draws.synapseWeight))
      requires r < mutationRate ==> IntDraw(choice, 0, 6) && Mutated(choice, d)
      requires !(r < mutationRate) ==>
        && unchanged(this) && unchanged(old(LayerSet())) && unchanged(old(NeuronSet()))
        && unchanged(old(SynapseSet())) && unchanged(old(set s | s in synapses))
      requires forall n | n in old(NeuronSet()) :: n.incoming == old(n.incoming)
      ensures MutatedFromNew(mutationRate, r, choice, d, draws)
    {
      if r < mutationRate {
        match choice
        case 0 => SynapseAddedMark(draws, d);
        case 1 => WeightMark(draws, choice, d);
        case 2 => WeightMark(draws, choice, d);
        case 3 => NeuronAddedMark(draws, d);
        case 4 => ActivationMark(draws, d);
        case 5 => PrunedMark(draws, d);
      }
    }

    /** MutationMark for the mutation 0, which adds a synapse. */
    twostate lemma SynapseAddedMark(new draws: InitDraws, new d: MutationDraws)
      requires old(AsConstructed(draws) && DistinctLayers())
      requires Mutated(0, d)
      ensures BearsMutation(0, d, draws)
    {
      var lists, li := old(NeuronLists()), d.layer;
      assert old(Connects(lists[li], lists[li + 1]));
    }

    /** MutationMark for the mutations 1 and 2, which change a weight. */
    twostate lemma WeightMark(new draws: InitDraws, new choice: int, new d: MutationDraws)
      requires old(AsConstructed(draws) && DistinctLayers())
      requires old(NumberedInOrder(NeuronLists(), Counts(layers), synapses, draws.synapseWeight))
      requires (choice == 1 || choice == 2) && Mutated(choice, d)
      ensures BearsMutation(choice, d, draws)
    {
      var lists, li := old(NeuronLists()), d.layer;
      var src: Neuron, k := lists[li][d.neuron], d.synapse;
      assert old(NoOutgoing(lists[|lists| - 1]));
      assert li + 1 < |lists|;
      assert old(Connects(lists[li], lists[li + 1]));
      assert old(|src.outgoing|) == |lists[li + 1]|;
      assert 0 <= k < |lists[li + 1]|;
      assert old(src.outgoing[k] == lists[li + 1][k].incoming[d.neuron]);
      assert old(src.outgoing[k].inputNeuron == src);
      assert old(src.outgoing[k].outputNeuron == lists[li + 1][k]);
    }

    /** MutationMark for the mutation 3, which adds a neuron. */
    twostate lemma NeuronAddedMark(new draws: InitDraws, new d: MutationDraws)
      requires old(AsConstructed(draws) && DistinctLayers())
      requires Mutated(3, d)
      ensures BearsMutation(3, d, draws)
    {
      var lists, li := old(NeuronLists()), d.layer;
      assert old(layers[li - 1] != layers[li]);
      assert NeuronLists()[li - 1] == lists[li - 1];
    }

    /** MutationMark for the mutation 4, which changes an activation kind. */
    twostate lemma ActivationMark(new draws: InitDraws, new d: MutationDraws)
      requires old(AsConstructed(draws) && DistinctLayers())
      requires Mutated(4, d)
      ensures BearsMutation(4, d, draws)
    {
    }

    /** MutationMark for the mutation 5, which filters the layers. */
    twostate lemma PrunedMark(new draws: InitDraws, new d: MutationDraws)
      requires old(AsConstructed(draws) && DistinctLayers())
      requires Mutated(5, d)
      requires forall n | n in old(NeuronSet()) :: n.incoming == old(n.incoming)
      ensures BearsMutation(5, d, draws)
    {
      var lists := old(NeuronLists());
      PruneKept(lists);
      PruneIdempotent(lists);
    }

    /**
     * What the constructor establishes survives a step that leaves this
     * network, its layers, neurons and synapses as they were.
     */
    twostate lemma ConstructedKept(draws: InitDraws)
      requires old(AsConstructed(draws) && DistinctLayers())
      requires unchanged(this) && unchanged(old(LayerSet())) && unchanged(old(NeuronSet()))
      requires unchanged(old(SynapseSet())) && unchanged(old(set s | s in synapses))
      ensures AsConstructed(draws) && DistinctLayers()
      ensures LayerSet() == old(LayerSet()) && NeuronSet() == old(NeuronSet()) && SynapseSet() == old(SynapseSet())
    {
    }

    /**
     * A new network over the child layers of this network's layers and
     * `other`'s, built by the constructor with this network's settings and
     * the draws `draws`. The constructor gives the child layers fresh neurons,
     * so of the crossed layers only the counts and settings remain.
     */
    method Crossover(other: NeuralNetwork, draws: InitDraws) returns (child: NeuralNetwork)
      requires LayersCrossable(layers, other.layers)
      ensures fresh(child) && fresh(child.LayerSet()) && fresh(child.NeuronSet()) && fresh(child.SynapseSet())
      ensures Inherits(child.layers, layers, other.layers) && SameHyperparameters(child, this)
      ensures Counts(child.layers) == ChildCounts(layers, other.layers)
      ensures child.AsConstructed(draws) && child.DistinctLayers()
    {
      var childLayers := ChildLayers(layers, other.layers);
      child := new NeuralNetwork(childLayers, activation, regularization, regularizationRate,
                                 optimization, learningRate, epochs, dropoutRate, draws);
    }

    /** Appends `layer` to the layers. Nothing else changes: no matrix, neuron or synapse is built for it. */
    method AddLayer(layer: NeuralLayer)
      modifies this`layers
      ensures layers == old(layers) + [layer]
      ensures NeuronLists() == old(NeuronLists()) + [layer.neurons]
    {
      layers := layers + [layer];
    }
  }

  /**
   * `child` are the layers of a crossover child of networks with layers
   * `first` and `second`: as many as first's, each with the count and
   * settings of first's layer at even positions and of second's at odd ones.
   */
  predicate Inherits(child: seq<NeuralLayer>, first: seq<NeuralLayer>, second: seq<NeuralLayer>) {
    && |first| <= |second|
    && |child| == |first|
    && forall i :: 0 <= i < |first| ==> SameSettings(child[i], if i % 2 == 0 then first[i] else second[i])
  }

  /** `child` has `parent`'s activation kind, regularization, optimizer and rates. */
  predicate SameHyperparameters(child: NeuralNetwork, parent: NeuralNetwork) {
    && child.activation == parent.activation && child.regularization == parent.regularization
    && child.regularizationRate == parent.regularizationRate && child.optimization == parent.optimization
    && child.learningRate == parent.learningRate && child.epochs == parent.epochs
    && child.dropoutRate == parent.dropoutRate
  }
}
