/**
 * The forward pass of a network, as functions of what it reads from the
 * neurons, of its layer sizes and of its bias vectors. Each layer's output k
 * is the network's activation applied to the bias plus the weighted sum, over
 * the current values c, of neuron c's own activation of value c times the
 * weight of its k-th outgoing synapse.
 *
 * The activation functions (sigmoid, ReLU, tanh) are the parameter `act`;
 * arithmetic is exact, where the source computes in single precision.
 */
module ForwardPass {
  import opened NetworkUtil
  import opened NeuronGraph

  /** The value of activation kind `kind` at `x`, abstracted from the exponential-based formulas. */
  type Activation = (ActivationKind, real) -> real

  /** What the forward pass reads of a neuron: its activation kind and the weights of its outgoing synapses, in order. */
  datatype NeuronView = NeuronView(kind: ActivationKind, weights: seq<real>)

  /** The weights of the synapses `out`, in order. */
  ghost function Weights(out: seq<Synapse>): (w: seq<real>)
    reads (set s | s in out)`weight
    ensures |w| == |out|
    ensures forall k :: 0 <= k < |out| ==> w[k] == out[k].weight
  {
    if out == [] then [] else Weights(out[..|out| - 1]) + [out[|out| - 1].weight]
  }

  /** The view of neuron `n` in the current state. */
  ghost function ViewOf(n: Neuron): (view: NeuronView)
    reads {n}`activation, {n}`outgoing, (set s | s in n.outgoing)`weight
  {
    NeuronView(n.activation, Weights(n.outgoing))
  }

  /** The synapses in the outgoing lists of the neurons `ns`. */
  ghost function OutgoingSet(ns: seq<Neuron>): set<Synapse>
    reads Members(ns)`outgoing
  {
    set j, k | 0 <= j < |ns| && 0 <= k < |ns[j].outgoing| :: ns[j].outgoing[k]
  }

  /** The outgoing synapses of a prefix of `ns` and of its last neuron are outgoing synapses of `ns`. */
  lemma OutgoingSetParts(ns: seq<Neuron>)
    requires ns != []
    ensures Members(ns[..|ns| - 1]) <= Members(ns)
    ensures OutgoingSet(ns[..|ns| - 1]) <= OutgoingSet(ns)
    ensures forall s | s in ns[|ns| - 1].outgoing :: s in OutgoingSet(ns)
  {
    var init, n := ns[..|ns| - 1], ns[|ns| - 1];
    forall s | s in n.outgoing ensures s in OutgoingSet(ns) {
      var k :| 0 <= k < |n.outgoing| && n.outgoing[k] == s;
    }
    forall s | s in OutgoingSet(init) ensures s in OutgoingSet(ns) {
      var j, k :| 0 <= j < |init| && 0 <= k < |init[j].outgoing| && init[j].outgoing[k] == s;
      assert ns[j] == init[j];
    }
  }

  /** The views of the neurons `ns`, in order. */
  ghost function ListView(ns: seq<Neuron>): (v: seq<NeuronView>)
    reads Members(ns)`activation, Members(ns)`outgoing, OutgoingSet(ns)`weight
    ensures |v| == |ns|
  {
    if ns == [] then []
    else
      var init, n := ns[..|ns| - 1], ns[|ns| - 1];
      OutgoingSetParts(ns);
      ListView(init) + [ViewOf(n)]
  }

  /** Entry j of the views of `ns` is the view of neuron j. */
  lemma {:induction false} ListViewAt(ns: seq<Neuron>)
    ensures forall j :: 0 <= j < |ns| ==> ListView(ns)[j] == ViewOf(ns[j])
  {
    if ns != [] {
      ListViewAt(ns[..|ns| - 1]);
    }
  }

  /** The synapses of a prefix of `lists` and of its last list are synapses of `lists`. */
  lemma SynapsesInParts(lists: seq<seq<Neuron>>)
    requires lists != []
    ensures SynapsesIn(lists[..|lists| - 1]) <= SynapsesIn(lists)
    ensures OutgoingSet(lists[|lists| - 1]) <= SynapsesIn(lists)
  {
    var init, last := lists[..|lists| - 1], lists[|lists| - 1];
    forall s | s in SynapsesIn(init) ensures s in SynapsesIn(lists) {
      var a, b, k :| 0 <= a < |init| && 0 <= b < |init[a]| && 0 <= k < |init[a][b].outgoing| && init[a][b].outgoing[k] == s;
      assert lists[a][b] == init[a][b];
    }
    forall s | s in OutgoingSet(last) ensures s in SynapsesIn(lists) {
      var j, k :| 0 <= j < |last| && 0 <= k < |last[j].outgoing| && last[j].outgoing[k] == s;
      assert lists[|lists| - 1][j] == last[j];
    }
  }

  /** The views of the neurons of `lists`, list by list. */
  ghost function View(lists: seq<seq<Neuron>>): (v: seq<seq<NeuronView>>)
    reads NeuronsIn(lists)`activation, NeuronsIn(lists)`outgoing, SynapsesIn(lists)`weight
    ensures |v| == |lists|
  {
    if lists == [] then []
    else
      var init, last := lists[..|lists| - 1], lists[|lists| - 1];
      PrefixIn(lists, |lists| - 1);
      MembersIn(lists, |lists| - 1);
      SynapsesInParts(lists);
      View(init) + [ListView(last)]
  }

  /** Entry b of list a of the views is the view of neuron b of list a. */
  lemma {:induction false} ViewAt(lists: seq<seq<Neuron>>)
    ensures forall a :: 0 <= a < |lists| ==> |View(lists)[a]| == |lists[a]|
    ensures forall a, b :: 0 <= a < |lists| && 0 <= b < |lists[a]| ==> View(lists)[a][b] == ViewOf(lists[a][b])
  {
    if lists != [] {
      var init := lists[..|lists| - 1];
      ViewAt(init);
      ListViewAt(lists[|lists| - 1]);
      assert View(lists) == View(init) + [ListView(lists[|lists| - 1])];
    }
  }

  /**
   * The views of `lists` depend only on the neurons of `lists` and the
   * synapses in their outgoing lists: with those unchanged, so are the views.
   */
  twostate lemma ViewFrame(lists: seq<seq<Neuron>>)
    requires unchanged(NeuronsIn(lists)) && unchanged(old(SynapsesIn(lists)))
    ensures View(lists) == old(View(lists))
  {
  }

  /**
   * `net` holds, list by list, the views of the neurons of `lists` in the
   * current state: what View(lists) is, stated entry by entry.
   */
  ghost predicate ViewMatches(net: seq<seq<NeuronView>>, lists: seq<seq<Neuron>>)
    reads NeuronsIn(lists), SynapsesIn(lists)
  {
    && |net| == |lists|
    && (forall a :: 0 <= a < |lists| ==> |net[a]| == |lists[a]|)
    && forall a, b :: 0 <= a < |lists| && 0 <= b < |lists[a]| ==>
         assert lists[a][b] in NeuronsIn(lists);
         net[a][b] == ViewOf(lists[a][b])
  }

  /** The views of `lists` are the only ones that match them. */
  lemma ViewUnique(net: seq<seq<NeuronView>>, lists: seq<seq<Neuron>>)
    requires ViewMatches(net, lists)
    ensures net == View(lists)
  {
    ViewAt(lists);
    var v := View(lists);
    forall a | 0 <= a < |lists|
      ensures net[a] == v[a]
    {
      assert net[a] == v[a];
    }
  }

  /**
   * The sum, for c = 0 .. n - 1 in that order, of act(kind of neuron c of
   * list li, current[c]) times the weight of that neuron's synapse `next`.
   */
  function WeightedSum(net: seq<seq<NeuronView>>, li: int, current: seq<real>, next: int, n: nat, act: Activation): real
    requires 0 <= li < |net| && n <= |current| <= |net[li]| && 0 <= next
    requires HaveSynapse(net, li, |current|, next)
  {
    if n == 0 then 0.0
    else
      var neuron := net[li][n - 1];
      WeightedSum(net, li, current, next, n - 1, act) + act(neuron.kind, current[n - 1]) * neuron.weights[next]
  }

  /** Neurons 0 .. n - 1 of list li each have a synapse at position `next`. */
  predicate HaveSynapse(net: seq<seq<NeuronView>>, li: int, n: nat, next: nat)
    requires 0 <= li < |net| && n <= |net[li]|
  {
    forall c :: 0 <= c < n ==> next < |net[li][c].weights|
  }

  /** What one layer step reads: for a non-empty next layer, the source neurons, their synapses and the biases. */
  predicate StepDefined(net: seq<seq<NeuronView>>, li: int, n: nat, bias: seq<real>, size: nat)
    requires 0 <= li < |net|
  {
    size > 0 ==>
      && n <= |net[li]|
      && (forall c :: 0 <= c < n ==> size <= |net[li][c].weights|)
      && size <= |bias|
  }

  /**
   * The first k outputs of the layer step from list li with values
   * `current` to a layer of `size` neurons: output j is act(kind, bias[j]
   * + the weighted sum for j).
   */
  function LayerOutput(net: seq<seq<NeuronView>>, li: int, current: seq<real>, bias: seq<real>,
                       size: nat, k: nat, kind: ActivationKind, act: Activation): (next: seq<real>)
    requires 0 <= li < |net| && k <= size && StepDefined(net, li, |current|, bias, size)
    ensures |next| == k
  {
    if k == 0 then []
    else
      LayerOutput(net, li, current, bias, size, k - 1, kind, act)
        + [act(kind, WeightedSum(net, li, current, k - 1, |current|, act) + bias[k - 1])]
  }

  /** Bias vector li, or none when there is no such vector (then no layer step reads it). */
  function BiasOf(biases: seq<seq<real>>, li: int): seq<real> {
    if 0 <= li < |biases| then biases[li] else []
  }

  /**
   * The forward pass from list li on, with values `current`: every step
   * from one list to the next reads what it needs, the sizes being
   * `counts`.
   */
  predicate FeedsForward(net: seq<seq<NeuronView>>, counts: seq<nat>, biases: seq<seq<real>>, li: nat, n: nat)
    requires |counts| == |net|
    decreases |net| - li
  {
    li + 1 < |net| ==>
      && StepDefined(net, li, n, BiasOf(biases, li), counts[li + 1])
      && FeedsForward(net, counts, biases, li + 1, counts[li + 1])
  }

  /**
   * The values the forward pass leaves from list li on. The result has the
   * last layer's size whenever at least one step is taken, and is `current`
   * itself otherwise.
   */
  function Forward(net: seq<seq<NeuronView>>, counts: seq<nat>, biases: seq<seq<real>>, kind: ActivationKind,
                   li: nat, current: seq<real>, act: Activation): (output: seq<real>)
    requires |counts| == |net| && FeedsForward(net, counts, biases, li, |current|)
    ensures li + 1 < |net| ==> |output| == counts[|counts| - 1]
    ensures li + 1 >= |net| ==> output == current
    decreases |net| - li
  {
    if li + 1 >= |net| then current
    else
      var size := counts[li + 1];
      var next := LayerOutput(net, li, current, BiasOf(biases, li), size, size, kind, act);
      Forward(net, counts, biases, kind, li + 1, next, act)
  }

  /**
   * The loops of the forward pass over neuron lists `lists` with layer sizes
   * `counts`: for each list after the first, output k is activation kind
   * `kind` of bias k plus the weighted sum, over the current values, read
   * from the synapses of the list before. Nothing changes.
   */
  method ForwardValues(lists: seq<seq<Neuron>>, counts: seq<nat>, biases: seq<seq<real>>, kind: ActivationKind,
                       input: seq<real>, act: Activation) returns (output: seq<real>)
    requires |counts| == |lists| && FeedsForward(View(lists), counts, biases, 0, |input|)
    ensures FeedsForward(View(lists), counts, biases, 0, |input|)
    ensures output == Forward(View(lists), counts, biases, kind, 0, input, act)
  {
    ghost var net := View(lists);
    ViewAt(lists);
    var currentActivation := input;
    var layerIndex := 0;
    while layerIndex < |lists| - 1
      invariant 0 <= layerIndex
      invariant ViewMatches(net, lists)
      invariant FeedsForward(net, counts, biases, layerIndex, |currentActivation|)
      invariant Forward(net, counts, biases, kind, layerIndex, currentActivation, act)
             == Forward(net, counts, biases, kind, 0, input, act)
      decreases |lists| - layerIndex
    {
      var nextActivation := LayerValues(lists, net, layerIndex, currentActivation, BiasOf(biases, layerIndex),
                                        counts[layerIndex + 1], kind, act);
      currentActivation := nextActivation;
      layerIndex := layerIndex + 1;
    }
    output := currentActivation;
    ViewUnique(net, lists);
  }

  /**
   * One step of the forward pass from list li, whose views are net[li]: the
   * `size` outputs for the values `current`, in order. Nothing changes.
   */
  method LayerValues(lists: seq<seq<Neuron>>, ghost net: seq<seq<NeuronView>>, li: int, current: seq<real>,
                     bias: seq<real>, size: nat, kind: ActivationKind, act: Activation) returns (next: seq<real>)
    requires ViewMatches(net, lists) && 0 <= li < |lists| && StepDefined(net, li, |current|, bias, size)
    ensures ViewMatches(net, lists)
    ensures next == LayerOutput(net, li, current, bias, size, size, kind, act)
  {
    next := [];
    var nextNeuronIndex := 0;
    while nextNeuronIndex < size
      invariant 0 <= nextNeuronIndex <= size
      invariant ViewMatches(net, lists)
      invariant next == LayerOutput(net, li, current, bias, size, nextNeuronIndex, kind, act)
    {
      var weightedSum := WeightedInput(lists, net, li, current, nextNeuronIndex, act);
      weightedSum := weightedSum + bias[nextNeuronIndex];
      next := next + [act(kind, weightedSum)];
      nextNeuronIndex := nextNeuronIndex + 1;
    }
  }

  /**
   * The weighted sum into output `next` of the step from list li: over the
   * current values c in order, act(kind of neuron c, value c) times the
   * weight of that neuron's synapse `next`. Nothing changes.
   */
  method WeightedInput(lists: seq<seq<Neuron>>, ghost net: seq<seq<NeuronView>>, li: int, current: seq<real>,
                       next: nat, act: Activation) returns (weightedSum: real)
    requires ViewMatches(net, lists) && 0 <= li < |lists| && |current| <= |lists[li]|
    requires HaveSynapse(net, li, |current|, next)
    ensures ViewMatches(net, lists)
    ensures weightedSum == WeightedSum(net, li, current, next, |current|, act)
  {
    weightedSum := 0.0;
    var currentNeuronIndex := 0;
    while currentNeuronIndex < |current|
      invariant 0 <= currentNeuronIndex <= |current|
      invariant weightedSum == WeightedSum(net, li, current, next, currentNeuronIndex, act)
    {
      var currentNeuron := lists[li][currentNeuronIndex];
      var synapse := currentNeuron.outgoing[next];
      ghost var view := net[li][currentNeuronIndex];
      assert view == ViewOf(currentNeuron);
      assert view.kind == currentNeuron.activation && view.weights[next] == synapse.weight;
      weightedSum := weightedSum + act(currentNeuron.activation, current[currentNeuronIndex]) * synapse.weight;
      currentNeuronIndex := currentNeuronIndex + 1;
    }
  }
}
