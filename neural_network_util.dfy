/**
 * The building blocks of a network: the three setting enumerations, the
 * synapse (a weighted edge between two neurons), the neuron with its lists of
 * incoming and outgoing synapses, and the layer that holds an ordered list of
 * neurons.
 *
 * Synapses, neurons and layers are objects: a synapse is listed by identity
 * in both of its endpoints, and the genetic operators change neurons and
 * layers in place.
 */
module NetworkUtil {

  datatype ActivationKind = Sigmoid | ReLU | Tanh

  /** `None` of the source is `NoRegularization` here, to keep it apart from an Option's None. */
  datatype RegularizationKind = NoRegularization | L1 | L2

  datatype OptimizationKind = SGD | Adam | RMSprop

  /** The number of values of ActivationKind (what Enum.GetValues reports). */
  const ACTIVATION_KIND_COUNT: nat := 3

  /** The enum's underlying value: Sigmoid = 0, ReLU = 1, Tanh = 2. */
  function Ordinal(kind: ActivationKind): (n: nat)
    ensures n < ACTIVATION_KIND_COUNT
  {
    match kind
    case Sigmoid => 0
    case ReLU => 1
    case Tanh => 2
  }

  /** The cast from an integer to ActivationKind, for the values the enum defines. */
  function FromOrdinal(n: int): (kind: ActivationKind)
    requires 0 <= n < ACTIVATION_KIND_COUNT
    ensures Ordinal(kind) == n
  {
    if n == 0 then Sigmoid else if n == 1 then ReLU else Tanh
  }

  /** Casting back an enum's underlying value gives the same kind. */
  lemma FromOrdinalOfOrdinal(kind: ActivationKind)
    ensures FromOrdinal(Ordinal(kind)) == kind
  {
  }

  /**
   * A weighted connection. The source declares all four members with setters,
   * but only the weight is ever assigned after construction.
   */
  class Synapse {
    const id: int
    const inputNeuron: Neuron
    const outputNeuron: Neuron
    var weight: real

    constructor (id: int, inputNeuron: Neuron, outputNeuron: Neuron, weight: real)
      ensures this.id == id && this.inputNeuron == inputNeuron
      ensures this.outputNeuron == outputNeuron && this.weight == weight
    {
      this.id := id;
      this.inputNeuron := inputNeuron;
      this.outputNeuron := outputNeuron;
      this.weight := weight;
    }
  }

  /**
   * A neuron. Its index is fixed at construction; its activation kind and its
   * two synapse lists change in place.
   */
  class Neuron {
    const index: int
    var activation: ActivationKind
    var incoming: seq<Synapse>
    var outgoing: seq<Synapse>

    constructor (index: int, activation: ActivationKind)
      ensures this.index == index && this.activation == activation
      ensures incoming == [] && outgoing == []
    {
      this.index := index;
      this.activation := activation;
      incoming := [];
      outgoing := [];
    }

    /**
     * Appends one new synapse, with id 0, from this neuron to `target`. Only
     * this neuron's outgoing list changes; the target does not learn of it.
     */
    method AddOutgoingSynapse(target: Neuron, weight: real)
      modifies this`outgoing
      ensures |outgoing| == |old(outgoing)| + 1
      ensures outgoing[..|old(outgoing)|] == old(outgoing)
      ensures var s := outgoing[|outgoing| - 1];
        fresh(s) && s.id == 0 && s.inputNeuron == this && s.outputNeuron == target && s.weight == weight
    {
      var synapse := new Synapse(0, this, target, weight);
      outgoing := outgoing + [synapse];
    }

    /**
     * Appends one new synapse, with id 0, from `source` to this neuron. Only
     * this neuron's incoming list changes; the source does not learn of it.
     */
    method AddIncomingSynapse(source: Neuron, weight: real)
      modifies this`incoming
      ensures |incoming| == |old(incoming)| + 1
      ensures incoming[..|old(incoming)|] == old(incoming)
      ensures var s := incoming[|incoming| - 1];
        fresh(s) && s.id == 0 && s.inputNeuron == source && s.outputNeuron == this && s.weight == weight
    {
      var synapse := new Synapse(0, source, this, weight);
      incoming := incoming + [synapse];
    }
  }

  /**
   * A layer: its configured neuron count and settings never change; its list
   * of neurons is replaced or extended in place, so its length can drift away
   * from `neuronCount`.
   */
  class NeuralLayer {
    const neuronCount: nat
    const activation: ActivationKind
    const regularization: RegularizationKind
    const optimization: OptimizationKind
    var neurons: seq<Neuron>

    constructor (neuronCount: nat, activation: ActivationKind,
                 regularization: RegularizationKind, optimization: OptimizationKind)
      ensures this.neuronCount == neuronCount && this.activation == activation
      ensures this.regularization == regularization && this.optimization == optimization
      ensures neurons == []
    {
      this.neuronCount := neuronCount;
      this.activation := activation;
      this.regularization := regularization;
      this.optimization := optimization;
      neurons := [];
    }

    /** Crossover with `other` reads other's neuron at every odd position below this layer's length. */
    predicate CrossoverDefined(other: NeuralLayer)
      reads this`neurons, other`neurons
    {
      forall i :: 0 <= i < |neurons| && i % 2 == 1 ==> i < |other.neurons|
    }

    /**
     * A new layer with this layer's count and settings whose neuron list takes
     * this layer's neuron at even positions and other's at odd positions: the
     * same objects, not copies. Neither parent changes.
     */
    method Crossover(other: NeuralLayer) returns (child: NeuralLayer)
      requires CrossoverDefined(other)
      ensures fresh(child)
      ensures child.neuronCount == neuronCount && child.activation == activation
      ensures child.regularization == regularization && child.optimization == optimization
      ensures |child.neurons| == |neurons|
      ensures forall i :: 0 <= i < |neurons| ==>
        child.neurons[i] == (if i % 2 == 0 then neurons[i] else other.neurons[i])
    {
      child := new NeuralLayer(neuronCount, activation, regularization, optimization);
      var i := 0;
      while i < |neurons|
        invariant 0 <= i <= |neurons|
        invariant |child.neurons| == i
        invariant forall m :: 0 <= m < i ==>
          child.neurons[m] == (if m % 2 == 0 then neurons[m] else other.neurons[m])
      {
        var childNeuron := if i % 2 == 0 then neurons[i] else other.neurons[i];
        child.AddNeuron(childNeuron);
        i := i + 1;
      }
    }

    /** Appends `neuron` at the end; `neuronCount` stays as it was. */
    method AddNeuron(neuron: Neuron)
      modifies this`neurons
      ensures neurons == old(neurons) + [neuron]
    {
      neurons := neurons + [neuron];
    }
  }
}
