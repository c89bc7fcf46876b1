/**
 * The genome of one car: its network, its fitness and the elite flag.
 * Crossover and mutation are the network's, applied to the held network.
 */
module Genome {
  import opened NetworkUtil
  import opened UnityRandom
  import opened NeuralNet

  class DNA {
    const network: NeuralNetwork
    var fitness: real
    var isElite: bool

    /** A genome for `network`, with fitness 0 and not elite. */
    constructor (network: NeuralNetwork)
      ensures this.network == network && fitness == 0.0 && !isElite
    {
      this.network := network;
      fitness := 0.0;
      isElite := false;
    }

    /**
     * A new genome for the crossover of this genome's network with the
     * partner's, this network first. The offspring starts with fitness 0 and
     * is not elite; neither parent changes.
     */
    method Crossover(partner: DNA, draws: InitDraws) returns (offspring: DNA)
      requires LayersCrossable(network.layers, partner.network.layers)
      ensures fresh(offspring) && fresh(offspring.network)
      ensures fresh(offspring.network.LayerSet()) && fresh(offspring.network.NeuronSet())
      ensures fresh(offspring.network.SynapseSet())
      ensures offspring.fitness == 0.0 && !offspring.isElite
      ensures Inherits(offspring.network.layers, network.layers, partner.network.layers)
      ensures SameHyperparameters(offspring.network, network)
      ensures Counts(offspring.network.layers) == ChildCounts(network.layers, partner.network.layers)
      ensures offspring.network.AsConstructed(draws) && offspring.network.DistinctLayers()
    {
      var offspringNetwork := network.Crossover(partner.network, draws);
      label Crossed:
      offspring := new DNA(offspringNetwork);
      offspringNetwork.ConstructedKept@Crossed(draws);
    }

    /**
     * Mutates the held network as NeuralNetwork.Mutate does, with the same
     * draws. The fitness, the elite flag and the network reference stay.
     */
    method Mutate(mutationRate: real, r: real, choice: int, d: MutationDraws)
      requires FloatDraw(r, 0.0, 1.0)
      requires r < mutationRate ==> IntDraw(choice, 0, 6) && network.MutationDefined(choice, d)
      modifies network.LayerSet()`neurons, network.NeuronSet()`outgoing, network.NeuronSet()`activation
      modifies network.SynapseSet()`weight
      ensures r < mutationRate ==> network.Mutated(choice, d)
      ensures !(r < mutationRate) ==>
        unchanged(old(network.LayerSet()), old(network.NeuronSet()), old(network.SynapseSet()))
      ensures !(r < mutationRate) ==> unchanged(old(set s | s in network.synapses))
      ensures forall n | n in old(network.NeuronSet()) :: n.incoming == old(n.incoming)
      ensures fitness == old(fitness) && isElite == old(isElite)
    {
      network.Mutate(mutationRate, r, choice, d);
    }
  }
}
