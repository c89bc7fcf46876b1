/**
 * The population manager: the list of genomes, one car per genome, the
 * generation counter and the best genome of the last evaluation. A
 * generation sorts the genomes by fitness, keeps the ten best, breeds the
 * rest of the new list from parents drawn over the whole sorted list, and
 * spawns a car for every genome of the new list.
 */
module Population {
  import opened NetworkUtil
  import opened UnityRandom
  import opened NeuralNet
  import opened Genome

  datatype Option<T> = None | Some(value: T)

  /** A spawned car, known here only by the genome it was given as its brain. */
  datatype Car = Car(brain: DNA)

  /** The number of genomes a generation keeps unchanged. */
  const ELITE_COUNT: nat := 10

  /** The cars spawned, in order, for the genomes of `genomes`. */
  function CarsFor(genomes: seq<DNA>): (cars: seq<Car>)
    ensures |cars| == |genomes|
    ensures forall i :: 0 <= i < |genomes| ==> cars[i].brain == genomes[i]
  {
    if genomes == [] then [] else CarsFor(genomes[..|genomes| - 1]) + [Car(genomes[|genomes| - 1])]
  }

  // ---------------------------------------------------------------------
  // Ordering by fitness
  // ---------------------------------------------------------------------

  /** The genomes of `s` are in descending order of fitness. */
  ghost predicate Descending(s: seq<DNA>)
    reads s
  {
    forall i, j :: 0 <= i < j < |s| ==> s[i].fitness >= s[j].fitness
  }

  /**
   * `sorted` is a possible result of sorting `population` by descending
   * fitness: the same genomes, each as often, in descending order. Ties may
   * come in any order, as the underlying sort is not stable.
   */
  ghost predicate SortedByFitness(sorted: seq<DNA>, population: seq<DNA>)
    reads sorted
  {
    |sorted| == |population| && multiset(sorted) == multiset(population) && Descending(sorted)
  }

  /**
   * Inserting `d` into the descending list `s` at position `p`, before the
   * first genome it is at least as fit as, gives a descending list.
   */
  lemma {:induction false} Insert(d: DNA, s: seq<DNA>) returns (r: seq<DNA>, p: nat)
    requires Descending(s)
    ensures p <= |s| && r == s[..p] + [d] + s[p..] && Descending(r)
  {
    if s == [] {
      r, p := [d], 0;
    } else if d.fitness >= s[0].fitness {
      r, p := [d] + s, 0;
      DescendingCons(d, s);
    } else {
      var rest, q := Insert(d, s[1..]);
      r, p := [s[0]] + rest, q + 1;
      assert s[..p] == [s[0]] + s[1..][..q] && s[p..] == s[1..][q..];
      InsertedBelowFirst(d, s, rest, q);
      DescendingCons(s[0], rest);
    }
  }

  /** A genome at least as fit as every genome of a descending list can go first. */
  lemma DescendingCons(x: DNA, s: seq<DNA>)
    requires Descending(s) && forall k :: 0 <= k < |s| ==> x.fitness >= s[k].fitness
    ensures Descending([x] + s)
  {
    assert forall j | 0 < j <= |s| :: ([x] + s)[j] == s[j - 1];
  }

  /**
   * A genome less fit than the head of a descending list, inserted into its
   * tail, leaves every genome of the result at most as fit as the head.
   */
  lemma InsertedBelowFirst(d: DNA, s: seq<DNA>, rest: seq<DNA>, q: nat)
    requires Descending(s) && |s| > 0 && d.fitness < s[0].fitness
    requires q <= |s| - 1 && rest == s[1..][..q] + [d] + s[1..][q..]
    ensures forall k :: 0 <= k < |rest| ==> s[0].fitness >= rest[k].fitness
  {
    forall k | 0 <= k < |rest|
      ensures s[0].fitness >= rest[k].fitness
    {
      if k > q {
        assert rest[k] == s[k];
      } else if k < q {
        assert rest[k] == s[k + 1];
      }
    }
  }

  /**
   * Every population has an order sorted by fitness (built by insertion):
   * the sort a generation applies always has a result.
   */
  lemma {:induction false} SortByFitness(population: seq<DNA>) returns (sorted: seq<DNA>)
    ensures SortedByFitness(sorted, population)
  {
    if population == [] {
      sorted := [];
    } else {
      var rest := SortByFitness(population[1..]);
      var p;
      sorted, p := Insert(population[0], rest);
      assert population == [population[0]] + population[1..];
      assert rest == rest[..p] + rest[p..];
      assert multiset(sorted) == multiset(rest[..p]) + multiset{population[0]} + multiset(rest[p..]);
    }
  }

  /** After a sort, the first genome is at least as fit as every genome of the population. */
  lemma SortedFirstIsFittest(sorted: seq<DNA>, population: seq<DNA>)
    requires SortedByFitness(sorted, population) && |population| > 0
    ensures |sorted| > 0 && sorted[0] in population
    ensures forall d | d in population :: d.fitness <= sorted[0].fitness
  {
    assert |multiset(sorted)| == |multiset(population)|;
    assert sorted[0] in multiset(population);
    forall d | d in population
      ensures d.fitness <= sorted[0].fitness
    {
      assert d in multiset(sorted);
      var j :| 0 <= j < |sorted| && sorted[j] == d;
    }
  }

  // ---------------------------------------------------------------------
  // Breeding
  // ---------------------------------------------------------------------

  /**
   * The draws made for one offspring: the two parent positions, the draws
   * of the child network's constructor, and the mutation draws (the draw
   * against the mutation rate, the operator number and its own draws).
   */
  datatype BreedDraws = BreedDraws(parent1: int, parent2: int, init: InitDraws,
                                   rate: real, choice: int, mutation: MutationDraws)

  /** The layer objects of the networks of `genomes`. */
  ghost function LayersOf(genomes: seq<DNA>): set<NeuralLayer>
    reads (set d | d in genomes :: d.network)`layers
  {
    set d, l | d in genomes && l in d.network.layers :: l
  }

  /**
   * `d` is a draw the breeding loop can make over `population`: both parent
   * positions from Random.Range(0, |population|), parents whose networks can
   * be crossed, and mutation draws in range for the child, whose layer sizes
   * are fixed by the parents.
   */
  ghost predicate BreedDrawn(population: seq<DNA>, d: BreedDraws, mutationRate: real)
    reads (set x | x in population :: x.network)`layers, LayersOf(population)`neurons
  {
    && IntDraw(d.parent1, 0, |population|) && IntDraw(d.parent2, 0, |population|)
    && 0 <= d.parent1 < |population| && 0 <= d.parent2 < |population|
    && LayersCrossable(population[d.parent1].network.layers, population[d.parent2].network.layers)
    && FloatDraw(d.rate, 0.0, 1.0)
    && (d.rate < mutationRate ==>
          && IntDraw(d.choice, 0, 6)
          && MutationDrawnFor(ChildCounts(population[d.parent1].network.layers, population[d.parent2].network.layers),
                              d.choice, d.mutation))
  }

  /**
   * While what BreedDrawn reads of the population stays as it was, every
   * draw that was possible over it still is.
   */
  twostate lemma BreedDrawnKept(population: seq<DNA>)
    requires forall x | x in population :: x.network.layers == old(x.network.layers)
    requires forall l | l in LayersOf(population) :: l.neurons == old(l.neurons)
    ensures forall d, rate | old(BreedDrawn(population, d, rate)) :: BreedDrawn(population, d, rate)
  {
  }

  /**
   * `child` is a crossover child, with draws `d`, of `population`: a genome
   * with fitness 0, not elite, around a crossover of the two drawn parents'
   * networks.
   */
  ghost predicate ChildOf(child: DNA, population: seq<DNA>, d: BreedDraws)
    reads child`fitness, child`isElite, child.network`layers, (set x | x in population :: x.network)`layers
  {
    && 0 <= d.parent1 < |population| && 0 <= d.parent2 < |population|
    && child.fitness == 0.0 && !child.isElite
    && var first, second := population[d.parent1].network, population[d.parent2].network;
       Inherits(child.network.layers, first.layers, second.layers) && SameHyperparameters(child.network, first)
  }

  /** The objects BredFrom reads of the offspring `child`. */
  ghost function Footprint(child: DNA): set<object>
    reads child, child.network, child.network.LayerSet(), child.network.NeuronSet()
  {
    {child, child.network} + child.network.LayerSet() + child.network.NeuronSet() + child.network.SynapseSet()
      + child.network.IncomingSet() + (set s | s in child.network.synapses)
  }

  /**
   * `child` is offspring bred with draws `d` from `population`: a crossover
   * child of the two drawn parents, whose new network then either bears the
   * drawn mutation (when the rate draw is below the mutation rate) or is
   * still exactly as its constructor left it.
   */
  ghost predicate BredFrom(child: DNA, population: seq<DNA>, d: BreedDraws, mutationRate: real)
    reads Footprint(child), (set x | x in population :: x.network)`layers
  {
    && ChildOf(child, population, d)
    && child.network.MutatedFromNew(mutationRate, d.rate, d.choice, d.mutation, d.init)
  }

  /**
   * Every genome of `offspring` is BredFrom `population`, the k-th with
   * draws `draws[k]`; stated on the last genome and the ones before it.
   */
  ghost predicate EachBredFrom(offspring: seq<DNA>, population: seq<DNA>, draws: seq<BreedDraws>, mutationRate: real)
    reads set k, o | 0 <= k < |offspring| && o in Footprint(offspring[k]) :: o
    reads (set x | x in population :: x.network)`layers
    decreases |offspring|
  {
    if offspring == [] then true
    else
      var n := |offspring| - 1;
      && n < |draws|
      && EachBredFrom(offspring[..n], population, draws, mutationRate)
      && BredFrom(offspring[n], population, draws[n], mutationRate)
  }

  /** EachBredFrom states BredFrom of genome k of `offspring`, with draws k. */
  lemma {:induction false} EachBredFromAt(offspring: seq<DNA>, population: seq<DNA>, draws: seq<BreedDraws>,
                                          mutationRate: real, k: int)
    requires EachBredFrom(offspring, population, draws, mutationRate) && 0 <= k < |offspring|
    ensures k < |draws| && BredFrom(offspring[k], population, draws[k], mutationRate)
    decreases |offspring|
  {
    var n := |offspring| - 1;
    if k < n {
      EachBredFromAt(offspring[..n], population, draws, mutationRate, k);
      assert offspring[..n][k] == offspring[k];
    }
  }

  /** BredFrom of every genome of `offspring` makes them EachBredFrom. */
  lemma {:induction false} EachBredFromOf(offspring: seq<DNA>, population: seq<DNA>, draws: seq<BreedDraws>,
                                          mutationRate: real)
    requires |offspring| <= |draws|
    requires forall k :: 0 <= k < |offspring| ==> BredFrom(offspring[k], population, draws[k], mutationRate)
    ensures EachBredFrom(offspring, population, draws, mutationRate)
    decreases |offspring|
  {
    if offspring != [] {
      var n := |offspring| - 1;
      var front := offspring[..n];
      assert forall k :: 0 <= k < n ==> front[k] == offspring[k];
      EachBredFromOf(front, population, draws, mutationRate);
    }
  }

  /**
   * The objects BredFrom reads of a genome are allocated, and none of them
   * is a population manager.
   */
  lemma ManagersOutside(child: DNA, managers: set<PopulationManager>)
    ensures forall m | m in managers :: m !in Footprint(child)
    ensures forall o | o in Footprint(child) :: allocated(o)
  {
  }

  /** ManagersOutside for every genome of `offspring`. */
  lemma AllManagersOutside(offspring: seq<DNA>, managers: set<PopulationManager>)
    ensures forall k | 0 <= k < |offspring| ::
      (forall m | m in managers :: m !in Footprint(offspring[k])) && forall o | o in Footprint(offspring[k]) :: allocated(o)
  {
    forall k | 0 <= k < |offspring|
      ensures (forall m | m in managers :: m !in Footprint(offspring[k]))
      ensures forall o | o in Footprint(offspring[k]) :: allocated(o)
    {
      ManagersOutside(offspring[k], managers);
    }
  }

  /**
   * `o` is as it was in the previous state. A named predicate, so that a
   * quantifier over every object has a term to trigger on.
   */
  twostate predicate Kept(o: object)
    reads o
  {
    unchanged(o)
  }

  /**
   * EachBredFrom holds on across a change of the heap that leaves every
   * object but some population managers as it was.
   */
  twostate lemma {:induction false} EachBredFromKept(new offspring: seq<DNA>, new population: seq<DNA>,
                                                     new draws: seq<BreedDraws>, new mutationRate: real,
                                                     new managers: set<PopulationManager>)
    requires old(allocated(offspring)) && old(allocated(population))
    requires old(EachBredFrom(offspring, population, draws, mutationRate))
    requires forall k | 0 <= k < |offspring| ::
      old((forall m | m in managers :: m !in Footprint(offspring[k])) && forall o | o in Footprint(offspring[k]) :: allocated(o))
    requires forall o: object | o !in managers && old(allocated(o)) :: Kept(o)
    ensures EachBredFrom(offspring, population, draws, mutationRate)
    decreases |offspring|
  {
    if offspring != [] {
      var n := |offspring| - 1;
      EachBredFromKept(offspring[..n], population, draws, mutationRate, managers);
      var child := offspring[n];
      forall o | o in old(Footprint(child))
        ensures unchanged(o)
      {
        assert Kept(o);
      }
      forall x | x in population
        ensures unchanged(x.network)
      {
        assert Kept(x.network);
      }
    }
  }

  /**
   * The crossover half of BreedOne: a new genome for the crossover of the
   * two drawn parents, first parent first, whose network the drawn mutation
   * can be applied to.
   */
  method CrossParents(population: seq<DNA>, mutationRate: real, d: BreedDraws) returns (child: DNA)
    requires BreedDrawn(population, d, mutationRate)
    ensures fresh(child) && fresh(child.network)
    ensures fresh(child.network.LayerSet()) && fresh(child.network.NeuronSet()) && fresh(child.network.SynapseSet())
    ensures ChildOf(child, population, d)
    ensures child.network.AsConstructed(d.init) && child.network.DistinctLayers()
    ensures FloatDraw(d.rate, 0.0, 1.0)
    ensures d.rate < mutationRate ==> IntDraw(d.choice, 0, 6) && child.network.MutationDefined(d.choice, d.mutation)
  {
    var parent1 := population[d.parent1];
    var parent2 := population[d.parent2];
    child := parent1.Crossover(parent2, d.init);
    if d.rate < mutationRate {
      child.network.MutationDefinedOnNew(d.init, d.choice, d.mutation);
    }
  }

  /**
   * One offspring, as the breeding loop makes it: the crossover of the two
   * drawn parents, then the mutation. No genome or network that existed
   * before changes.
   */
  method BreedOne(population: seq<DNA>, mutationRate: real, d: BreedDraws) returns (child: DNA)
    requires BreedDrawn(population, d, mutationRate)
    ensures fresh(child) && BredFrom(child, population, d, mutationRate)
  {
    child := CrossParents(population, mutationRate, d);
    MutateChild(child, mutationRate, d);
  }

  /**
   * The mutation half of BreedOne, on a genome whose network is as its
   * constructor left it: the genome's Mutate with the drawn values, which
   * leaves the network MutatedFromNew and the fitness and elite flag as
   * they were.
   */
  method MutateChild(child: DNA, mutationRate: real, d: BreedDraws)
    requires child.network.AsConstructed(d.init) && child.network.DistinctLayers()
    requires FloatDraw(d.rate, 0.0, 1.0)
    requires d.rate < mutationRate ==> IntDraw(d.choice, 0, 6) && child.network.MutationDefined(d.choice, d.mutation)
    modifies child.network.LayerSet()`neurons, child.network.NeuronSet()`outgoing
    modifies child.network.NeuronSet()`activation, child.network.SynapseSet()`weight
    ensures child.network.MutatedFromNew(mutationRate, d.rate, d.choice, d.mutation, d.init)
    ensures child.fitness == old(child.fitness) && child.isElite == old(child.isElite)
  {
    child.network.ConstructedLayout(d.init);
    label Built:
    child.Mutate(mutationRate, d.rate, d.choice, d.mutation);
    child.network.MutationMark@Built(d.init, mutationRate, d.rate, d.choice, d.mutation);
  }

  /**
   * One turn of the breeding loop: BreedOne with the next draws. The
   * offspring bred so far stay BredFrom the population, since no genome or
   * network that existed before changes.
   */
  method BreedNext(population: seq<DNA>, mutationRate: real, draws: seq<BreedDraws>, offspring: seq<DNA>)
    returns (child: DNA)
    requires |offspring| < |draws| && BreedDrawn(population, draws[|offspring|], mutationRate)
    requires EachBredFrom(offspring, population, draws, mutationRate)
    ensures fresh(child) && child !in offspring
    ensures EachBredFrom(offspring + [child], population, draws, mutationRate)
  {
    AllManagersOutside(offspring, {});
    label Before:
    child := BreedOne(population, mutationRate, draws[|offspring|]);
    forall o: object | old@Before(allocated(o))
      ensures Kept@Before(o)
    {
    }
    EachBredFromKept@Before(offspring, population, draws, mutationRate, {});
    assert (offspring + [child])[..|offspring|] == offspring;
  }

  /**
   * The breeding loop of a generation: `count` offspring, each the
   * crossover of two parents drawn from `population`, then mutated. The
   * population, its genomes and their networks do not change.
   */
  /** The genomes of `s` are distinct and were all allocated after the previous state. */
  twostate predicate AllFresh(new s: seq<DNA>) {
    && (forall k :: 0 <= k < |s| ==> fresh(s[k]))
    && (forall a, b :: 0 <= a < b < |s| ==> s[a] != s[b])
  }

  /** A genome allocated after the previous state and not yet in `s` extends it. */
  twostate lemma AllFreshSnoc(new s: seq<DNA>, new child: DNA)
    requires AllFresh(s) && !old(allocated(child)) && child !in s
    ensures AllFresh(s + [child])
  {
  }

  /** What AllFresh states, element by element. */
  twostate lemma AllFreshMeans(new s: seq<DNA>)
    requires AllFresh(s)
    ensures forall k :: 0 <= k < |s| ==> fresh(s[k])
    ensures forall a, b :: 0 <= a < b < |s| ==> s[a] != s[b]
  {
  }

  method Breed(population: seq<DNA>, count: int, mutationRate: real, draws: seq<BreedDraws>)
    returns (offspring: seq<DNA>)
    requires count <= |draws|
    requires forall i :: 0 <= i < count ==> BreedDrawn(population, draws[i], mutationRate)
    ensures |offspring| == if count < 0 then 0 else count
    ensures forall i :: 0 <= i < |offspring| ==> fresh(offspring[i])
    ensures EachBredFrom(offspring, population, draws, mutationRate)
    ensures forall a, b :: 0 <= a < b < |offspring| ==> offspring[a] != offspring[b]
  {
    label Start:
    offspring := [];
    var i := 0;
    while i < count
      invariant 0 <= i <= (if count < 0 then 0 else count) && |offspring| == i
      invariant AllFresh(offspring)
      invariant EachBredFrom(offspring, population, draws, mutationRate)
    {
      BreedDrawnKept@Start(population);
      var child := BreedNext(population, mutationRate, draws, offspring);
      AllFreshSnoc(offspring, child);
      offspring := offspring + [child];
      i := i + 1;
    }
    AllFreshMeans(offspring);
  }

  // ---------------------------------------------------------------------
  // The initial population
  // ---------------------------------------------------------------------

  /** The fixed training settings of a network of the initial population. */
  const INITIAL_REGULARIZATION_RATE: real := 0.01
  const INITIAL_LEARNING_RATE: real := 0.01
  const INITIAL_EPOCHS: int := 100
  const INITIAL_DROPOUT_RATE: real := 0.1

  /**
   * `net` is a network of the initial population: an input layer and an
   * output layer of the configured sizes, both with the configured
   * activation kind, regularization and optimizer, and the fixed training
   * settings.
   */
  predicate InitialNetwork(net: NeuralNetwork, inputSize: nat, outputSize: nat, kind: ActivationKind,
                           regularization: RegularizationKind, optimization: OptimizationKind)
    reads net`layers
  {
    && Counts(net.layers) == [inputSize, outputSize]
    && (forall i :: 0 <= i < |net.layers| ==>
          net.layers[i].activation == kind && net.layers[i].regularization == regularization
          && net.layers[i].optimization == optimization)
    && net.activation == kind && net.regularization == regularization
    && net.regularizationRate == INITIAL_REGULARIZATION_RATE && net.optimization == optimization
    && net.learningRate == INITIAL_LEARNING_RATE && net.epochs == INITIAL_EPOCHS
    && net.dropoutRate == INITIAL_DROPOUT_RATE
  }

  /** `dna` is a genome of the initial population: fitness 0, not elite, and an initial network. */
  predicate InitialGenome(dna: DNA, inputSize: nat, outputSize: nat, kind: ActivationKind,
                          regularization: RegularizationKind, optimization: OptimizationKind)
    reads dna`fitness, dna`isElite, dna.network`layers
  {
    && dna.fitness == 0.0 && !dna.isElite
    && InitialNetwork(dna.network, inputSize, outputSize, kind, regularization, optimization)
  }

  /** A new input layer and a new output layer of the given sizes and settings, without neurons. */
  method InitialLayers(inputSize: nat, outputSize: nat, kind: ActivationKind, regularization: RegularizationKind,
                       optimization: OptimizationKind) returns (layers: seq<NeuralLayer>)
    ensures |layers| == 2 && fresh(layers[0]) && fresh(layers[1]) && layers[0] != layers[1]
    ensures Counts(layers) == [inputSize, outputSize]
    ensures forall i :: 0 <= i < |layers| ==>
      && layers[i].activation == kind && layers[i].regularization == regularization
      && layers[i].optimization == optimization
  {
    var input := new NeuralLayer(inputSize, kind, regularization, optimization);
    var output := new NeuralLayer(outputSize, kind, regularization, optimization);
    layers := [input, output];
  }

  /**
   * A network of the initial population: an input and an output layer of
   * the given sizes and settings, built by the constructor with the fixed
   * training settings and the constructor draws `draws`.
   */
  method NewNetwork(inputSize: nat, outputSize: nat, kind: ActivationKind, regularization: RegularizationKind,
                    optimization: OptimizationKind, draws: InitDraws) returns (network: NeuralNetwork)
    ensures fresh(network)
    ensures InitialNetwork(network, inputSize, outputSize, kind, regularization, optimization)
    ensures network.AsConstructed(draws) && network.DistinctLayers()
  {
    var layers := InitialLayers(inputSize, outputSize, kind, regularization, optimization);
    network := new NeuralNetwork(layers, kind, regularization, INITIAL_REGULARIZATION_RATE,
                                 optimization, INITIAL_LEARNING_RATE, INITIAL_EPOCHS,
                                 INITIAL_DROPOUT_RATE, draws);
  }

  /** One genome of the initial population, for a network built by NewNetwork. */
  method NewGenome(inputSize: nat, outputSize: nat, kind: ActivationKind, regularization: RegularizationKind,
                   optimization: OptimizationKind, draws: InitDraws) returns (dna: DNA)
    ensures fresh(dna) && fresh(dna.network)
    ensures InitialGenome(dna, inputSize, outputSize, kind, regularization, optimization)
    ensures dna.network.AsConstructed(draws) && dna.network.DistinctLayers()
  {
    var network := NewNetwork(inputSize, outputSize, kind, regularization, optimization, draws);
    label Built:
    dna := new DNA(network);
    network.ConstructedKept@Built(draws);
  }

  // ---------------------------------------------------------------------
  // The manager
  // ---------------------------------------------------------------------

  /**
   * Every genome of the population but the ten first is at most as fit as
   * each of the ten first genomes of a sort of it: the elite a generation
   * keeps are ten fittest genomes.
   */
  lemma EliteAreFittest(sorted: seq<DNA>, population: seq<DNA>)
    requires SortedByFitness(sorted, population) && |population| >= ELITE_COUNT
    ensures forall d, e | d in multiset(population) - multiset(sorted[..ELITE_COUNT]) && e in sorted[..ELITE_COUNT] ::
      d.fitness <= e.fitness
  {
    assert sorted == sorted[..ELITE_COUNT] + sorted[ELITE_COUNT..];
    forall d, e | d in multiset(population) - multiset(sorted[..ELITE_COUNT]) && e in sorted[..ELITE_COUNT]
      ensures d.fitness <= e.fitness
    {
      assert multiset(sorted) == multiset(sorted[..ELITE_COUNT]) + multiset(sorted[ELITE_COUNT..]);
      assert d in multiset(sorted[ELITE_COUNT..]);
      var j :| 0 <= j < |sorted[ELITE_COUNT..]| && sorted[ELITE_COUNT..][j] == d;
      var i :| 0 <= i < ELITE_COUNT && sorted[i] == e;
      assert sorted[ELITE_COUNT + j] == d;
    }
  }

  /** Cars spawned for new genomes drive genomes of the grown list. */
  lemma CarsForDrive(cars: seq<Car>, population: seq<DNA>, genomes: seq<DNA>)
    requires forall c | c in cars :: c.brain in population
    ensures forall c | c in cars + CarsFor(genomes) :: c.brain in population + genomes
  {
    forall c | c in cars + CarsFor(genomes)
      ensures c.brain in population + genomes
    {
      if c !in cars {
        var k :| 0 <= k < |CarsFor(genomes)| && CarsFor(genomes)[k] == c;
        assert (population + genomes)[|population| + k] == c.brain;
      }
    }
  }

  class PopulationManager {
    const populationSize: int
    const mutationRate: real
    const inputLayerSize: nat
    const outputLayerSize: nat
    const activationFunctionType: ActivationKind
    const regularizationType: RegularizationKind
    const optimizationAlgorithm: OptimizationKind
    var population: seq<DNA>
    var cars: seq<Car>
    var generationCount: int
    var bestFitness: real
    var bestGenes: Option<DNA>

    /**
     * The length of a new generation's genome list: the ten elites and
     * populationSize - 10 offspring, none when populationSize is below 10.
     */
    function GenerationSize(): int
    {
      ELITE_COUNT + (if populationSize < ELITE_COUNT then 0 else populationSize - ELITE_COUNT)
    }

    /** Every spawned car drives a genome of the population. */
    predicate CarsDriveGenomes()
      reads this`cars, this`population
    {
      forall c | c in cars :: c.brain in population
    }

    /** A manager with the given settings, no genomes, no cars and generation 0. */
    constructor (populationSize: int, mutationRate: real, inputLayerSize: nat, outputLayerSize: nat,
                 activationFunctionType: ActivationKind, regularizationType: RegularizationKind,
                 optimizationAlgorithm: OptimizationKind)
      ensures this.populationSize == populationSize && this.mutationRate == mutationRate
      ensures this.inputLayerSize == inputLayerSize && this.outputLayerSize == outputLayerSize
      ensures this.activationFunctionType == activationFunctionType
      ensures this.regularizationType == regularizationType
      ensures this.optimizationAlgorithm == optimizationAlgorithm
      ensures population == [] && cars == [] && generationCount == 0
      ensures bestFitness == 0.0 && bestGenes == None
      ensures CarsDriveGenomes()
    {
      this.populationSize := populationSize;
      this.mutationRate := mutationRate;
      this.inputLayerSize := inputLayerSize;
      this.outputLayerSize := outputLayerSize;
      this.activationFunctionType := activationFunctionType;
      this.regularizationType := regularizationType;
      this.optimizationAlgorithm := optimizationAlgorithm;
      population := [];
      cars := [];
      generationCount := 0;
      bestFitness := 0.0;
      bestGenes := None;
    }

    /** Adds `dna` to the population and spawns a car with it as its brain. */
    method SpawnCar(dna: DNA)
      modifies this`population, this`cars
      ensures population == old(population) + [dna] && cars == old(cars) + [Car(dna)]
      ensures old(CarsDriveGenomes()) ==> CarsDriveGenomes()
    {
      population := population + [dna];
      cars := cars + [Car(dna)];
    }

    /**
     * populationSize new genomes (none for a size below 1), each with two
     * layers of the configured sizes and settings, each added to the
     * population with a car of its own.
     */
    method SpawnInitialPopulation(draws: seq<InitDraws>)
      requires populationSize <= |draws| && CarsDriveGenomes()
      modifies this`population, this`cars
      ensures var n := |old(population)|;
        && |population| == n + (if populationSize < 0 then 0 else populationSize)
        && population[..n] == old(population)
        && cars == old(cars) + CarsFor(population[n..])
        && forall i :: n <= i < |population| ==>
             && fresh(population[i])
             && InitialGenome(population[i], inputLayerSize, outputLayerSize, activationFunctionType,
                              regularizationType, optimizationAlgorithm)
      ensures CarsDriveGenomes()
    {
      ghost var genomes: seq<DNA> := [];
      var i := 0;
      while i < populationSize
        invariant 0 <= i <= (if populationSize < 0 then 0 else populationSize) && |genomes| == i
        invariant population == old(population) + genomes && cars == old(cars) + CarsFor(genomes)
        invariant forall k :: 0 <= k < i ==>
          && fresh(genomes[k])
          && InitialGenome(genomes[k], inputLayerSize, outputLayerSize, activationFunctionType,
                           regularizationType, optimizationAlgorithm)
      {
        var dna := SpawnNewGenome(draws[i]);
        assert (genomes + [dna])[..i] == genomes;
        genomes := genomes + [dna];
        i := i + 1;
      }
      assert population[|old(population)|..] == genomes;
      CarsForDrive(old(cars), old(population), genomes);
    }

    /**
     * One round of SpawnInitialPopulation's loop: a new genome with two
     * layers of the configured sizes and settings, spawned with a car.
     */
    method SpawnNewGenome(draws: InitDraws) returns (dna: DNA)
      modifies this`population, this`cars
      ensures fresh(dna)
      ensures InitialGenome(dna, inputLayerSize, outputLayerSize, activationFunctionType,
                            regularizationType, optimizationAlgorithm)
      ensures population == old(population) + [dna] && cars == old(cars) + [Car(dna)]
    {
      dna := NewGenome(inputLayerSize, outputLayerSize, activationFunctionType, regularizationType,
                       optimizationAlgorithm, draws);
      SpawnCar(dna);
    }

    /**
     * Takes the sort of the population by descending fitness and records
     * its first genome as the best one: no genome of the population is
     * fitter.
     */
    method EvaluatePopulation(sorted: seq<DNA>)
      requires |population| > 0 && SortedByFitness(sorted, population) && CarsDriveGenomes()
      modifies this`population, this`bestFitness, this`bestGenes
      ensures population == sorted
      ensures bestGenes == Some(sorted[0]) && bestFitness == sorted[0].fitness
      ensures bestGenes.value in old(population)
      ensures forall d | d in old(population) :: d.fitness <= bestFitness
      ensures CarsDriveGenomes()
    {
      SortedFirstIsFittest(sorted, population);
      forall c | c in cars
        ensures c.brain in sorted
      {
        assert c.brain in multiset(population);
      }
      population := sorted;
      bestFitness := population[0].fitness;
      bestGenes := Some(population[0]);
    }

    /** Destroys every car. */
    method DestroyCars()
      modifies this`cars
      ensures cars == []
      ensures CarsDriveGenomes()
    {
      cars := [];
    }

    /**
     * Spawns a car for every genome of a copy of the population, in order.
     * Each spawn also appends the genome to the population again, so the
     * population ends as two copies of itself.
     */
    method GenerateCars()
      requires CarsDriveGenomes()
      modifies this`population, this`cars
      ensures population == old(population) + old(population)
      ensures cars == old(cars) + CarsFor(old(population))
      ensures CarsDriveGenomes()
    {
      var populationCopy := population;
      var i := 0;
      while i < |populationCopy|
        invariant 0 <= i <= |populationCopy|
        invariant population == populationCopy + populationCopy[..i]
        invariant cars == old(cars) + CarsFor(populationCopy[..i])
        invariant CarsDriveGenomes()
      {
        SpawnCar(populationCopy[i]);
        assert populationCopy[..i + 1] == populationCopy[..i] + [populationCopy[i]];
        i := i + 1;
      }
      assert populationCopy[..i] == populationCopy;
    }

    /**
     * The genome list of the next generation from the sort `sorted` of the
     * population: its ten first genomes, then populationSize - 10 offspring
     * bred from parents drawn over the whole sort.
     */
    method NextGeneration(sorted: seq<DNA>, draws: seq<BreedDraws>) returns (generation: seq<DNA>)
      requires |sorted| >= ELITE_COUNT && populationSize - ELITE_COUNT <= |draws|
      requires forall i :: 0 <= i < populationSize - ELITE_COUNT ==> BreedDrawn(sorted, draws[i], mutationRate)
      ensures |generation| == GenerationSize()
      ensures generation[..ELITE_COUNT] == sorted[..ELITE_COUNT]
      ensures forall i :: ELITE_COUNT <= i < |generation| ==> fresh(generation[i])
      ensures EachBredFrom(generation[ELITE_COUNT..], sorted, draws, mutationRate)
    {
      var elite := sorted[..ELITE_COUNT];
      var offspring := Breed(sorted, populationSize - ELITE_COUNT, mutationRate, draws);
      generation := elite + offspring;
      assert generation[ELITE_COUNT..] == offspring;
    }

    /**
     * Destroys every car, then spawns a car for each genome of the list,
     * which doubles the list.
     */
    method ResetScene()
      modifies this`population, this`cars
      ensures population == old(population) + old(population) && cars == CarsFor(old(population))
      ensures CarsDriveGenomes()
    {
      DestroyCars();
      GenerateCars();
    }

    /**
     * The next generation from the sort `sorted` of the population, as
     * NextGeneration builds it, then the reset of the scene.
     */
    method CreateNewGeneration(sorted: seq<DNA>, draws: seq<BreedDraws>)
      requires |population| >= ELITE_COUNT && SortedByFitness(sorted, population)
      requires populationSize - ELITE_COUNT <= |draws|
      requires forall i :: 0 <= i < populationSize - ELITE_COUNT ==> BreedDrawn(sorted, draws[i], mutationRate)
      requires CarsDriveGenomes()
      modifies this`population, this`cars
      ensures |population| == 2 * GenerationSize()
      ensures population[GenerationSize()..] == population[..GenerationSize()]
      ensures population[..ELITE_COUNT] == sorted[..ELITE_COUNT]
      ensures cars == CarsFor(population[..GenerationSize()])
      ensures forall i :: ELITE_COUNT <= i < GenerationSize() ==> fresh(population[i])
      ensures EachBredFrom(population[ELITE_COUNT..GenerationSize()], sorted, draws, mutationRate)
      ensures CarsDriveGenomes()
    {
      var generation := NextGeneration(sorted, draws);
      InstallGeneration(generation, sorted, draws);
      assert population[..|generation|] == generation;
    }

    /**
     * The genome list becomes `generation`, then the scene is reset. Its
     * offspring, the genomes after the ten elites, stay EachBredFrom
     * `sorted` with `draws`, as only this manager changes.
     */
    method InstallGeneration(generation: seq<DNA>, ghost sorted: seq<DNA>, ghost draws: seq<BreedDraws>)
      requires |generation| >= ELITE_COUNT && EachBredFrom(generation[ELITE_COUNT..], sorted, draws, mutationRate)
      modifies this`population, this`cars
      ensures population == generation + generation && cars == CarsFor(generation)
      ensures CarsDriveGenomes()
      ensures EachBredFrom(population[ELITE_COUNT..|generation|], sorted, draws, mutationRate)
    {
      var bred := generation[ELITE_COUNT..];
      AllManagersOutside(bred, {this});
      label Before:
      population := generation;
      ResetScene();
      forall o: object | o != this && old@Before(allocated(o))
        ensures Kept@Before(o)
      {
      }
      EachBredFromKept@Before(bred, sorted, draws, mutationRate, {this});
      assert population[ELITE_COUNT..|generation|] == bred;
    }

    /**
     * The generation counter's increment. The offspring `bred` stay
     * EachBredFrom `population` with `draws`, as only this manager changes.
     */
    method CountGeneration(ghost bred: seq<DNA>, ghost population': seq<DNA>, ghost draws: seq<BreedDraws>)
      requires EachBredFrom(bred, population', draws, mutationRate)
      modifies this`generationCount
      ensures generationCount == old(generationCount) + 1
      ensures EachBredFrom(bred, population', draws, mutationRate)
    {
      AllManagersOutside(bred, {this});
      label Before:
      generationCount := generationCount + 1;
      forall o: object | o != this && old@Before(allocated(o))
        ensures Kept@Before(o)
      {
      }
      EachBredFromKept@Before(bred, population', draws, mutationRate, {this});
    }

    /**
     * One round of evolution, after the simulation time: the evaluation,
     * the next generation and the generation counter's increment.
     */
    method EvolveStep(evaluated: seq<DNA>, sorted: seq<DNA>, draws: seq<BreedDraws>)
      requires |population| >= ELITE_COUNT && SortedByFitness(evaluated, population)
      requires SortedByFitness(sorted, evaluated)
      requires populationSize - ELITE_COUNT <= |draws|
      requires forall i :: 0 <= i < populationSize - ELITE_COUNT ==> BreedDrawn(sorted, draws[i], mutationRate)
      requires CarsDriveGenomes()
      modifies this`population, this`cars, this`bestFitness, this`bestGenes, this`generationCount
      ensures bestGenes == Some(evaluated[0]) && bestFitness == evaluated[0].fitness
      ensures forall d | d in old(population) :: d.fitness <= bestFitness
      ensures |population| == 2 * GenerationSize()
      ensures population[GenerationSize()..] == population[..GenerationSize()]
      ensures population[..ELITE_COUNT] == sorted[..ELITE_COUNT]
      ensures cars == CarsFor(population[..GenerationSize()])
      ensures forall i :: ELITE_COUNT <= i < GenerationSize() ==> fresh(population[i])
      ensures EachBredFrom(population[ELITE_COUNT..GenerationSize()], sorted, draws, mutationRate)
      ensures generationCount == old(generationCount) + 1
      ensures CarsDriveGenomes()
    {
      assert |multiset(evaluated)| == |multiset(population)|;
      EvaluatePopulation(evaluated);
      CreateNewGeneration(sorted, draws);
      CountGeneration(population[ELITE_COUNT..GenerationSize()], sorted, draws);
    }
  }
}
