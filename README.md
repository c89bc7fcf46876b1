# GACar genetic-algorithm core in Dafny

This project models the engine behind GACar, a Unity simulation that evolves
car controllers with a genetic algorithm. Each car's brain is a small neural
network. A generation runs for a fixed time, the genomes are sorted by the
fitness their cars collected, the ten best are kept, and the rest of the new
generation is bred by crossing over two random parents and mutating the
child. The model covers:

- **UnityRandom** (`unity_random.dfy`): the values `Random.Range` can return.
  Every draw the engine makes is a parameter of the operation that makes it.
  The draws of the mutation operators, the breeding loop and the mutation
  choice are constrained by these predicates. The constructor's weight and
  bias draws are left unconstrained, because no contract depends on their
  range.
- **NetworkUtil** (`neural_network_util.dfy`): the three setting enumerations
  and the `Synapse`, `Neuron` and `NeuralLayer` classes.
  - A synapse is one object, listed by identity in both of its endpoints.
  - Neurons and layers are changed in place.
- **NeuronGraph** (`neuron_graph.dfy`): predicates over the neuron lists of a
  network. They cover full connection between adjacent lists, distinct
  neurons and the flattening of nested lists, plus the values a partial
  wiring records.
- **ForwardPass** (`forward_pass.dfy`): the forward pass.
  - The pure function `Forward` is defined over a snapshot of what the pass
    reads, namely each neuron's activation kind and outgoing weights.
  - The loops `ForwardValues`, `LayerValues` and `WeightedInput` are proved
    to compute `Forward`.
- **Training** (`training.dfy`): the training step and the training loop.
  The output error is the constant 0 in the source, so every delta is 0 and
  training changes no weight and no bias. The contracts state this.
- **Pruning** (`pruning.dfy`): the filter of the `RemoveDisconnectedElements`
  mutation, as the function `Prune`, with its properties:
  - idempotence;
  - order preservation;
  - membership, both directions;
  - it is the identity on a network as its constructor leaves it.
- **NeuralNet** (`neural_network.dfy`): the `NeuralNetwork` class.
  - Its constructor builds the weight matrices and bias vectors, fresh
    neurons for every layer, and the fully connected synapse graph numbered
    in (layer, source, target) order.
  - It also has the forward pass, training, crossover, the six mutation
    operators and `AddLayer`.
- **Genome** (`genome.dfy`): the `DNA` class, which pairs a network with a
  fitness and an elite flag.
- **Population** (`population_manager.dfy`): the `PopulationManager` class.
  It covers:
  - the initial population;
  - one car per spawned genome (a car is known by the genome it drives);
  - evaluation by sort;
  - the elite of ten;
  - breeding;
  - the reset of the scene;
  - the generation counter.
- **GeneticAlgorithm** (`genetic_algorithm_manager.dfy`): the history of best
  genomes and the generation index.

### Representation choices

- Numbers are `real`, not single-precision floats. The activation functions
  (sigmoid, ReLU, tanh, which need the exponential) are a parameter
  `act: (ActivationKind, real) -> real`. The derivative used by the training
  step is polynomial and is written out.
- `List.Sort` with a fitness comparator is not stable. The sort's result is
  therefore a parameter, required to be a descending permutation of the
  population (`SortedByFitness`). `Population.SortByFitness` shows that such a
  result always exists.
- The draws of the network constructor are functions of their position:
  - matrix entry (i, j, k), the draw of loop iteration i, j, k at
    `NeuralNetwork.cs:63`;
  - bias (i, j);
  - the weight of the synapse with id m.
- The draws of the other operations are plain parameters.
- Neuron counts are `nat`. The source's `NeuralLayer` constructor
  (`NeuralNetworkUtil.cs:77-83`) stores any `int` count; negative counts are
  not modelled (see "Left out").
- The population size and loop bounds stay `int`, so a non-positive
  `populationSize` runs no iteration, as in the source.

### Behaviour of the code

The model follows the code in each of these points.

- **Population doubling.** `GenerateCars` (`PopulationManager.cs:203-209`)
  calls `SpawnCar` for each genome of a copy of the population, and
  `SpawnCar` (`PopulationManager.cs:119-127`) also appends that genome to
  the population. So after every `ResetScene` the list is two copies of
  itself. `ResetScene`, `CreateNewGeneration` and `EvolveStep` state this.
- **Elite count.** `CreateNewGeneration` keeps the first 10 genomes of the
  sort (`PopulationManager.cs:159`), a fixed number.
- **Sort.** Both sorts (`PopulationManager.cs:148`, `PopulationManager.cs:157`)
  are `List.Sort` with a fitness comparator, which is not stable.
- **Parent pool.** Both parents are drawn uniformly over the whole sorted
  population, the elite included (`PopulationManager.cs:166-167`).
- **Elite flag.** `DNA.IsElite` (`DNA.cs:4`) starts `false` and no code of
  the core assigns it, so it stays `false`.
- **Crossover.** `NeuralNetwork.Crossover` (`NeuralNetwork.cs:267-292`)
  builds child layers that hold the parents' neuron objects, then passes
  them to the constructor (`NeuralNetwork.cs:29-49`). The constructor's
  `InitializeNeurons` (`NeuralNetwork.cs:76-88`) replaces every layer's
  neurons with fresh ones. So the child keeps only the parents' layer sizes
  and settings, which is what `NeuralNet.NeuralNetwork.Crossover` states.
- **Mutation choice.** The operator number comes from `Random.Range(0, 6)`
  (`NeuralNetwork.cs:296`), whose upper bound is excluded, so it is 0 to 5.

## Model

| member | source | states |
|---|---|---|
| NetworkUtil.Ordinal | Assets/_Scripts/NeuralNetworkUtil.cs:5 | the underlying value of an activation kind is below the number of kinds |
| NetworkUtil.FromOrdinal | Assets/_Scripts/NeuralNetwork.cs:366 | the cast from an in-range integer gives the kind with that underlying value |
| NetworkUtil.FromOrdinalOfOrdinal | Assets/_Scripts/NeuralNetworkUtil.cs:5 | casting back a kind's underlying value gives the same kind (round trip) |
| NetworkUtil.Synapse.constructor | Assets/_Scripts/NeuralNetworkUtil.cs:17-22 | the synapse holds the given id, endpoints and weight |
| NetworkUtil.Neuron.constructor | Assets/_Scripts/NeuralNetworkUtil.cs:31-36 | the new neuron has the given index and kind and two empty synapse lists |
| NetworkUtil.Neuron.AddOutgoingSynapse | Assets/_Scripts/NeuralNetworkUtil.cs:59-62 | exactly one new synapse (id 0, from this neuron to the target, with the weight) is appended to this neuron's outgoing list; earlier entries are kept and nothing else changes |
| NetworkUtil.Neuron.AddIncomingSynapse | Assets/_Scripts/NeuralNetworkUtil.cs:64-67 | exactly one new synapse (id 0, from the source to this neuron) is appended to this neuron's incoming list; the source is not touched |
| NetworkUtil.NeuralLayer.constructor | Assets/_Scripts/NeuralNetworkUtil.cs:77-83 | the layer holds the count and settings and no neurons |
| NetworkUtil.NeuralLayer.Crossover | Assets/_Scripts/NeuralNetworkUtil.cs:85-92 | a new layer with this layer's count and settings, as many neurons as this layer, this layer's neuron object at even positions and the other's at odd ones; requires the other layer to have a neuron at every odd position read |
| NetworkUtil.NeuralLayer.AddNeuron | Assets/_Scripts/NeuralNetworkUtil.cs:94-96 | the neuron is appended and the configured count is unchanged |
| NeuralNet.MatrixLayout | Assets/_Scripts/NeuralNetwork.cs:154-162 | flattening matrices of the constructor's shapes gives the sum of the adjacent layer-size products as the number of entries, with entry (j, k) of matrix a at its row-major position after the earlier matrices |
| NeuralNet.SynapseLayout | Assets/_Scripts/NeuralNetwork.cs:90-105 | fully connected lists of the configured sizes, whose synapse list is their outgoing lists numbered in order, hold the same number of synapses as the matrices have entries, and the synapse from neuron j of layer a to neuron k of layer a + 1 has that position as its id and its drawn weight |
| NeuralNet.FullFeedsForward | Assets/_Scripts/NeuralNetwork.cs:172-196 | on fully connected lists of the configured sizes with the constructor's bias vectors, every step of the forward pass reads only neurons, synapses and biases that exist |
| NeuralNet.PruneLayers | Assets/_Scripts/NeuralNetwork.cs:370-389 | after the loop, every layer holds its filtered list `Prune(lists)[i]`, filtering in order from layer 1 against the already filtered previous layer |
| NeuralNet.ChildLayers | Assets/_Scripts/NeuralNetwork.cs:267-278 | one new, distinct layer per layer of this network: layer i is this layer crossed with the other's at even i and the other way round at odd i; the sizes are `ChildCounts` |
| NeuralNet.GrownLayerNotCrossable | Assets/_Scripts/NeuralNetwork.cs:270-278 | two layer lists whose layer at an odd position i is, in the second list, one neuron longer than an odd-length layer in the first are not crossable: the crossover at i would read the first list's neuron at that odd length (NeuralNetworkUtil.cs:88), where the source throws |
| NeuralNet.NeuralNetwork.constructor | Assets/_Scripts/NeuralNetwork.cs:29-49 | the settings are stored; the matrices and biases hold the draws in the constructor's shapes; every layer gets fresh neurons numbered 0 .. count-1 with the network's kind; adjacent layers are fully connected, each synapse listed once in both endpoints and numbered in (layer, source, target) order with its drawn weight (`AsConstructed`) |
| NeuralNet.NeuralNetwork.Initialize | Assets/_Scripts/NeuralNetwork.cs:45-48 | the three construction steps together establish `AsConstructed` on fresh neurons and synapses |
| NeuralNet.NeuralNetwork.InitializeGraph | Assets/_Scripts/NeuralNetwork.cs:47-48 | the neuron and synapse steps together give the constructor's graph (`GraphAsConstructed`) on fresh objects |
| NeuralNet.NeuralNetwork.InitializeWeightsAndBiases | Assets/_Scripts/NeuralNetwork.cs:51-74 | one matrix of counts[i] rows of counts[i-1] entries and one vector of counts[i] biases per layer after the first, each entry its draw |
| NeuralNet.NeuralNetwork.ConstructedLayout | Assets/_Scripts/NeuralNetwork.cs:51-105 | in a new network the synapse count equals the number of matrix entries, and the synapses are numbered in (layer, source, target) order |
| NeuralNet.NeuralNetwork.FlattenWeights | Assets/_Scripts/NeuralNetwork.cs:154-162 | the result is the matrices flattened layer by layer and row by row (laid out as `MatrixLayout` states); nothing changes |
| NeuralNet.NeuralNetwork.InitializeNeurons | Assets/_Scripts/NeuralNetwork.cs:76-88 | every layer's list is replaced by neuronCount fresh, distinct, unwired neurons with indices 0 .. count-1 and the network's kind |
| NeuralNet.NeuralNetwork.NewNeurons | Assets/_Scripts/NeuralNetwork.cs:79-84 | count fresh distinct neurons, neuron b having index b, the network's kind and no synapses |
| NeuralNet.NeuralNetwork.InitializeSynapses | Assets/_Scripts/NeuralNetwork.cs:90-105 | the lists end fully connected; the network's synapse list is every outgoing list in order, every synapse fresh, synapse m having id m and weight draw(m); the counter equals the number of synapses |
| NeuralNet.NeuralNetwork.ConnectNext | Assets/_Scripts/NeuralNetwork.cs:92-104 | one round of the layer loop links layer i to layer i + 1 and extends the numbered synapse list by exactly those synapses |
| NeuralNet.NeuralNetwork.ConnectLayer | Assets/_Scripts/NeuralNetwork.cs:96-103 | every source gets one new synapse per target, in target order, which is also the target's incoming synapse at the source's position; the synapses are appended to the network's list in (source, target) order with consecutive ids |
| NeuralNet.NeuralNetwork.ConnectSource | Assets/_Scripts/NeuralNetwork.cs:97-102 | connecting source j extends the partial wiring by one source and the synapse list by its outgoing list |
| NeuralNet.NeuralNetwork.ConnectNeuron | Assets/_Scripts/NeuralNetwork.cs:97-102 | the source gets one fresh synapse per target, in order, each appended to its target's incoming list and to the network's list with the next id |
| NeuralNet.NeuralNetwork.AddSynapse | Assets/_Scripts/NeuralNetwork.cs:98-101 | one fresh synapse with the next id and its drawn weight is appended to the network's list, the source's outgoing list and the target's incoming list |
| NeuralNet.NeuralNetwork.ConstructedFeedsForward | Assets/_Scripts/NeuralNetwork.cs:172-196 | a new network can run the forward pass on any input no longer than its first layer |
| NeuralNet.NeuralNetwork.FeedForward | Assets/_Scripts/NeuralNetwork.cs:172-196 | the output is `Forward` of the network's current neurons, sizes and biases; no layer or neuron changes |
| NeuralNet.NeuralNetwork.Train | Assets/_Scripts/NeuralNetwork.cs:164-170 | after epochs rounds of forward pass and training step, the biases, neuron lists and synapse weights are as before, and the output is the forward pass of the network as it was |
| NeuralNet.NeuralNetwork.Backpropagate | Assets/_Scripts/NeuralNetwork.cs:198-234 | the training step leaves the biases, the neuron lists and every synapse weight as they were |
| NeuralNet.NeuralNetwork.AddConnection | Assets/_Scripts/NeuralNetwork.cs:324-331 | the drawn neuron gets exactly one new outgoing synapse (id 0, to the drawn target of the next layer, with the drawn weight); requires the drawn indices to be in range |
| NeuralNet.NeuralNetwork.ChangeConnectionWeight | Assets/_Scripts/NeuralNetwork.cs:333-339 | the drawn synapse's weight grows by the drawn change, which is in [-0.5, 0.5] |
| NeuralNet.NeuralNetwork.DisableConnection | Assets/_Scripts/NeuralNetwork.cs:341-347 | the drawn synapse's weight becomes 0 |
| NeuralNet.NeuralNetwork.EvolveToAddNeuron | Assets/_Scripts/NeuralNetwork.cs:349-360 | layer li gets exactly one new neuron at its end, with the drawn index, the network's kind, no outgoing synapse and one fresh incoming synapse per neuron of layer li - 1 in order with the drawn weights |
| NeuralNet.NeuralNetwork.ChangeActivationFunction | Assets/_Scripts/NeuralNetwork.cs:362-368 | the drawn neuron's kind becomes the kind with the drawn underlying value |
| NeuralNet.NeuralNetwork.ConstructedIsPruned | Assets/_Scripts/NeuralNetwork.cs:370-389 | on a new network whose layers, except maybe the last, are non-empty, the pruning filter removes nothing |
| NeuralNet.NeuralNetwork.RemoveDisconnectedElements | Assets/_Scripts/NeuralNetwork.cs:370-389 | the new neuron lists are `Prune` of the old ones |
| NeuralNet.NeuralNetwork.MutationDefinedOnNew | Assets/_Scripts/NeuralNetwork.cs:324-368 | on a new network, draws in range for its configured sizes are in range for every mutation operator |
| NeuralNet.NeuralNetwork.ApplyMutation | Assets/_Scripts/NeuralNetwork.cs:301-322 | the operator numbered 0 to 5 takes effect as its method states (`Mutated`); any other number changes no neuron list |
| NeuralNet.NeuralNetwork.Mutate | Assets/_Scripts/NeuralNetwork.cs:294-299 | with a draw below the rate, the drawn operator 0..5 takes effect; otherwise no layer, neuron or synapse changes |
| NeuralNet.NeuralNetwork.MutationMark | Assets/_Scripts/NeuralNetwork.cs:294-389 | Mutate on a network as its constructor left it: with a draw below the rate, the network bears the mark of the drawn operator 0..5 (`BearsMutation`: one added synapse with the drawn weight after the constructed ones, the drawn synapse with its drawn weight plus the change or with weight 0, one added neuron wired from the layer before, the drawn kind, lists the filter keeps); otherwise it is exactly as constructed (`MutatedFromNew`) |
| NeuralNet.NeuralNetwork.Crossover | Assets/_Scripts/NeuralNetwork.cs:267-292 | a new network with fresh layers, neurons and synapses; as many layers as this one, layer i of this network's count and settings at even i and the other's at odd i; this network's hyperparameters; built as the constructor builds it |
| NeuralNet.NeuralNetwork.AddLayer | Assets/_Scripts/NeuralNetwork.cs:391-393 | the layer is appended; no matrix, neuron or synapse is added for it |
| ForwardPass.Forward | Assets/_Scripts/NeuralNetwork.cs:172-196 | with at least one step, the output has the last layer's configured size; with none, it is the input itself |
| ForwardPass.ForwardValues | Assets/_Scripts/NeuralNetwork.cs:172-196 | the loop's result is `Forward` of the neurons' snapshot |
| ForwardPass.LayerValues | Assets/_Scripts/NeuralNetwork.cs:176-190 | one step's outputs are, in order, the activation of bias plus weighted sum for every neuron of the next layer (`LayerOutput`) |
| ForwardPass.WeightedInput | Assets/_Scripts/NeuralNetwork.cs:180-186 | the inner loop computes `WeightedSum`: over the current values in order, the neuron's own activation of its value times the weight of its synapse to the target |
| Training.ComputeDeltas | Assets/_Scripts/NeuralNetwork.cs:198-221 | one delta row per layer of the configured size, every entry 0 |
| Training.ApplyDeltas | Assets/_Scripts/NeuralNetwork.cs:223-233 | with zero deltas, every synapse weight and every bias is as it was |
| Training.ApplyLayerDeltas | Assets/_Scripts/NeuralNetwork.cs:225-232 | the update for one layer leaves its weights and its bias vector as they were |
| Training.TrainingStep | Assets/_Scripts/NeuralNetwork.cs:198-234 | the whole training step leaves the biases, the synapse weights and the neurons' snapshot as they were |
| Training.TrainEpochs | Assets/_Scripts/NeuralNetwork.cs:164-170 | after any number of epochs the snapshot and the biases are unchanged and the output is the forward pass of the lists as they were |
| Pruning.Connected | Assets/_Scripts/NeuralNetwork.cs:374-385 | the filtered list is no longer than the layer |
| Pruning.Prune | Assets/_Scripts/NeuralNetwork.cs:370-389 | the filter keeps the number of lists and leaves list 0 as it is |
| Pruning.PruneAt | Assets/_Scripts/NeuralNetwork.cs:371-388 | filtered list i is the connected neurons of list i against filtered list i - 1 |
| Pruning.ConnectedMembers | Assets/_Scripts/NeuralNetwork.cs:374-385 | a neuron survives the filter if and only if it is in the layer and has an incoming synapse from a neuron of the previous layer |
| Pruning.ConnectedSubsequence | Assets/_Scripts/NeuralNetwork.cs:374-385 | the survivors keep their order in the layer |
| Pruning.ConnectedIdempotent | Assets/_Scripts/NeuralNetwork.cs:374-385 | filtering a filtered layer again changes nothing |
| Pruning.PruneIdempotent | Assets/_Scripts/NeuralNetwork.cs:370-389 | the mutation's filter is idempotent |
| Pruning.ConnectedAll | Assets/_Scripts/NeuralNetwork.cs:374-385 | a layer whose every neuron has an input from the previous one passes whole |
| Pruning.PruneConnected | Assets/_Scripts/NeuralNetwork.cs:370-389 | lists fully connected to their successors, all non-empty but the last, pass the filter unchanged |
| Pruning.ConnectedNeurons | Assets/_Scripts/NeuralNetwork.cs:372-385 | the loop with its early exit computes `Connected` |
| Genome.DNA.constructor | Assets/_Scripts/DNA.cs:1-8 | the genome holds the network, fitness 0 and not elite |
| Genome.DNA.Crossover | Assets/_Scripts/DNA.cs:10-14 | a new genome, fitness 0 and not elite, for a new network that `Inherits` this and the partner's layers and this network's hyperparameters; neither parent changes |
| Genome.DNA.Mutate | Assets/_Scripts/DNA.cs:16-18 | the held network mutates as `NeuralNetwork.Mutate` states, and no incoming synapse list changes; without a mutation the synapse list is kept too; fitness and flag are kept |
| Population.SortByFitness | Assets/_Scripts/PopulationManager.cs:148 | every population has a descending permutation of itself, so the sort always has a result |
| Population.Insert | Assets/_Scripts/PopulationManager.cs:148 | inserting a genome into a descending list before the first genome it is at least as fit as keeps the list descending |
| Population.SortedFirstIsFittest | Assets/_Scripts/PopulationManager.cs:147-151 | the first genome of a sort is in the population and no genome of the population is fitter |
| Population.EliteAreFittest | Assets/_Scripts/PopulationManager.cs:157-159 | every genome outside the ten first of the sort is at most as fit as each of those ten |
| Population.CrossParents | Assets/_Scripts/PopulationManager.cs:166-169 | a new genome, fitness 0 and not elite, around a new network that inherits the drawn parents' layers and the first parent's hyperparameters (`ChildOf`) and is as its constructor built it, with the drawn mutation defined on it |
| Population.BreedOne | Assets/_Scripts/PopulationManager.cs:166-170 | a new genome that is a crossover child of the two drawn parents (`ChildOf`) and whose network then bears the mark of the drawn mutation when the rate draw is below the mutation rate, and is otherwise exactly as its constructor built it (`BredFrom`) |
| Population.MutateChild | Assets/_Scripts/PopulationManager.cs:170 | mutating a new crossover child with the drawn values leaves its network `MutatedFromNew` the drawn operator; fitness and elite flag are kept |
| Population.Breed | Assets/_Scripts/PopulationManager.cs:165-172 | count distinct new genomes (none for count < 1); offspring i is crossed from the parents drawn in round i and mutated with the draws of round i (`EachBredFrom`) |
| Population.BreedNext | Assets/_Scripts/PopulationManager.cs:166-171 | one round of the loop: a new genome, not among the offspring so far, bred and mutated with the draws of its round; the offspring bred before keep their marks |
| Population.EachBredFromAt | Assets/_Scripts/PopulationManager.cs:165-172 | what the loop establishes, read genome by genome: offspring k is `BredFrom` the population with the draws of round k |
| Population.EachBredFromOf | Assets/_Scripts/PopulationManager.cs:165-172 | the converse of `EachBredFromAt`: offspring each `BredFrom` the population with the draws of their round are `EachBredFrom` it |
| Population.InitialLayers | Assets/_Scripts/PopulationManager.cs:97-100 | two new distinct layers, of the input and output sizes, with the configured settings |
| Population.NewNetwork | Assets/_Scripts/PopulationManager.cs:97-111 | a new network with layer sizes [input, output], the configured settings and the fixed training settings 0.01, 0.01, 100, 0.1, built as the constructor builds it |
| Population.NewGenome | Assets/_Scripts/PopulationManager.cs:97-113 | a new genome (fitness 0, not elite) for such a network |
| Population.PopulationManager.constructor | Assets/_Scripts/PopulationManager.cs:43-49 | settings stored; no genomes and no cars; generation 0 and best fitness 0; no best genome |
| Population.PopulationManager.SpawnCar | Assets/_Scripts/PopulationManager.cs:119-127 | the genome is appended to the population and one car driving it to the cars |
| Population.PopulationManager.SpawnInitialPopulation | Assets/_Scripts/PopulationManager.cs:95-117 | populationSize new genomes (none below 1) are appended, each fresh with an initial network, and one car per new genome in order; the earlier genomes are kept and every car drives a genome of the population |
| Population.PopulationManager.SpawnNewGenome | Assets/_Scripts/PopulationManager.cs:97-115 | one round of the loop: a new initial genome, appended with its car |
| Population.PopulationManager.EvaluatePopulation | Assets/_Scripts/PopulationManager.cs:147-154 | the population becomes its sort; the best genome is its first, taken from the old population, and no genome is fitter than the best fitness |
| Population.PopulationManager.DestroyCars | Assets/_Scripts/PopulationManager.cs:194-201 | no car is left |
| Population.PopulationManager.GenerateCars | Assets/_Scripts/PopulationManager.cs:203-209 | one car per genome, in order, is appended; the population ends as two copies of itself |
| Population.PopulationManager.NextGeneration | Assets/_Scripts/PopulationManager.cs:157-173 | the ten first genomes of the sort, then max(0, populationSize - 10) new genomes, offspring i crossed from parents drawn over the whole sort and mutated with the draws of round i (`EachBredFrom`) |
| Population.PopulationManager.ResetScene | Assets/_Scripts/PopulationManager.cs:178-185 | the cars are exactly one per genome of the old list, and the list is doubled |
| Population.PopulationManager.CreateNewGeneration | Assets/_Scripts/PopulationManager.cs:156-176 | for n = 10 + max(0, populationSize - 10): the list is 2n long and is two copies of the new generation; the elite prefix is the sort's ten first; genomes 10..n-1 are fresh offspring, each crossed from parents drawn over the sort and mutated with the draws of its round (`EachBredFrom`); there is one car per genome of the generation |
| Population.PopulationManager.InstallGeneration | Assets/_Scripts/PopulationManager.cs:173-175 | the population becomes the new generation and the scene reset doubles it, with one car per genome of the generation; the offspring keep their breeding marks across the reset |
| Population.PopulationManager.CountGeneration | Assets/_Scripts/PopulationManager.cs:142 | the generation counter grows by one, and the offspring keep their breeding marks |
| Population.PopulationManager.EvolveStep | Assets/_Scripts/PopulationManager.cs:137-145 | one round of evolution: the best genome of the evaluation is recorded (no genome of the population was fitter), the new generation is as CreateNewGeneration states, its offspring crossed from the sort and mutated with their rounds' draws, and the counter is incremented |
| GeneticAlgorithm.GeneticAlgorithmManager.constructor | Assets/_Scripts/GeneticAlgorithmManager.cs:4-7 | no population manager, no history, index 0 |
| GeneticAlgorithm.GeneticAlgorithmManager.Start | Assets/_Scripts/GeneticAlgorithmManager.cs:9-12 | the population manager found is stored and the history is an empty list; the index is kept |
| GeneticAlgorithm.GeneticAlgorithmManager.SaveBestGenes | Assets/_Scripts/GeneticAlgorithmManager.cs:14-17 | the genome is appended to the history and the index incremented, so the index never falls behind the history's length |

## Left out

- `TrainGPU` (`NeuralNetwork.cs:107-152`) runs a compute shader on the GPU, which is outside the model. Only the `FlattenWeights` it uploads is modelled. The compute buffers and the replacement of NaN and infinite inputs by 0 are not modelled.
- The value semantics of single-precision floats are not modelled. The activation formulas (sigmoid, ReLU, tanh in `Neuron.Activate` and `NeuralNetwork.Activate`) are the parameter `act`, because they need the exponential.
- JSON serialization is not modelled (`ToJson`, `FromJson`, the serializer classes, `DNA.FromJson`, the predefined DNA string), nor is writing the best genome to a file in `OnApplicationQuit`.
- The Unity scene is reduced:
  - Targets are not modelled: `GenerateTargets`, `DestroyTargets`, `GetTargetPositions` and `OnDrawGizmos` have no effect on the genetic algorithm.
  - Game objects, `Instantiate` and `Destroy` are not modelled. A car is the genome it drives, and the car controller's shader and manager references are not modelled.
  - Text fields, `Update`, `UpdateGenerationText`, the time scale, `BrainDrawer` and `Debug.Log` are not modelled.
- Coroutine timing is not modelled. The endless `EvolvePopulation` loop is one round, `EvolveStep`, and the caller repeats it. The constant `isFinished` is always false and is not modelled.
- `GetComponent<PopulationManager>()` is the parameter of `Start`.
- `Random.Range` is not modelled as a stream: every draw is a parameter, and the fitness values come from the simulation, which is not part of this model.
- Some source errors become preconditions, because the source throws an exception there:
  - fewer than ten genomes at a generation;
  - an empty population at evaluation;
  - an out-of-range mutation or parent index;
  - saving to a history that `Start` has not created;
  - a network crossover whose second parent has, at an odd layer position, a neuron at an odd position that the first parent's layer lacks (`LayersCrossable`, required by `BreedDrawn` in `Breed`, `NextGeneration`, `CreateNewGeneration` and `EvolveStep`). A normal run reaches this case. Every initial network has two layers, so `EvolveToAddNeuron` always grows the output layer (`NeuralNetwork.cs:350`), for example from 3 to 4 neurons. Once such an offspring is drawn as second parent against an ungrown first parent, `NeuralNetwork.cs:275` crosses its output layer with the first parent's. That reads the first parent's neuron 3 (`NeuralNetworkUtil.cs:88`), and the source throws there, which ends the evolution coroutine. `NeuralNet.GrownLayerNotCrossable` states that such a pair is outside `LayersCrossable`, so that generation is outside the contracts of the genetic-algorithm loop.
- Population.PopulationManager.SpawnInitialPopulation: states the layer sizes and settings of each new genome's network, not its drawn weights and synapses, which `Population.NewGenome` states. Carrying the constructor's full graph through the loop was too costly to verify.
- NeuralNet.NeuralNetwork.Train: states that the biases, the neuron lists and every synapse weight end as they were. It does not state equality of the whole forward-pass snapshot across the write to `biases`, which was too costly to verify in the class. `Training.TrainEpochs` states the snapshot's equality for the loop it delegates to.
- NeuralNet.NeuralNetwork.Backpropagate: states the same as `Train`, for the same reason.
- NeuralNet.NeuralNetwork.ApplyMutation: states each operator's effect on the objects it targets. Within the fields its `modifies` clause names, it does not state that the other weights, kinds and synapse lists stay as they were. Stating the frame of every operator over the whole network was too costly to verify.
- NeuralNet.NeuralNetwork.Mutate: weaker in the same way as `ApplyMutation`, for the same reason of verification cost.
- Genome.DNA.Mutate: weaker in the same way as `ApplyMutation`, for the same reason of verification cost.
- `Backpropagate`'s unused `input` argument is dropped.
- Negative neuron counts are not modelled, because counts are `nat`. In the source, `NeuralLayer` stores a negative count (`NeuralNetworkUtil.cs:77-83`). The constructor's neuron and synapse loops then run zero times for that layer. `InitializeWeightsAndBiases` throws only in two cases: a layer after the first has a negative count (`new float[currentLayerSize][]`, `NeuralNetwork.cs:59`), or the previous layer's count is negative while the current one is positive (`NeuralNetwork.cs:61`).
