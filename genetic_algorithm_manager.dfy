/**
 * The history keeper: the population manager found beside it, the list of
 * best genomes saved so far and a generation index counting the saves.
 */
module GeneticAlgorithm {
  import opened Genome
  import opened Population

  class GeneticAlgorithmManager {
    var populationManager: Option<PopulationManager>
    /** None until Start creates the list. */
    var bestGenesHistory: Option<seq<DNA>>
    var currentGenerationIndex: int

    /**
     * The generation index is never negative and has counted at least every
     * genome the history holds: saves before the latest Start are counted
     * but no longer listed.
     */
    predicate IndexCountsHistory()
      reads this`bestGenesHistory, this`currentGenerationIndex
    {
      && currentGenerationIndex >= 0
      && (bestGenesHistory.Some? ==> |bestGenesHistory.value| <= currentGenerationIndex)
    }

    /** A manager with no population manager, no history and index 0. */
    constructor ()
      ensures populationManager == None && bestGenesHistory == None && currentGenerationIndex == 0
      ensures IndexCountsHistory()
    {
      populationManager := None;
      bestGenesHistory := None;
      currentGenerationIndex := 0;
    }

    /**
     * Takes the population manager found on the same object (None when
     * there is none) and starts an empty history; the index is kept.
     */
    method Start(component: Option<PopulationManager>)
      requires IndexCountsHistory()
      modifies this`populationManager, this`bestGenesHistory
      ensures populationManager == component && bestGenesHistory == Some([])
      ensures currentGenerationIndex == old(currentGenerationIndex)
      ensures IndexCountsHistory()
    {
      populationManager := component;
      bestGenesHistory := Some([]);
    }

    /**
     * Appends `bestGenes` to the history and counts it; the history must
     * have been started.
     */
    method SaveBestGenes(bestGenes: DNA)
      requires bestGenesHistory.Some? && IndexCountsHistory()
      modifies this`bestGenesHistory, this`currentGenerationIndex
      ensures bestGenesHistory == Some(old(bestGenesHistory.value) + [bestGenes])
      ensures currentGenerationIndex == old(currentGenerationIndex) + 1
      ensures currentGenerationIndex - |bestGenesHistory.value| == old(currentGenerationIndex - |bestGenesHistory.value|)
      ensures IndexCountsHistory()
    {
      bestGenesHistory := Some(bestGenesHistory.value + [bestGenes]);
      currentGenerationIndex := currentGenerationIndex + 1;
    }
  }
}
