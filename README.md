# Search and learning programs, modelled in Dafny

This is a model of four small C++ programs from a course on search and
machine learning. Each module proves properties of one program.

- `RouteSearch` is the campus-tour program. It builds a random closed tour
  that starts and ends at the first campus and computes its length from a
  distance matrix. It has an adjacent-swap local search, a random-swap
  perturbation, an iterated local search and a simulated-annealing loop.
  The last two record the best length seen after every iteration.
- `Knapsack` is the 0/1 knapsack genetic algorithm. A chromosome is a
  bit-vector. Its fitness is the packed value when the weight is within the
  capacity, and 0 otherwise.
  - Parents are chosen by four-sample selection.
  - Crossover is one-point. It recombines when a draw mod 100 is at most
    85, which holds for 86 of the 100 residues. Otherwise the parents pass
    through unchanged.
  - Mutation flips one gene. It happens when a draw mod 100 is below 60.
  - The generational loop keeps the best chromosome seen so far.
- `GeneticProgramming` covers the expression trees of the symbolic
  regression program.
  - Trees are full and random, with digit leaves and the operators `+-*/`.
  - Evaluation uses protected division (`x / 0` is 1).
  - Fitness is the mean squared error.
  - Also modelled: tournament selection, deep copy, structural crossover,
    depth-bounded mutation, the generational loop and the rounded accuracy.
- `NeuralNet` is the 8-8-1 feed-forward network, modelled as a class over
  a sequence of layers. It covers:
  - the constructor's draw order and shape;
  - forward propagation and its 0.5 threshold;
  - `predict`;
  - the buffered write order of back propagation;
  - the training loop's stopping rule;
  - the confusion-matrix counters of `calculateMetrics`.
- `Tokenizer` is the `split` function that both Assignment 3 programs use to
  read CSV lines.
- `Draws` holds the model of `rand()`. An operation that calls `rand()`
  receives the whole sequence of values (`Stream`) and the position of its
  first call. Every such method also returns the position after its last
  call; only the network's constructor does not. So every contract can say which draw decided
  what. The tour shuffle of `generateRandomRoute` uses `std::shuffle` rather
  than `rand()`. It gets a separate stream of its own.
- `Doubles` holds `Mean`, a double that is either NaN or a finite number,
  and the `<` of doubles on it. A comparison with NaN is false. It is used
  wherever the program divides by a count that can be zero.

State that the C++ code updates in place becomes a Dafny class:
- the knapsack program's global population and its summed fitness;
- the network's layers.

Most methods of these classes state their new state as a function of the
old one. The knapsack generation methods state it through three pieces. The
function `NewPopulation` gives the children that are bred. `ReplaceMember`
gives the replacement step. The predicate `Recorded` relates the best
chromosome to every population rated so far. These populations are returned
as ghost outputs (`rated`, `history`). The rest of the model is values and
functions.

## Model

| member | source | states |
|---|---|---|
| `RouteSearch.Swap` | Assignment1/main.cpp:74 | exchanges the two positions, leaves every other position alone and keeps the multiset of visits |
| `RouteSearch.InteriorSwapKeepsTour` | Assignment1/main.cpp:71-74 | swapping two interior positions keeps the length, the first and last visit and the multiset of visits |
| `RouteSearch.SameTourKeepsTour` | Assignment1/main.cpp:46-52 | any route that keeps those three things of a closed tour is again a closed tour of the same campuses |
| `RouteSearch.TourOnMap` | Assignment1/main.cpp:46-52 | a tour of campuses that are all on the matrix only visits campuses on the matrix |
| `RouteSearch.PathLengthAtLeast` | Assignment1/main.cpp:55-63 | a route's length is at least its number of legs times the smallest matrix entry, which bounds every improvement sequence |
| `RouteSearch.PathLengthNonNegative` | Assignment1/main.cpp:55-63 | with non-negative distances every route length is non-negative |
| `RouteSearch.GenerateRandomRoute` | Assignment1/main.cpp:46-52 | the result is a closed tour: one visit per campus, starting with the first campus and followed by a return to it; the last campus keeps its place |
| `RouteSearch.CalculateRouteDistance` | Assignment1/main.cpp:55-63 | the result is the sum of the matrix entries between consecutive visits |
| `RouteSearch.LocalSearch` | Assignment1/main.cpp:65-83 | terminates with a route of the same tour that is no longer than the start; if it is not strictly shorter, it is the start itself; no adjacent interior swap shortens it |
| `RouteSearch.SwapPass` | Assignment1/main.cpp:71-80 | one pass reports an improvement exactly when the route got strictly shorter; a pass without one leaves the route unchanged and locally optimal |
| `RouteSearch.Perturbation` | Assignment1/main.cpp:86-90 | swaps the two interior positions given by two consecutive draws, keeps the tour, and uses two draws |
| `RouteSearch.KeepBest` | Assignment1/main.cpp:127-131 | the candidate replaces the best route exactly when it is strictly shorter; the recorded length is that of the route kept and never exceeds the old best |
| `RouteSearch.IteratedLocalSearch` | Assignment1/main.cpp:119-136 | one recorded length per iteration; the record never increases, never exceeds the start's length and ends with the length of the returned route; the returned route is the same tour, no longer than the start, and locally optimal once an iteration ran |
| `RouteSearch.AnnealingStep` | Assignment1/main.cpp:101-112 | the neighbour swaps the two drawn positions; it is taken when strictly shorter (two draws), otherwise exactly when the acceptance test on the third draw says so; the best changes only to a strictly shorter route; the recorded length is at most both the old best's and the moved route's length |
| `RouteSearch.SimulatedAnnealing` | Assignment1/main.cpp:93-116 | one recorded length per iteration; the record never increases and ends with the returned route's length; the returned route is a closed tour of the campuses |
| `GeneticProgramming.FullHasHeight` | Assignment3/GP.cpp:24-32 | a tree with every leaf at depth d has height d |
| `GeneticProgramming.FullHasSize` | Assignment3/GP.cpp:24-32 | a tree with every leaf at depth d has 2^(d+1) - 1 nodes |
| `GeneticProgramming.SameShapeSameHeight` | Assignment3/GP.cpp:99-109 | trees of the same shape have the same height, so mutation never changes height |
| `GeneticProgramming.GenerateRandomTree` | Assignment3/GP.cpp:24-32 | the tree is full at the requested depth, with operators from `+-*/` and digit leaves, and one draw is used per node |
| `GeneticProgramming.InitializePopulation` | Assignment3/GP.cpp:33-39 | the requested number of trees, each full and well formed at the maximum depth; exactly `2^(maxDepth+1) - 1` draws per tree |
| `GeneticProgramming.EvaluateIgnoresInputs` | Assignment3/GP.cpp:40-53 | the value of a tree is the same for every input row (terminals are constants and the row is never read) |
| `GeneticProgramming.Evaluate` | Assignment3/GP.cpp:40-53 | a terminal's value is its constant; a function node with an operator outside `+-*/` gives 0 |
| `GeneticProgramming.ProtectedDivision` | Assignment3/GP.cpp:50 | a division node gives 1 when its right child is 0, and otherwise a quotient that times the right child's value gives back the left child's |
| `GeneticProgramming.RowError` | Assignment3/GP.cpp:57-58 | one row's squared error is never negative and is zero when the tree reproduces that row's output |
| `GeneticProgramming.SquaredError` | Assignment3/GP.cpp:55-59 | the summed squared error over the first rows is never negative |
| `GeneticProgramming.TotalError` | Assignment3/GP.cpp:55-59 | the accumulation loop computes the summed squared error over all rows |
| `GeneticProgramming.ExactFitHasNoError` | Assignment3/GP.cpp:54-61 | a tree that reproduces every output has zero error |
| `GeneticProgramming.Fitness` | Assignment3/GP.cpp:54-61 | NaN exactly when there are no rows; otherwise the mean of the squared errors over the rows, never negative, and zero for an exact fit |
| `GeneticProgramming.TournamentWinner` | Assignment3/GP.cpp:65-73 | the position where a running minimum with the `<` of doubles settles: no later value is smaller; a NaN in first place is never replaced and a NaN later never wins; with no NaN it is the first position holding the smallest value |
| `GeneticProgramming.TournamentSelection` | Assignment3/GP.cpp:62-75 | uses five draws; the winner is a population member, namely the one drawn in the round given by `TournamentWinner` on `fitnesses[0..4]` |
| `GeneticProgramming.DeepCopy` | Assignment3/GP.cpp:76-84 | the copy of a pointer is structurally equal to it; null stays null |
| `GeneticProgramming.CopyTree` | Assignment3/GP.cpp:80-83 | the copy of a node is structurally equal to it |
| `GeneticProgramming.Crossover` | Assignment3/GP.cpp:86-97 | the child is no taller than parent1 and is well formed when both parents are; on an even first coin it is parent1; on an odd one, when both parents are function nodes, it has parent2's operator; at least one and at most `Size(parent1)` draws |
| `GeneticProgramming.Mutate` | Assignment3/GP.cpp:99-109 | the mutated tree has the same shape; reached terminals become digits, function nodes above the depth keep or get an operator of the alphabet, everything below the depth stays unchanged; well-formedness is kept; at most two draws per node |
| `GeneticProgramming.Evolve` | Assignment3/GP.cpp:111-134 | the population keeps its size, stays well formed and never grows taller than the tallest starting tree |
| `GeneticProgramming.Round` | Assignment3/GP.cpp:196 | an integer within 1/2 of x; when x lies halfway between two integers, the one farther from zero |
| `GeneticProgramming.Correct` | Assignment3/GP.cpp:193-199 | the count of correctly rounded predictions never exceeds the number of rows |
| `GeneticProgramming.AllCorrect` | Assignment3/GP.cpp:193-199 | the count is full exactly when every rounded prediction equals the expected output |
| `GeneticProgramming.Percentage` | Assignment3/GP.cpp:200 | a count of n as a percentage lies in [0, 100] and is 100 exactly for a full count |
| `GeneticProgramming.CalculateAccuracy` | Assignment3/GP.cpp:191-201 | NaN exactly when there are no test rows; otherwise the percentage of correctly rounded predictions, in [0, 100], and 100 exactly when every row is predicted correctly |
| `Knapsack.Flip` | Assignment2/main.cpp:126 | inverts exactly the gene at the point |
| `Knapsack.FlipTwice` | Assignment2/main.cpp:123-128 | mutating the same gene twice restores the chromosome |
| `Knapsack.FlipTotals` | Assignment2/main.cpp:123-128 | a flip adds or removes exactly that item's weight and value |
| `Knapsack.NothingPacked` | Assignment2/main.cpp:212-220 | the all-false chromosome weighs nothing and is worth nothing |
| `Knapsack.FitnessNonNegative` | Assignment2/main.cpp:26-43 | with non-negative item values, fitness is never negative |
| `Knapsack.Splice` | Assignment2/main.cpp:109-118 | the child takes the first parent's genes before the point and the second's from it on |
| `Knapsack.SpliceKeepsGenePairs` | Assignment2/main.cpp:109-118 | at every position the two children hold the same pair of genes as the two parents |
| `Knapsack.SumFitnessAppend` | Assignment2/main.cpp:44-51 | the summed fitness of two populations together is the sum of their sums |
| `Knapsack.FittestIndex` | Assignment2/main.cpp:129-140 | the first position among the first `count` whose fitness no member there exceeds; every earlier member is strictly less fit |
| `Knapsack.Fittest` | Assignment2/main.cpp:129-140 | a member of the population that no member is fitter than |
| `Knapsack.NoGenes` | Assignment2/main.cpp:212-216 | n genes, none selected |
| `Knapsack.ReplaceMember` | Assignment2/main.cpp:217-220 | erasing the member at the index and appending `c` keeps the size, puts `c` last, keeps the members before the index and shifts those after it down by one |
| `Knapsack.SampleWinner` | Assignment2/main.cpp:74-91 | the winning round lies among the `count` rounds |
| `Knapsack.SampleWinnerIsFirstFittest` | Assignment2/main.cpp:82-89 | no round draws a member fitter than the winning round's, and every earlier round draws a strictly less fit one |
| `Knapsack.Parent` | Assignment2/main.cpp:74-91 | the selected parent is a population member |
| `Knapsack.ParentWinsSample` | Assignment2/main.cpp:74-91 | the selected parent is the first of the four drawn members with the highest fitness among them |
| `Knapsack.Recombination` | Assignment2/main.cpp:103-121 | one draw and the parents unchanged exactly when the draw mod 100 exceeds 85; otherwise two draws, and the children are the two splices at the second draw mod the number of items, each rated |
| `Knapsack.RecombinationKeepsGenePairs` | Assignment2/main.cpp:103-121 | at every position the children hold the parents' pair of genes |
| `Knapsack.CrossoverOf` | Assignment2/main.cpp:98-122 | two parent selections of four draws each, then recombination: nine or ten draws, children of one gene per item |
| `Knapsack.MutationOf` | Assignment2/main.cpp:196-203 | two draws exactly when the first mod 100 is below 60, and then the child is re-rated; otherwise one draw and the child unchanged |
| `Knapsack.MutationFlipsOneGene` | Assignment2/main.cpp:123-128 | a mutated child differs from the child by the flip of one gene |
| `Knapsack.Children` | Assignment2/main.cpp:193-203 | crossover, then the mutation step on each child: between 11 and 14 draws, children of one gene per item |
| `Knapsack.NewPopulation` | Assignment2/main.cpp:190-206 | `pairs` pairs of children of one gene per item, each pair bred where the previous one left off; between 11 and 14 draws per pair |
| `Knapsack.NewPopulationStep` | Assignment2/main.cpp:191-206 | one more pair of children extends the bred population by that pair |
| `Knapsack.RecordStep` | Assignment2/main.cpp:209-225 | keeping the fitter of the best so far and the new population's fittest member keeps the best a member of some population and at least as fit as every member of every population |
| `Knapsack.HistoryPrefixes` | Assignment2/main.cpp:188-227 | a record taken after an earlier generation stays valid when another population is added |
| `Knapsack.RecordStarts` | Assignment2/main.cpp:185-186 | the first population and its fittest member start the record |
| `Knapsack.TraceStep` | Assignment2/main.cpp:207-226 | one generation that keeps the fitter of the best so far and the new fittest member extends the record by one entry: the trace stays non-decreasing and each entry is the highest fitness of the populations rated up to its generation |
| `Knapsack.GeneticAlgorithm.constructor` | Assignment2/main.cpp:175-183 | the state after reading the instance: the items, their number, the capacity, no population |
| `Knapsack.GeneticAlgorithm.SetFitness` | Assignment2/main.cpp:26-43 | the genes are kept; the fitness is the packed value when the weight is within the capacity (equality included), and 0 when it exceeds it |
| `Knapsack.GeneticAlgorithm.SetPopulationFitness` | Assignment2/main.cpp:44-51 | the population fitness becomes the sum of the members' fitnesses |
| `Knapsack.GeneticAlgorithm.GeneratePopulation` | Assignment2/main.cpp:52-73 | the requested number of rated chromosomes of one gene per item; gene j of chromosome i is set exactly when its draw is even; one draw per gene |
| `Knapsack.GeneticAlgorithm.RandomGenes` | Assignment2/main.cpp:58-68 | n genes, each set exactly when its draw is even; n draws |
| `Knapsack.GeneticAlgorithm.GetParent` | Assignment2/main.cpp:74-91 | uses four draws; returns `Parent`, the first of the four drawn members with the highest fitness among them |
| `Knapsack.GeneticAlgorithm.SelectChromosomes` | Assignment2/main.cpp:92-97 | two such selections on consecutive draws |
| `Knapsack.GeneticAlgorithm.Recombine` | Assignment2/main.cpp:103-121 | computes `Recombination`: a draw mod 100 above 85 returns the parents unchanged; otherwise the children are the two one-point splices at the drawn point, freshly rated |
| `Knapsack.GeneticAlgorithm.SpliceGenes` | Assignment2/main.cpp:109-118 | the two copy loops build the two splices |
| `Knapsack.GeneticAlgorithm.Crossover` | Assignment2/main.cpp:98-122 | computes `CrossoverOf`; the children come from two selected parents and keep, position by position, those parents' gene pairs |
| `Knapsack.GeneticAlgorithm.Mutate` | Assignment2/main.cpp:123-128 | inverts the gene at the drawn point and re-rates the chromosome |
| `Knapsack.GeneticAlgorithm.MaybeMutate` | Assignment2/main.cpp:196-203 | computes `MutationOf`: `mutate` on the next draw when the draw mod 100 is below 60, the child unchanged otherwise |
| `Knapsack.GeneticAlgorithm.GetBestChromosome` | Assignment2/main.cpp:129-140 | `Fittest`: the first member of highest fitness |
| `Knapsack.GeneticAlgorithm.Offspring` | Assignment2/main.cpp:193-203 | computes `Children`: a crossover, then the mutation step on each child in turn |
| `Knapsack.GeneticAlgorithm.Breed` | Assignment2/main.cpp:190-206 | the 50 pairs of children are `NewPopulation` of the current population |
| `Knapsack.GeneticAlgorithm.Adopt` | Assignment2/main.cpp:207-225 | the children become the population and its summed fitness is taken; when their best fitness is 0, the member at the next draw mod the size is replaced as `ReplaceMember` says by an all-false chromosome; the best so far is replaced exactly when the children's fittest member is strictly fitter |
| `Knapsack.GeneticAlgorithm.Generation` | Assignment2/main.cpp:190-225 | the rated population is `NewPopulation` of the old one, with 100 members; the new population and draw position follow from it as in `Adopt`; the summed fitness is that of the rated population; the best is its fittest member when strictly fitter than the best so far, and the best so far otherwise |
| `Knapsack.GeneticAlgorithm.Run` | Assignment2/main.cpp:178-227 | for any instance, also one with no items, `5 * numItems` generations; the first population is generated from the first draws; the best is at least as fit as every member of it; the trace satisfies `Recorded`: non-decreasing, each entry the highest fitness of the populations rated up to its generation, ending with the returned best, which is a member of one of them |
| `NeuralNet.UnitNonZero` | Assignment3/NN.cpp:62-66 | no draw makes `2.0 * rand() / RAND_MAX - 1` zero, so the redraw loops never run |
| `NeuralNet.UnitInRange` | Assignment3/NN.cpp:54 | every initial parameter lies in [-1, 1] |
| `NeuralNet.Step` | Assignment3/NN.cpp:93-109 | a layer's turn keeps its neurons' weights and biases |
| `NeuralNet.ForwardUpTo` | Assignment3/NN.cpp:90-110 | forward propagation keeps every weight and bias and the shape |
| `NeuralNet.Forward` | Assignment3/NN.cpp:88-110 | the whole pass keeps every weight and bias and the shape |
| `NeuralNet.Classify` | Assignment3/NN.cpp:111-112 | the prediction is 1 exactly when the output value is at least 0.5, and 0 otherwise |
| `NeuralNet.Classifications` | Assignment3/NN.cpp:168-176 | one class per row, each the class of the given network |
| `NeuralNet.ForwardLoadsInput` | Assignment3/NN.cpp:95-98 | after a forward pass the input layer holds the input row |
| `NeuralNet.ForwardUsesOnlyParameters` | Assignment3/NN.cpp:88-110 | the values a forward pass leaves depend only on the weights, biases and input, not on the values held before |
| `NeuralNet.SameParametersSameClass` | Assignment3/NN.cpp:88-112 | two networks with the same weights and biases predict the same class |
| `NeuralNet.HiddenUpdated` | Assignment3/NN.cpp:130-134 | an updated hidden neuron keeps eight weights |
| `NeuralNet.HiddenLayerUpdated` | Assignment3/NN.cpp:128-135 | the updated hidden layer is every hidden neuron updated |
| `NeuralNet.HiddenUpdateFrame` | Assignment3/NN.cpp:128-135 | the hidden update reads only the input and hidden layers and the output weights |
| `NeuralNet.OutputUpdated` | Assignment3/NN.cpp:123-127 | the updated output neuron keeps eight weights |
| `NeuralNet.Backpropagated` | Assignment3/NN.cpp:115-141 | one step of back propagation keeps the 8-8-1 shape |
| `NeuralNet.BackpropagatedUsesOldWeights` | Assignment3/NN.cpp:119-139 | back propagation keeps the input layer and every value; each hidden error uses the output weight from before the update; each output weight moves by rate times error times the hidden value |
| `NeuralNet.Tally` | Assignment3/NN.cpp:232-250 | the four counters add up to the number of rows; TP + FP counts the positive predictions, TP + TN the ones equal to the truncated output, TP the agreeing positives |
| `NeuralNet.CalculateMetrics` | Assignment3/NN.cpp:230-250 | the counters are those of the network's own predictions for the test rows |
| `NeuralNet.NeuralNetwork.constructor` | Assignment3/NN.cpp:42-87 | the 8-8-1 shape; each hidden bias, value and weight, and the output value, bias and weights, come from the draw at their place in the program's draw order; no weight is zero |
| `NeuralNet.NeuralNetwork.DrawWeights` | Assignment3/NN.cpp:60-68 | eight weights from eight consecutive draws, none zero |
| `NeuralNet.NeuralNetwork.ForwardPropagate` | Assignment3/NN.cpp:88-113 | the layers become the forward pass of the old layers; the input layer holds the row; the result is the 0/1 class of the old network |
| `NeuralNet.NeuralNetwork.PropagateLayer` | Assignment3/NN.cpp:92-109 | only layer i changes, to its turn of the pass |
| `NeuralNet.NeuralNetwork.NeuronSum` | Assignment3/NN.cpp:102-106 | the weighted sum of the previous layer's values |
| `NeuralNet.NeuralNetwork.Predict` | Assignment3/NN.cpp:168-176 | the predictions are the classes the network had before the call gives each row, in order; weights and biases are kept |
| `NeuralNet.NeuralNetwork.PredictRow` | Assignment3/NN.cpp:173 | one forward pass keeps the parameters and gives the original network's class |
| `NeuralNet.NeuralNetwork.BackPropagate` | Assignment3/NN.cpp:115-141 | with a target, the layers become one back-propagation step towards it; without one, they are unchanged |
| `NeuralNet.NeuralNetwork.BackStep` | Assignment3/NN.cpp:117-139 | the in-place updates, with the output weights buffered, give exactly one back-propagation step |
| `NeuralNet.NeuralNetwork.BufferWeights` | Assignment3/NN.cpp:123-127 | a fresh buffer of the adjusted output weights |
| `NeuralNet.NeuralNetwork.UpdateHiddenLayer` | Assignment3/NN.cpp:128-135 | only the hidden layer changes, to its updated form |
| `NeuralNet.NeuralNetwork.UpdatedWeights` | Assignment3/NN.cpp:131-134 | every weight moves by rate times error times the input value |
| `NeuralNet.NeuralNetwork.Train` | Assignment3/NN.cpp:143-166 | runs at most `epochs` passes and at least two when at least two are allowed; with no rows it never stops early; the shape is kept |
| `Tokenizer.IndexOf` | Assignment3/NN.cpp:184 | the first occurrence of the delimiter, or the line's length when there is none |
| `Tokenizer.TokensHaveNoDelimiter` | Assignment3/NN.cpp:184-187 | no token contains the delimiter |
| `Tokenizer.NoTokensOnlyForEmptyLine` | Assignment3/NN.cpp:183-187 | a line has no tokens exactly when it is empty |
| `Tokenizer.JoinTokens` | Assignment3/NN.cpp:179-189 | joining the tokens with the delimiter gives back a line that does not end in it |
| `Tokenizer.JoinTokensTrailing` | Assignment3/NN.cpp:179-189 | for a line ending in the delimiter, the join misses exactly that final delimiter |
| `Tokenizer.Split` | Assignment3/NN.cpp:179-189 | the result is the sequence of `getline` tokens of the line, none of which contains the delimiter (Assignment3/GP.cpp:135-145 is the same function) |

## Left out

- Reading the instance and data files, the console prompts, `chdir`, and all printing (`printRoute`, `printDistances`, `printTree`, progress lines): these are I/O.
- The `chrono` timings: they are clock readings.
- The generators: `rand()`, `srand`, `mt19937` and `random_device` are not built. Values of `rand()` are a `Stream` parameter. The `std::shuffle` of `generateRandomRoute` is a Fisher-Yates pass driven by a stream of draws. Its contract holds for every permutation that pass can produce, but it does not reproduce the exact permutation libstdc++ picks for a seed.
- Floating point: all `double` quantities are exact reals, so rounding is not modelled. In the route program the distances are integers, like the one matrix the program uses. NaN is modelled only where the program can divide by a count of zero: the `Mean` values of GP `fitness`, `tournamentSelection` and `calculateAccuracy`, and of the error in `Train`.
- The logistic function and `exp` are not modelled. The activation is a parameter of the network (`sigmoid`), and the derivative is written over it.
- The Metropolis test and the temperature schedule of `simulatedAnnealing` (`exp`, `pow`) are not modelled. They are the `accept` parameter, which sees the iteration, the length difference and the extra draw.
- `RouteSearch.Perturbation` and `RouteSearch.AnnealingStep`: the two `rand()` calls in one `swap` expression are unsequenced in C++. Here the first draw gives the first index.
- `GeneticProgramming.Mutate` returns the changed tree instead of overwriting nodes. Node pointers, their aliasing, `new` and `delete` have no counterpart; `DeepCopy` is structural equality.
- `GeneticProgramming.Evolve`: states the population size, well-formedness and the height bound. It does not state which tournament winners each child descends from. When a generation runs, it requires five trees because `tournamentSelection` reads `fitnesses[0..4]`, and one output per row because `fitness` reads `outputs[i]`. Any number of rows is allowed.
- The best-tree search in GP `main` is not modelled: it is a plain minimum over `fitness`, the same running minimum as `TournamentWinner`. So is the fixed parameter setup of every `main`.
- `Knapsack.GeneticAlgorithm.Generation`: the all-false replacement chromosome is never rated by the program, so its fitness is uninitialised. Here that fitness is the `unsetFitness` parameter.
- `Knapsack.GeneticAlgorithm.Run`: does not restate how each later population is bred from the one before; `Generation` states that for one pass. Run states the first population, the record of best fitnesses and the best chromosome against every rated population.
- The rates are compared as the program compares them: `rand() % 100 > 0.85 * 100` and `rand() % 100 < 0.6 * 100`. Both products round to exactly 85 and 60 in double arithmetic.
- The ratio metrics of `calculateMetrics` (accuracy, specificity, sensitivity, F-measure) are divisions of the counters. Their floating-point edge cases, such as a zero denominator, are not modelled.
- Neuron fields the program leaves uninitialised (input biases and errors) are 0 here. No value ever reads them.
- `NeuralNet.NeuralNetwork.Train`: states the number of passes and the kept shape, not the weights after training. `epochsRun`, the number of passes, is an extra out-parameter. The default threshold 0.0001 is a parameter.
- `NeuralNet.NeuralNetwork.BackPropagate` requires at most one target. The program indexes output neuron i for target i, and the network has one output neuron.
- Forward and back propagation update a local copy of a layer and then assign it to the field. With no aliasing between layers this equals the in-place writes, but it is not a model of references into `layers`.
- Integer overflow of counters and indices is not modelled. Every count is bounded by a collection size.
