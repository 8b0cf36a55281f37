/** The 0/1 knapsack genetic algorithm: bit-vector chromosomes, fitness that
    is the packed value when the weight fits and 0 otherwise, four-sample
    parent selection, one-point crossover, single-gene mutation and the
    generational loop that keeps the best chromosome seen so far. */
module Knapsack {
  import opened Draws

  datatype Item = Item(weight: real, value: real)

  datatype Chromosome = Chromosome(genes: seq<bool>, fitness: real)

  const PopulationSize: int := 100
  const SelectionSize: nat := 4
  /** Generations per item: `maxGenerations` starts at 5 and is multiplied
      by the number of items. */
  const MaxGenerations: nat := 5
  /** `crossoverRate * 100` and `mutationRate * 100`: 0.85 and 0.6 times 100
      both round to the whole numbers 85 and 60 in double precision. */
  const CrossoverPercent: nat := 85
  const MutationPercent: nat := 60

  /** Weight of the selected items among the first `|genes|`. */
  function TotalWeight(items: seq<Item>, genes: seq<bool>): real
    requires |genes| <= |items|
  {
    if |genes| == 0 then 0.0
    else
      TotalWeight(items, genes[..|genes| - 1])
      + (if genes[|genes| - 1] then items[|genes| - 1].weight else 0.0)
  }

  /** Value of the selected items among the first `|genes|`. */
  function TotalValue(items: seq<Item>, genes: seq<bool>): real
    requires |genes| <= |items|
  {
    if |genes| == 0 then 0.0
    else
      TotalValue(items, genes[..|genes| - 1])
      + (if genes[|genes| - 1] then items[|genes| - 1].value else 0.0)
  }

  /** The penalised fitness: the packed value, or 0 over capacity. */
  function Fitness(items: seq<Item>, maxWeight: int, genes: seq<bool>): real
    requires |genes| <= |items|
  {
    if TotalWeight(items, genes) > maxWeight as real then 0.0 else TotalValue(items, genes)
  }

  /** The genes with the one at `p` inverted. */
  function Flip(genes: seq<bool>, p: nat): (r: seq<bool>)
    requires p < |genes|
    ensures |r| == |genes| && r[p] == !genes[p]
    ensures forall i :: 0 <= i < |genes| && i != p ==> r[i] == genes[i]
  {
    genes[p := !genes[p]]
  }

  /** Flipping the same gene twice restores the chromosome. */
  lemma FlipTwice(genes: seq<bool>, p: nat)
    requires p < |genes|
    ensures Flip(Flip(genes, p), p) == genes
  {
    assert Flip(Flip(genes, p), p)[p] == genes[p];
  }

  /** Flipping a gene adds or removes exactly that item's weight and value. */
  lemma {:induction false} FlipTotals(items: seq<Item>, genes: seq<bool>, p: nat)
    requires p < |genes| <= |items|
    ensures TotalWeight(items, Flip(genes, p))
      == TotalWeight(items, genes) + (if genes[p] then -items[p].weight else items[p].weight)
    ensures TotalValue(items, Flip(genes, p))
      == TotalValue(items, genes) + (if genes[p] then -items[p].value else items[p].value)
    decreases |genes|
  {
    var n := |genes| - 1;
    var flipped := Flip(genes, p);
    assert flipped[..n] == if p == n then genes[..n] else Flip(genes[..n], p);
    if p < n {
      FlipTotals(items, genes[..n], p);
    }
  }

  /** An empty knapsack weighs nothing and is worth nothing. */
  lemma {:induction false} NothingPacked(items: seq<Item>, genes: seq<bool>)
    requires |genes| <= |items|
    requires forall i :: 0 <= i < |genes| ==> !genes[i]
    ensures TotalWeight(items, genes) == 0.0 && TotalValue(items, genes) == 0.0
    decreases |genes|
  {
    if |genes| > 0 {
      NothingPacked(items, genes[..|genes| - 1]);
    }
  }

  /** With non-negative values, fitness is never negative. */
  lemma {:induction false} FitnessNonNegative(items: seq<Item>, maxWeight: int, genes: seq<bool>)
    requires |genes| <= |items|
    requires forall i :: 0 <= i < |items| ==> items[i].value >= 0.0
    ensures Fitness(items, maxWeight, genes) >= 0.0
    decreases |genes|
  {
    ValueNonNegative(items, genes);
  }

  lemma {:induction false} ValueNonNegative(items: seq<Item>, genes: seq<bool>)
    requires |genes| <= |items|
    requires forall i :: 0 <= i < |items| ==> items[i].value >= 0.0
    ensures TotalValue(items, genes) >= 0.0
    decreases |genes|
  {
    if |genes| > 0 {
      ValueNonNegative(items, genes[..|genes| - 1]);
    }
  }

  /** One-point crossover of two gene strings at `point`. */
  function Splice(a: seq<bool>, b: seq<bool>, point: nat): (r: seq<bool>)
    requires point <= |a| == |b|
    ensures |r| == |a|
    ensures forall i :: 0 <= i < point ==> r[i] == a[i]
    ensures forall i :: point <= i < |a| ==> r[i] == b[i]
  {
    a[..point] + b[point..]
  }

  /** The two children of a crossover hold, at every position, the same
      pair of genes as the two parents. */
  lemma SpliceKeepsGenePairs(a: seq<bool>, b: seq<bool>, point: nat)
    requires point <= |a| == |b|
    ensures forall i :: 0 <= i < |a| ==>
      multiset{Splice(a, b, point)[i], Splice(b, a, point)[i]} == multiset{a[i], b[i]}
  {
  }

  /** Sum of the fitnesses of a population. */
  function SumFitness(population: seq<Chromosome>): real
  {
    if |population| == 0 then 0.0
    else SumFitness(population[..|population| - 1]) + population[|population| - 1].fitness
  }

  lemma {:induction false} SumFitnessAppend(a: seq<Chromosome>, b: seq<Chromosome>)
    ensures SumFitness(a + b) == SumFitness(a) + SumFitness(b)
    decreases |b|
  {
    if |b| == 0 {
      assert a + b == a;
    } else {
      var n := |b| - 1;
      assert (a + b)[..|a + b| - 1] == a + b[..n];
      assert (a + b)[|a + b| - 1] == b[n];
      SumFitnessAppend(a, b[..n]);
    }
  }

  /** Gene j is set exactly when the draw at `base + j` is even. */
  predicate DrawnGenes(genes: seq<bool>, rand: Stream, base: nat)
  {
    forall j :: 0 <= j < |genes| ==> genes[j] == (rand(base + j) % 2 == 0)
  }

  /** `c` is the first of the members drawn at `rand(k) .. rand(k + 3)` with
      the highest fitness among them. */
  predicate FirstFittestOfSample(population: seq<Chromosome>, rand: Stream, k: nat, c: Chromosome)
    requires |population| > 0
  {
    exists j :: 0 <= j < SelectionSize && c == Sampled(population, rand, k, j)
      && (forall i :: 0 <= i < SelectionSize ==> Sampled(population, rand, k, i).fitness <= c.fitness)
      && (forall i :: 0 <= i < j ==> Sampled(population, rand, k, i).fitness < c.fitness)
  }

  /** The member drawn in round `i` of a parent selection. */
  function Sampled(population: seq<Chromosome>, rand: Stream, k: nat, i: nat): Chromosome
    requires |population| > 0
  {
    population[rand(k + i) % |population|]
  }

  /** The 50 pairs bred per generation make up a whole population. */
  lemma PopulationSizeIsEven()
    ensures 2 * (PopulationSize / 2) == PopulationSize
  {
  }

  /** Member i has one gene per item, gene j set when the draw at
      `k + i * |items| + j` is even, and is rated. */
  predicate Generated(items: seq<Item>, maxWeight: int, population: seq<Chromosome>, rand: Stream, k: nat)
  {
    forall i :: 0 <= i < |population| ==>
      (|population[i].genes| == |items|
       && population[i].fitness == Fitness(items, maxWeight, population[i].genes)
       && DrawnGenes(population[i].genes, rand, k + i * |items|))
  }

  predicate NonDecreasing(s: seq<real>)
  {
    forall i, j :: 0 <= i < j < |s| ==> s[i] <= s[j]
  }

  /** Position of the first member of highest fitness among the first `count`. */
  function FittestIndex(population: seq<Chromosome>, count: nat): (j: nat)
    requires 0 < count <= |population|
    ensures j < count
    ensures forall i :: 0 <= i < count ==> population[i].fitness <= population[j].fitness
    ensures forall i :: 0 <= i < j ==> population[i].fitness < population[j].fitness
  {
    if count == 1 then 0
    else
      var j := FittestIndex(population, count - 1);
      if population[count - 1].fitness > population[j].fitness then count - 1 else j
  }

  /** The first member of highest fitness. */
  function Fittest(population: seq<Chromosome>): (c: Chromosome)
    requires |population| > 0
    ensures c in population
    ensures forall d :: d in population ==> d.fitness <= c.fitness
  {
    population[FittestIndex(population, |population|)]
  }

  /** A chromosome's genes with no item selected. */
  function NoGenes(n: nat): (r: seq<bool>)
    ensures |r| == n && forall i :: 0 <= i < n ==> !r[i]
  {
    if n == 0 then [] else NoGenes(n - 1) + [false]
  }

  /** `erase(begin() + index)` followed by `push_back(c)`. */
  function ReplaceMember(population: seq<Chromosome>, index: nat, c: Chromosome): (r: seq<Chromosome>)
    requires index < |population|
    ensures |r| == |population| && r[|r| - 1] == c
    ensures forall i :: 0 <= i < index ==> r[i] == population[i]
    ensures forall i :: index <= i < |population| - 1 ==> r[i] == population[i + 1]
    ensures forall d :: d in r ==> d in population || d == c
  {
    population[..index] + population[index + 1..] + [c]
  }

  /** The round, among the first `count` of a parent selection at draw
      position k, that draws the first member of highest fitness. */
  function SampleWinner(population: seq<Chromosome>, rand: Stream, k: nat, count: nat): (j: nat)
    requires |population| > 0 && count > 0
    ensures j < count
  {
    if count == 1 then 0
    else
      var j := SampleWinner(population, rand, k, count - 1);
      if Sampled(population, rand, k, count - 1).fitness > Sampled(population, rand, k, j).fitness then count - 1 else j
  }

  /** No round draws a fitter member than the winning one, and every earlier
      round a strictly less fit one. */
  lemma {:induction false} SampleWinnerIsFirstFittest(population: seq<Chromosome>, rand: Stream, k: nat, count: nat)
    requires |population| > 0 && count > 0
    ensures forall i :: 0 <= i < count ==>
      Sampled(population, rand, k, i).fitness <= Sampled(population, rand, k, SampleWinner(population, rand, k, count)).fitness
    ensures forall i :: 0 <= i < SampleWinner(population, rand, k, count) ==>
      Sampled(population, rand, k, i).fitness < Sampled(population, rand, k, SampleWinner(population, rand, k, count)).fitness
  {
    if count > 1 {
      SampleWinnerIsFirstFittest(population, rand, k, count - 1);
    }
  }

  /** The parent a selection at draw position k picks. */
  function Parent(population: seq<Chromosome>, rand: Stream, k: nat): (c: Chromosome)
    requires |population| > 0
    ensures c in population
  {
    Sampled(population, rand, k, SampleWinner(population, rand, k, SelectionSize))
  }

  /** The parent is the first member of highest fitness among the four drawn. */
  lemma ParentWinsSample(population: seq<Chromosome>, rand: Stream, k: nat)
    requires |population| > 0
    ensures FirstFittestOfSample(population, rand, k, Parent(population, rand, k))
  {
    SampleWinnerIsFirstFittest(population, rand, k, SelectionSize);
  }

  /** Recombination at draw position k of two parents of one gene per item:
      when the draw mod 100 exceeds 85 the parents themselves; otherwise the
      two splices at the next draw mod the number of items, each rated. The
      third component is the position after the last draw. */
  function Recombination(items: seq<Item>, maxWeight: int, parent1: Chromosome, parent2: Chromosome,
                         rand: Stream, k: nat): (r: (Chromosome, Chromosome, nat))
    requires 0 < |items| && |parent1.genes| == |parent2.genes| == |items|
    ensures |r.0.genes| == |r.1.genes| == |items|
    ensures r.2 == k + 1 || r.2 == k + 2
    ensures r.2 == k + 1 <==> rand(k) % 100 > CrossoverPercent
    ensures r.2 == k + 1 ==> r.0 == parent1 && r.1 == parent2
    ensures r.2 == k + 2 ==>
      var point := rand(k + 1) % |items|;
      && r.0.genes == Splice(parent1.genes, parent2.genes, point)
      && r.1.genes == Splice(parent2.genes, parent1.genes, point)
      && r.0.fitness == Fitness(items, maxWeight, r.0.genes) && r.1.fitness == Fitness(items, maxWeight, r.1.genes)
  {
    if rand(k) % 100 > CrossoverPercent then (parent1, parent2, k + 1)
    else
      var point := rand(k + 1) % |items|;
      var genes1 := Splice(parent1.genes, parent2.genes, point);
      var genes2 := Splice(parent2.genes, parent1.genes, point);
      (Chromosome(genes1, Fitness(items, maxWeight, genes1)), Chromosome(genes2, Fitness(items, maxWeight, genes2)), k + 2)
  }

  /** Recombination leaves at every position the same pair of genes as the
      parents had, in some order. */
  lemma RecombinationKeepsGenePairs(items: seq<Item>, maxWeight: int, parent1: Chromosome, parent2: Chromosome,
                                    rand: Stream, k: nat)
    requires 0 < |items| && |parent1.genes| == |parent2.genes| == |items|
    ensures var r := Recombination(items, maxWeight, parent1, parent2, rand, k);
      forall i :: 0 <= i < |items| ==>
        multiset{r.0.genes[i], r.1.genes[i]} == multiset{parent1.genes[i], parent2.genes[i]}
  {
    if rand(k) % 100 <= CrossoverPercent {
      SpliceKeepsGenePairs(parent1.genes, parent2.genes, rand(k + 1) % |items|);
    }
  }

  /** A crossover at draw position k: two parent selections, then
      recombination at the position after them. */
  function CrossoverOf(items: seq<Item>, maxWeight: int, population: seq<Chromosome>,
                       rand: Stream, k: nat): (r: (Chromosome, Chromosome, nat))
    requires 0 < |items| && |population| > 0
    requires forall c :: c in population ==> |c.genes| == |items|
    ensures |r.0.genes| == |r.1.genes| == |items|
    ensures r.2 == k + 2 * SelectionSize + 1 || r.2 == k + 2 * SelectionSize + 2
  {
    Recombination(items, maxWeight, Parent(population, rand, k), Parent(population, rand, k + SelectionSize),
                  rand, k + 2 * SelectionSize)
  }

  /** The mutation step of the generational loop on one child at draw
      position k: when the draw mod 100 is below 60, the gene at the next
      draw mod the number of items is inverted and the child re-rated;
      otherwise the child stays as it is. */
  function MutationOf(items: seq<Item>, maxWeight: int, c: Chromosome, rand: Stream, k: nat): (r: (Chromosome, nat))
    requires 0 < |items| && |c.genes| == |items|
    ensures |r.0.genes| == |items|
    ensures r.1 == k + 1 || r.1 == k + 2
    ensures r.1 == k + 2 <==> rand(k) % 100 < MutationPercent
    ensures r.1 == k + 1 ==> r.0 == c
    ensures r.1 == k + 2 ==> r.0.fitness == Fitness(items, maxWeight, r.0.genes)
  {
    if rand(k) % 100 < MutationPercent then
      var p := rand(k + 1) % |items|;
      var genes := Flip(c.genes, p);
      (Chromosome(genes, Fitness(items, maxWeight, genes)), k + 2)
    else (c, k + 1)
  }

  /** A mutated child differs from the child in exactly one gene. */
  lemma MutationFlipsOneGene(items: seq<Item>, maxWeight: int, c: Chromosome, rand: Stream, k: nat)
    requires 0 < |items| && |c.genes| == |items|
    ensures var r := MutationOf(items, maxWeight, c, rand, k);
      r.1 == k + 2 ==> exists p :: 0 <= p < |items| && r.0.genes == Flip(c.genes, p)
  {
    if rand(k) % 100 < MutationPercent {
      var p := rand(k + 1) % |items|;
      assert MutationOf(items, maxWeight, c, rand, k).0.genes == Flip(c.genes, p);
    }
  }

  /** Two children of the generational loop bred at draw position k: a
      crossover, then the mutation step on each child in turn. */
  function Children(items: seq<Item>, maxWeight: int, population: seq<Chromosome>,
                    rand: Stream, k: nat): (r: (Chromosome, Chromosome, nat))
    requires 0 < |items| && |population| > 0
    requires forall c :: c in population ==> |c.genes| == |items|
    ensures |r.0.genes| == |r.1.genes| == |items|
    ensures k + 2 * SelectionSize + 3 <= r.2 <= k + 2 * SelectionSize + 6
  {
    var crossed := CrossoverOf(items, maxWeight, population, rand, k);
    var mutated1 := MutationOf(items, maxWeight, crossed.0, rand, crossed.2);
    var mutated2 := MutationOf(items, maxWeight, crossed.1, rand, mutated1.1);
    (mutated1.0, mutated2.0, mutated2.1)
  }

  /** The first `pairs` pairs of children bred from the population, each at
      the draw position where the previous pair left off, and the position
      after the last. */
  function NewPopulation(items: seq<Item>, maxWeight: int, population: seq<Chromosome>,
                         rand: Stream, k: nat, pairs: nat): (r: (seq<Chromosome>, nat))
    requires 0 < |items| && |population| > 0
    requires forall c :: c in population ==> |c.genes| == |items|
    ensures |r.0| == 2 * pairs
    ensures forall c :: c in r.0 ==> |c.genes| == |items|
    ensures k + 11 * pairs <= r.1 <= k + 14 * pairs
  {
    if pairs == 0 then ([], k)
    else
      var front := NewPopulation(items, maxWeight, population, rand, k, pairs - 1);
      var children := Children(items, maxWeight, population, rand, front.1);
      (front.0 + [children.0, children.1], children.2)
  }

  /** The chromosome is a member of one of the populations. */
  predicate Attained(c: Chromosome, history: seq<seq<Chromosome>>)
  {
    exists j :: 0 <= j < |history| && c in history[j]
  }

  /** No member of any of the populations is fitter than v. */
  predicate Dominates(v: real, history: seq<seq<Chromosome>>)
  {
    forall j, c :: 0 <= j < |history| && c in history[j] ==> c.fitness <= v
  }

  /** v is the highest fitness of any member of the populations. */
  ghost predicate Record(v: real, history: seq<seq<Chromosome>>)
  {
    Dominates(v, history) && exists c :: Attained(c, history) && c.fitness == v
  }

  /** Keeping the fitter of the best so far and the fittest member of a new
      population keeps the best so far the record of all populations seen. */
  lemma RecordStep(best: Chromosome, kept: Chromosome, history: seq<seq<Chromosome>>, rated: seq<Chromosome>)
    requires Attained(best, history) && Dominates(best.fitness, history) && |rated| > 0
    requires kept == if Fittest(rated).fitness > best.fitness then Fittest(rated) else best
    ensures Attained(kept, history + [rated]) && Dominates(kept.fitness, history + [rated])
    ensures Record(kept.fitness, history + [rated])
  {
    var h := history + [rated];
    assert h[|history|] == rated;
    forall j, c: Chromosome | 0 <= j < |h| && c in h[j]
      ensures c.fitness <= kept.fitness
    {
      if j < |history| {
        assert h[j] == history[j];
      }
    }
    if kept == best {
      var j :| 0 <= j < |history| && best in history[j];
      assert h[j] == history[j];
    }
  }

  /** One more pair of children extends the new population by that pair. */
  lemma NewPopulationStep(items: seq<Item>, maxWeight: int, population: seq<Chromosome>, rand: Stream, k: nat,
                          pairs: nat, child1: Chromosome, child2: Chromosome, next: nat)
    requires 0 < |items| && |population| > 0
    requires forall c :: c in population ==> |c.genes| == |items|
    requires (child1, child2, next)
      == Children(items, maxWeight, population, rand, NewPopulation(items, maxWeight, population, rand, k, pairs).1)
    ensures NewPopulation(items, maxWeight, population, rand, k, pairs + 1)
      == (NewPopulation(items, maxWeight, population, rand, k, pairs).0 + [child1, child2], next)
  {
  }

  /** Appending a population leaves every earlier prefix of the history,
      and so every record already taken, as it was. */
  lemma HistoryPrefixes(history: seq<seq<Chromosome>>, rated: seq<Chromosome>, trace: seq<real>)
    requires |history| == |trace| + 1
    requires forall i :: 0 <= i < |trace| ==> Record(trace[i], history[..i + 2])
    ensures forall i :: 0 <= i < |trace| ==> Record(trace[i], (history + [rated])[..i + 2])
  {
    forall i | 0 <= i < |trace|
      ensures Record(trace[i], (history + [rated])[..i + 2])
    {
      assert (history + [rated])[..i + 2] == history[..i + 2];
    }
  }

  /** What `main` maintains from one generation to the next: one printed
      fitness per generation after the first population, all of
      `PopulationSize` members; the trace non-decreasing and ending in the
      best chromosome's fitness; that chromosome a member of some population
      and at least as fit as every member of every one; and each entry the
      record of the populations rated up to its generation. */
  ghost predicate Recorded(trace: seq<real>, history: seq<seq<Chromosome>>, best: Chromosome)
  {
    && |history| == |trace| + 1
    && (forall j :: 0 <= j < |history| ==> |history[j]| == PopulationSize)
    && NonDecreasing(trace)
    && (forall i :: 0 <= i < |trace| ==> trace[i] <= best.fitness)
    && (|trace| > 0 ==> trace[|trace| - 1] == best.fitness)
    && Attained(best, history) && Dominates(best.fitness, history)
    && (forall i :: 0 <= i < |trace| ==> Record(trace[i], history[..i + 2]))
  }

  /** The first population, of `PopulationSize` members, and its fittest
      member start the record. */
  lemma RecordStarts(population: seq<Chromosome>)
    requires |population| == PopulationSize
    ensures Recorded([], [population], Fittest(population))
  {
    assert Fittest(population) in [population][0];
  }

  /** One generation of `main` keeps the record: the best so far is kept
      unless the fittest member of the newly rated population is strictly
      fitter. */
  lemma TraceStep(trace: seq<real>, history: seq<seq<Chromosome>>, before: Chromosome, best: Chromosome,
                  rated: seq<Chromosome>)
    requires Recorded(trace, history, before) && |rated| == PopulationSize
    requires best == if Fittest(rated).fitness > before.fitness then Fittest(rated) else before
    ensures Recorded(trace + [best.fitness], history + [rated], best)
  {
    RecordStep(before, best, history, rated);
    HistoryPrefixes(history, rated, trace);
    assert (history + [rated])[..|trace| + 2] == history + [rated];
  }

  /** The program's global state: the items read from the instance file, the
      capacity, the current population and its summed fitness. */
  class GeneticAlgorithm {
    var allItems: seq<Item>
    var numItems: int
    var maxWeight: int
    var population: seq<Chromosome>
    var populationFitness: real

    /** One gene per item in every chromosome. */
    predicate Valid()
      reads this
    {
      numItems == |allItems| && forall c :: c in population ==> |c.genes| == numItems
    }

    /** The state right after the instance file is read. */
    constructor (items: seq<Item>, capacity: int)
      ensures allItems == items && numItems == |items| && maxWeight == capacity
      ensures population == [] && populationFitness == 0.0
      ensures Valid()
    {
      allItems := items;
      numItems := |items|;
      maxWeight := capacity;
      population := [];
      populationFitness := 0.0;
    }

    /** `setFitness`: sums the selected items' weight and value, then sets
        the fitness to the value when the weight is within the capacity
        (equality included) and to 0 when it exceeds it. */
    method SetFitness(c: Chromosome) returns (r: Chromosome)
      requires |c.genes| <= |allItems|
      ensures r.genes == c.genes
      ensures r.fitness == Fitness(allItems, maxWeight, c.genes)
      ensures TotalWeight(allItems, c.genes) <= maxWeight as real ==> r.fitness == TotalValue(allItems, c.genes)
      ensures TotalWeight(allItems, c.genes) > maxWeight as real ==> r.fitness == 0.0
    {
      var totalWeight := 0.0;
      var totalValue := 0.0;
      var i := 0;
      while i < |c.genes|
        invariant 0 <= i <= |c.genes|
        invariant totalWeight == TotalWeight(allItems, c.genes[..i])
        invariant totalValue == TotalValue(allItems, c.genes[..i])
      {
        assert c.genes[..i + 1][..i] == c.genes[..i];
        totalWeight := totalWeight + (if c.genes[i] then allItems[i].weight else 0.0);
        totalValue := totalValue + (if c.genes[i] then allItems[i].value else 0.0);
        i := i + 1;
      }
      assert c.genes[..i] == c.genes;
      if totalWeight > maxWeight as real {
        r := Chromosome(c.genes, 0.0);
      } else {
        r := Chromosome(c.genes, totalValue);
      }
    }

    /** `setPopulationFitness`. */
    method SetPopulationFitness()
      modifies this`populationFitness
      ensures populationFitness == SumFitness(population)
    {
      populationFitness := 0.0;
      var i := 0;
      while i < |population|
        invariant 0 <= i <= |population|
        invariant populationFitness == SumFitness(population[..i])
      {
        assert population[..i + 1][..i] == population[..i];
        populationFitness := populationFitness + population[i].fitness;
        i := i + 1;
      }
      assert population[..i] == population;
    }

    /** `generatePopulation`: gene j of chromosome i is set when the draw at
        `k + i * numItems + j` is even; each chromosome's fitness is set. */
    method GeneratePopulation(size: int, rand: Stream, k: nat) returns (pop: seq<Chromosome>, next: nat)
      requires Valid()
      ensures |pop| == if size > 0 then size else 0
      ensures next == k + |pop| * numItems
      ensures Generated(allItems, maxWeight, pop, rand, k)
    {
      pop := [];
      next := k;
      var i := 0;
      while i < size
        invariant 0 <= i <= if size > 0 then size else 0
        invariant |pop| == i && next == k + i * numItems
        invariant forall i' :: 0 <= i' < i ==>
          (|pop[i'].genes| == numItems
           && pop[i'].fitness == Fitness(allItems, maxWeight, pop[i'].genes)
           && DrawnGenes(pop[i'].genes, rand, k + i' * numItems))
      {
        var genes, afterGenes := RandomGenes(numItems, rand, next);
        var chromosome := SetFitness(Chromosome(genes, 0.0));
        pop := pop + [chromosome];
        assert afterGenes == k + (i + 1) * numItems;
        next := afterGenes;
        i := i + 1;
      }
    }

    /** The inner loop of `generatePopulation`: n genes, each set when its
        draw is even. */
    static method RandomGenes(n: nat, rand: Stream, k: nat) returns (genes: seq<bool>, next: nat)
      ensures |genes| == n && DrawnGenes(genes, rand, k)
      ensures next == k + n
    {
      genes := [];
      var j := 0;
      while j < n
        invariant 0 <= j <= n && |genes| == j
        invariant DrawnGenes(genes, rand, k)
      {
        genes := genes + [rand(k + j) % 2 == 0];
        j := j + 1;
      }
      next := k + n;
    }

    /** `getParent`: four members drawn uniformly by index; the first drawn
        one of highest fitness wins (a later equal one does not replace it). */
    method GetParent(rand: Stream, k: nat) returns (parent: Chromosome, next: nat)
      requires |population| > 0
      ensures next == k + SelectionSize
      ensures parent in population
      ensures FirstFittestOfSample(population, rand, k, parent)
      ensures parent == Parent(population, rand, k)
    {
      var selectedParents: seq<Chromosome> := [];
      var i := 0;
      while i < SelectionSize
        invariant 0 <= i <= SelectionSize && |selectedParents| == i
        invariant forall i' :: 0 <= i' < i ==> selectedParents[i'] == Sampled(population, rand, k, i')
      {
        var randomIndex := rand(k + i) % |population|;
        selectedParents := selectedParents + [population[randomIndex]];
        i := i + 1;
      }
      parent := selectedParents[0];
      ghost var j := 0;
      i := 1;
      while i < |selectedParents|
        invariant 1 <= i <= |selectedParents|
        invariant 0 <= j < i && parent == selectedParents[j] && j == SampleWinner(population, rand, k, i)
      {
        if selectedParents[i].fitness > parent.fitness {
          parent := selectedParents[i];
          j := i;
        }
        i := i + 1;
      }
      next := k + SelectionSize;
      ParentWinsSample(population, rand, k);
    }

    /** `selectChromosones`: two independent parent selections. */
    method SelectChromosomes(rand: Stream, k: nat) returns (parent1: Chromosome, parent2: Chromosome, next: nat)
      requires |population| > 0
      ensures next == k + 2 * SelectionSize
      ensures parent1 == Parent(population, rand, k)
      ensures parent2 == Parent(population, rand, k + SelectionSize)
    {
      var n;
      parent1, n := GetParent(rand, k);
      parent2, next := GetParent(rand, n);
    }

    /** The body of `crossover` once the parents are chosen: when the draw
        mod 100 exceeds 85 the parents are returned as they are; otherwise a
        point is drawn mod `numItems` and the children swap tails there. */
    method Recombine(parent1: Chromosome, parent2: Chromosome, rand: Stream, k: nat)
      returns (child1: Chromosome, child2: Chromosome, next: nat)
      requires 0 < numItems == |allItems|
      requires |parent1.genes| == |parent2.genes| == numItems
      ensures (child1, child2, next) == Recombination(allItems, maxWeight, parent1, parent2, rand, k)
    {
      if rand(k) % 100 > CrossoverPercent {
        return parent1, parent2, k + 1;
      }
      var crossoverPoint := rand(k + 1) % numItems;
      var genes1, genes2 := SpliceGenes(parent1.genes, parent2.genes, crossoverPoint);
      child1 := SetFitness(Chromosome(genes1, 0.0));
      child2 := SetFitness(Chromosome(genes2, 0.0));
      next := k + 2;
    }

    /** The two gene-copying loops of `crossover`. */
    static method SpliceGenes(a: seq<bool>, b: seq<bool>, point: nat) returns (genes1: seq<bool>, genes2: seq<bool>)
      requires point <= |a| == |b|
      ensures genes1 == Splice(a, b, point) && genes2 == Splice(b, a, point)
    {
      genes1, genes2 := [], [];
      var i := 0;
      while i < point
        invariant 0 <= i <= point
        invariant genes1 == a[..i] && genes2 == b[..i]
      {
        genes1 := genes1 + [a[i]];
        genes2 := genes2 + [b[i]];
        i := i + 1;
      }
      while i < |a|
        invariant point <= i <= |a|
        invariant genes1 == a[..point] + b[point..i]
        invariant genes2 == b[..point] + a[point..i]
      {
        assert b[point..i + 1] == b[point..i] + [b[i]];
        assert a[point..i + 1] == a[point..i] + [a[i]];
        genes1 := genes1 + [b[i]];
        genes2 := genes2 + [a[i]];
        i := i + 1;
      }
    }

    /** `crossover`: two parent selections, then recombination. */
    method Crossover(rand: Stream, k: nat) returns (child1: Chromosome, child2: Chromosome, next: nat)
      requires Valid() && numItems > 0 && |population| > 0
      ensures (child1, child2, next) == CrossoverOf(allItems, maxWeight, population, rand, k)
      ensures exists parent1, parent2 ::
        FirstFittestOfSample(population, rand, k, parent1)
        && FirstFittestOfSample(population, rand, k + SelectionSize, parent2)
        && forall i :: 0 <= i < numItems ==>
          multiset{child1.genes[i], child2.genes[i]} == multiset{parent1.genes[i], parent2.genes[i]}
    {
      var parent1, parent2, n := SelectChromosomes(rand, k);
      child1, child2, next := Recombine(parent1, parent2, rand, n);
      ParentWinsSample(population, rand, k);
      ParentWinsSample(population, rand, k + SelectionSize);
      RecombinationKeepsGenePairs(allItems, maxWeight, parent1, parent2, rand, n);
    }

    /** `mutate`: inverts the gene at the drawn point and re-rates the
        chromosome. */
    method Mutate(c: Chromosome, rand: Stream, k: nat) returns (r: Chromosome, next: nat)
      requires 0 < numItems == |allItems| && |c.genes| == numItems
      ensures next == k + 1
      ensures r.genes == Flip(c.genes, rand(k) % numItems)
      ensures r.fitness == Fitness(allItems, maxWeight, r.genes)
    {
      var mutationPoint := rand(k) % numItems;
      var genes := c.genes[mutationPoint := !c.genes[mutationPoint]];
      r := SetFitness(Chromosome(genes, c.fitness));
      next := k + 1;
    }

    /** The mutation step of the generational loop on one child: `mutate`
        when the draw mod 100 is below 60. */
    method MaybeMutate(c: Chromosome, rand: Stream, k: nat) returns (r: Chromosome, next: nat)
      requires 0 < numItems == |allItems| && |c.genes| == numItems
      ensures (r, next) == MutationOf(allItems, maxWeight, c, rand, k)
    {
      if rand(k) % 100 < MutationPercent {
        r, next := Mutate(c, rand, k + 1);
      } else {
        r, next := c, k + 1;
      }
    }

    /** `getBestChromosome`: the first member of highest fitness. */
    method GetBestChromosome() returns (best: Chromosome)
      requires |population| > 0
      ensures best in population
      ensures forall c :: c in population ==> c.fitness <= best.fitness
      ensures exists j ::
        (0 <= j < |population| && best == population[j]
         && forall i :: 0 <= i < j ==> population[i].fitness < best.fitness)
      ensures best == Fittest(population)
    {
      best := population[0];
      ghost var j := 0;
      var i := 1;
      while i < |population|
        invariant 1 <= i <= |population|
        invariant 0 <= j < i && best == population[j] && j == FittestIndex(population, i)
        invariant forall i' :: 0 <= i' < i ==> population[i'].fitness <= best.fitness
        invariant forall i' :: 0 <= i' < j ==> population[i'].fitness < best.fitness
      {
        if population[i].fitness > best.fitness {
          best := population[i];
          j := i;
        }
        i := i + 1;
      }
    }

    /** Two children of the generational loop: a crossover, then each child
        mutated when its own draw mod 100 is below 60. */
    method Offspring(rand: Stream, k: nat) returns (child1: Chromosome, child2: Chromosome, next: nat)
      requires Valid() && numItems > 0 && |population| > 0
      ensures (child1, child2, next) == Children(allItems, maxWeight, population, rand, k)
    {
      var crossed1, crossed2, afterCrossover := Crossover(rand, k);
      var afterFirst;
      child1, afterFirst := MaybeMutate(crossed1, rand, afterCrossover);
      child2, next := MaybeMutate(crossed2, rand, afterFirst);
    }

    /** One pass of the generational loop of `main`: 50 crossovers, each
        child mutated when its draw mod 100 is below 60, the new population
        rated, and, when its best fitness is 0, one drawn member replaced by
        an all-false chromosome whose fitness the program never sets
        (`unsetFitness` here). The best chromosome so far is replaced only by
        a strictly fitter one. `rated` is the new population before the
        replacement. */
    method Generation(bestSoFar: Chromosome, unsetFitness: real, rand: Stream, k: nat)
      returns (best: Chromosome, next: nat, ghost rated: seq<Chromosome>)
      requires Valid() && numItems > 0 && |population| > 0
      modifies this`population, this`populationFitness
      ensures Valid()
      ensures |rated| == PopulationSize
      ensures var bred := NewPopulation(allItems, maxWeight, old(population), rand, k, PopulationSize / 2);
        && rated == bred.0
        && (Fittest(rated).fitness != 0.0 ==> population == rated && next == bred.1)
        && (Fittest(rated).fitness == 0.0 ==>
              next == bred.1 + 1
              && population == ReplaceMember(rated, rand(bred.1) % |rated|,
                                             Chromosome(NoGenes(numItems), unsetFitness)))
      ensures populationFitness == SumFitness(rated)
      ensures |population| == PopulationSize
      ensures best == if Fittest(rated).fitness > bestSoFar.fitness then Fittest(rated) else bestSoFar
      ensures best.fitness >= bestSoFar.fitness
    {
      var offspring, afterBreeding := Breed(rand, k);
      PopulationSizeIsEven();
      rated := offspring;
      best, next := Adopt(offspring, bestSoFar, unsetFitness, rand, afterBreeding);
    }

    /** The rest of a pass of the generational loop once the children are
        bred: they become the population and are rated; when their best
        fitness is 0, the member at the draw mod the population size is
        removed and an all-false chromosome appended; the best so far is
        replaced only by a strictly fitter one. */
    method Adopt(offspring: seq<Chromosome>, bestSoFar: Chromosome, unsetFitness: real, rand: Stream, k: nat)
      returns (best: Chromosome, next: nat)
      requires 0 < numItems == |allItems| && |offspring| > 0
      requires forall c :: c in offspring ==> |c.genes| == numItems
      modifies this`population, this`populationFitness
      ensures Valid()
      ensures Fittest(offspring).fitness != 0.0 ==> population == offspring && next == k
      ensures Fittest(offspring).fitness == 0.0 ==>
        next == k + 1
        && population == ReplaceMember(offspring, rand(k) % |offspring|, Chromosome(NoGenes(numItems), unsetFitness))
      ensures populationFitness == SumFitness(offspring)
      ensures |population| == |offspring|
      ensures best == if Fittest(offspring).fitness > bestSoFar.fitness then Fittest(offspring) else bestSoFar
      ensures best.fitness >= bestSoFar.fitness
    {
      population := offspring;
      SetPopulationFitness();
      var newBest := GetBestChromosome();
      next := k;
      if newBest.fitness == 0.0 {
        var newChromosome := Chromosome(NoGenes(numItems), unsetFitness);
        var index := rand(next) % |population|;
        next := next + 1;
        population := ReplaceMember(population, index, newChromosome);
      }
      best := bestSoFar;
      if newBest.fitness > bestSoFar.fitness {
        best := newBest;
      }
    }

    /** The inner loop of the generational loop: 50 pairs of children, each
        pair bred from the current population at the draw position where the
        previous pair left off. */
    method Breed(rand: Stream, k: nat) returns (offspring: seq<Chromosome>, next: nat)
      requires Valid() && numItems > 0 && |population| > 0
      ensures (offspring, next) == NewPopulation(allItems, maxWeight, population, rand, k, PopulationSize / 2)
    {
      offspring := [];
      next := k;
      var j := 0;
      while j < PopulationSize / 2
        invariant 0 <= j <= PopulationSize / 2
        invariant (offspring, next) == NewPopulation(allItems, maxWeight, population, rand, k, j)
      {
        var child1, child2, n := Offspring(rand, next);
        NewPopulationStep(allItems, maxWeight, population, rand, k, j, child1, child2, n);
        offspring, next := offspring + [child1, child2], n;
        j := j + 1;
      }
    }

    /** `main` from the first population on: `5 * numItems` generations,
        recording the best fitness seen so far after each one. */
    method Run(unsetFitness: real, rand: Stream, k: nat)
      returns (trace: seq<real>, best: Chromosome, next: nat, ghost history: seq<seq<Chromosome>>)
      requires Valid()
      modifies this`population, this`populationFitness
      ensures Valid()
      ensures |trace| == MaxGenerations * numItems
      ensures |history| > 0 && Generated(allItems, maxWeight, history[0], rand, k)
      ensures Recorded(trace, history, best)
      ensures forall c :: c in history[0] ==> c.fitness <= best.fitness
    {
      population, next := GeneratePopulation(PopulationSize, rand, k);
      ghost var first := population;
      history := [population];
      best := GetBestChromosome();
      RecordStarts(population);
      SetPopulationFitness();
      trace := [];
      var i := 0;
      while i < MaxGenerations * numItems
        invariant 0 <= i <= MaxGenerations * numItems && |trace| == i
        invariant Valid() && |population| > 0
        invariant |history| > 0 && history[0] == first
        invariant Recorded(trace, history, best)
      {
        ghost var rated;
        ghost var before := best;
        best, next, rated := Generation(best, unsetFitness, rand, next);
        TraceStep(trace, history, before, best, rated);
        history := history + [rated];
        trace := trace + [best.fitness];
        i := i + 1;
      }
    }
  }
}
