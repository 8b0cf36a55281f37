/** Genetic programming over arithmetic expression trees: random full trees,
    evaluation with protected division, mean squared error, tournament
    selection, structural crossover, mutation and the generational loop.
    Trees are values here; the program's heap nodes, their deep copies and
    their deletion have no counterpart beyond structural equality. */
module GeneticProgramming {
  import opened Draws
  import opened Doubles

  /** A node of the expression tree. The program's node record carries both
      a value and an operator; a terminal's operator is always '\0', a
      function node's value is always 0, and only function nodes have
      children, so the two constructors hold exactly what is ever read. */
  datatype Node = Terminal(value: real) | Function(op: char, left: Node, right: Node)

  /** The operator alphabet: plus, minus, times and divide. */
  const Operators: string := "+-*/"

  const TournamentSize: nat := 5

  /** The depth `mutate` is given by the generational loop. */
  const MutationDepth: int := 3

  function Max(a: nat, b: nat): nat
  {
    if a < b then b else a
  }

  function Height(n: Node): nat
  {
    match n
    case Terminal(_) => 0
    case Function(_, l, r) => 1 + Max(Height(l), Height(r))
  }

  function Size(n: Node): nat
  {
    match n
    case Terminal(_) => 1
    case Function(_, l, r) => 1 + Size(l) + Size(r)
  }

  function Pow2(d: nat): nat
  {
    if d == 0 then 1 else 2 * Pow2(d - 1)
  }

  /** Every leaf sits at depth exactly d. */
  predicate Full(n: Node, d: nat)
  {
    match n
    case Terminal(_) => d == 0
    case Function(_, l, r) => d > 0 && Full(l, d - 1) && Full(r, d - 1)
  }

  /** A value `rand() % 10` can take: a whole number from 0 to 9. */
  predicate Digit(v: real)
  {
    v == v.Floor as real && 0 <= v.Floor <= 9
  }

  /** Operators from the alphabet and digit terminals throughout. */
  predicate WellFormed(n: Node)
  {
    match n
    case Terminal(v) => Digit(v)
    case Function(f, l, r) => f in Operators && WellFormed(l) && WellFormed(r)
  }

  /** Same node kinds and the same child structure. */
  predicate SameShape(a: Node, b: Node)
  {
    match a
    case Terminal(_) => b.Terminal?
    case Function(_, l, r) => b.Function? && SameShape(l, b.left) && SameShape(r, b.right)
  }

  lemma {:induction false} FullHasHeight(n: Node, d: nat)
    requires Full(n, d)
    ensures Height(n) == d
  {
    match n
    case Terminal(_) =>
    case Function(_, l, r) =>
      FullHasHeight(l, d - 1);
      FullHasHeight(r, d - 1);
  }

  lemma {:induction false} FullHasSize(n: Node, d: nat)
    requires Full(n, d)
    ensures Size(n) == Pow2(d + 1) - 1
  {
    match n
    case Terminal(_) =>
    case Function(_, l, r) =>
      FullHasSize(l, d - 1);
      FullHasSize(r, d - 1);
  }

  lemma {:induction false} SameShapeReflexive(n: Node)
    ensures SameShape(n, n)
  {
    match n
    case Terminal(_) =>
    case Function(_, l, r) =>
      SameShapeReflexive(l);
      SameShapeReflexive(r);
  }

  lemma {:induction false} SameShapeSameHeight(a: Node, b: Node)
    requires SameShape(a, b)
    ensures Height(a) == Height(b)
  {
    match a
    case Terminal(_) =>
    case Function(_, l, r) =>
      SameShapeSameHeight(l, b.left);
      SameShapeSameHeight(r, b.right);
  }

  /** `generateRandomTree(depth)`: an operator drawn for every internal node,
      a digit for every leaf, in pre-order; the result is paired with the
      position of the next unused draw. */
  function GenerateRandomTree(depth: nat, rand: Stream, k: nat): (r: (Node, nat))
    ensures Full(r.0, depth) && WellFormed(r.0)
    ensures r.1 == k + Size(r.0)
    decreases depth
  {
    if depth == 0 then
      (Terminal((rand(k) % 10) as real), k + 1)
    else
      var f := Operators[rand(k) % 4];
      var left := GenerateRandomTree(depth - 1, rand, k + 1);
      var right := GenerateRandomTree(depth - 1, rand, left.1);
      (Function(f, left.0, right.0), right.1)
  }

  /** `initializePopulation`. */
  method InitializePopulation(populationSize: int, maxDepth: int, rand: Stream, k: nat)
    returns (population: seq<Node>, next: nat)
    requires populationSize > 0 ==> maxDepth >= 0
    ensures |population| == if populationSize > 0 then populationSize else 0
    ensures forall i :: 0 <= i < |population| ==>
      Full(population[i], maxDepth) && WellFormed(population[i]) && Height(population[i]) == maxDepth
    ensures |population| == 0 ==> next == k
    ensures |population| > 0 ==> next == k + |population| * (Pow2(maxDepth + 1) - 1)
  {
    population := [];
    next := k;
    var i := 0;
    while i < populationSize
      invariant 0 <= i <= if populationSize > 0 then populationSize else 0
      invariant |population| == i
      invariant if populationSize > 0 then next == k + i * (Pow2(maxDepth + 1) - 1) else next == k
      invariant forall j :: 0 <= j < i ==>
        Full(population[j], maxDepth) && WellFormed(population[j]) && Height(population[j]) == maxDepth
    {
      var tree := GenerateRandomTree(maxDepth, rand, next);
      FullHasHeight(tree.0, maxDepth);
      FullHasSize(tree.0, maxDepth);
      population := population + [tree.0];
      next := tree.1;
      assert next == k + (i + 1) * (Pow2(maxDepth + 1) - 1);
      i := i + 1;
    }
  }

  /** `evaluate`: a terminal's value, or the operator applied to the two
      children's values; division by zero gives 1 and an operator outside
      the alphabet gives 0. The input row is passed but never read. */
  function Evaluate(n: Node, inputs: seq<real>): (r: real)
    ensures n.Terminal? ==> r == n.value
    ensures n.Function? && n.op !in Operators ==> r == 0.0
  {
    match n
    case Terminal(v) => v
    case Function(f, l, r) =>
      var a, b := Evaluate(l, inputs), Evaluate(r, inputs);
      if f == '+' then a + b
      else if f == '-' then a - b
      else if f == '*' then a * b
      else if f == '/' then (if b != 0.0 then a / b else 1.0)
      else 0.0
  }

  /** Protected division: a zero divisor gives 1, any other divisor a
      quotient that multiplied by it gives back the dividend. */
  lemma ProtectedDivision(l: Node, r: Node, inputs: seq<real>)
    ensures var q := Evaluate(Function('/', l, r), inputs);
      if Evaluate(r, inputs) == 0.0 then q == 1.0 else q * Evaluate(r, inputs) == Evaluate(l, inputs)
  {
  }

  /** The value of a tree does not depend on the input row. */
  lemma {:induction false} EvaluateIgnoresInputs(n: Node, x: seq<real>, y: seq<real>)
    ensures Evaluate(n, x) == Evaluate(n, y)
  {
    match n
    case Terminal(_) =>
    case Function(_, l, r) =>
      EvaluateIgnoresInputs(l, x, y);
      EvaluateIgnoresInputs(r, x, y);
  }

  /** The squared error of one row: never negative, and zero when the tree
      reproduces the output. */
  function RowError(tree: Node, row: seq<real>, output: real): (r: real)
    ensures r >= 0.0
    ensures Evaluate(tree, row) == output ==> r == 0.0
  {
    var e := Evaluate(tree, row) - output;
    SquareSign(e);
    e * e
  }

  /** The sum of squared errors over the first `count` rows, never negative. */
  function SquaredError(tree: Node, data: seq<seq<real>>, outputs: seq<real>, count: nat): (r: real)
    requires count <= |data| && count <= |outputs|
    ensures r >= 0.0
  {
    if count == 0 then 0.0
    else SquaredError(tree, data, outputs, count - 1) + RowError(tree, data[count - 1], outputs[count - 1])
  }

  lemma SquareSign(e: real)
    ensures e * e >= 0.0
    ensures e != 0.0 ==> e * e > 0.0
  {
  }

  /** A tree that reproduces every output has no error. */
  lemma {:induction false} ExactFitHasNoError(tree: Node, data: seq<seq<real>>, outputs: seq<real>, count: nat)
    requires count <= |data| && count <= |outputs|
    requires forall i :: 0 <= i < count ==> Evaluate(tree, data[i]) == outputs[i]
    ensures SquaredError(tree, data, outputs, count) == 0.0
  {
    if count > 0 {
      ExactFitHasNoError(tree, data, outputs, count - 1);
    }
  }

  /** `fitness`: the mean squared error of the tree over the rows; with no
      rows the quotient is 0 / 0, which is NaN. */
  method Fitness(tree: Node, data: seq<seq<real>>, outputs: seq<real>) returns (f: Mean)
    requires |outputs| >= |data|
    ensures |data| == 0 <==> f.NaN?
    ensures |data| > 0 ==> f == Finite(SquaredError(tree, data, outputs, |data|) / |data| as real)
    ensures f.Finite? ==> f.v >= 0.0
    ensures |data| > 0 && (forall i :: 0 <= i < |data| ==> Evaluate(tree, data[i]) == outputs[i]) ==> f == Finite(0.0)
  {
    var totalError := TotalError(tree, data, outputs);
    if forall i :: 0 <= i < |data| ==> Evaluate(tree, data[i]) == outputs[i] {
      ExactFitHasNoError(tree, data, outputs, |data|);
    }
    if |data| == 0 {
      f := NaN;
    } else {
      MeanOfNonNegative(totalError, |data|);
      f := Finite(totalError / |data| as real);
    }
  }

  /** The accumulation loop of `fitness`. */
  method TotalError(tree: Node, data: seq<seq<real>>, outputs: seq<real>) returns (totalError: real)
    requires |outputs| >= |data|
    ensures totalError == SquaredError(tree, data, outputs, |data|)
  {
    totalError := 0.0;
    var i := 0;
    while i < |data|
      invariant 0 <= i <= |data|
      invariant totalError == SquaredError(tree, data, outputs, i)
    {
      var result := Evaluate(tree, data[i]);
      totalError := totalError + (result - outputs[i]) * (result - outputs[i]);
      i := i + 1;
    }
  }

  /** A non-negative total over n > 0 rows has a non-negative mean, zero
      for a zero total. */
  lemma MeanOfNonNegative(total: real, n: nat)
    requires total >= 0.0 && n > 0
    ensures total / n as real >= 0.0
    ensures total == 0.0 ==> total / n as real == 0.0
  {
  }

  /** The position a running minimum over `s[..count]` settles on when it
      compares with `<` on doubles. When every value is a number, that is
      the first position holding the smallest one; a NaN never replaces the
      current best and, in first position, is never replaced. */
  function TournamentWinner(s: seq<Mean>, count: nat): (j: nat)
    requires 0 < count <= |s|
    ensures j < count
    ensures forall i :: j < i < count ==> !Less(s[i], s[j])
    ensures j > 0 ==> s[j].Finite?
    ensures s[0].NaN? ==> j == 0
    ensures (forall i :: 0 <= i < count ==> s[i].Finite?) ==>
      (forall i :: 0 <= i < count ==> s[j].v <= s[i].v) && (forall i :: 0 <= i < j ==> s[j].v < s[i].v)
  {
    if count == 1 then 0
    else
      var j := TournamentWinner(s, count - 1);
      if Less(s[count - 1], s[j]) then count - 1 else j
  }

  /** `tournamentSelection`: five members are drawn, but the contest reads
      `fitnesses[0..4]` by loop position, not the drawn members' fitness. The
      winner is the member drawn in the round where the running minimum of
      those five fitnesses settles. */
  method TournamentSelection(population: seq<Node>, fitnesses: seq<Mean>, rand: Stream, k: nat)
    returns (best: Node, next: nat)
    requires |population| > 0 && |fitnesses| >= TournamentSize
    ensures next == k + TournamentSize
    ensures best in population
    ensures best == population[rand(k + TournamentWinner(fitnesses, TournamentSize)) % |population|]
  {
    best := population[rand(k) % |population|];
    var bestFitness := fitnesses[0];
    ghost var winner := 0;
    var i := 1;
    while i < TournamentSize
      invariant 1 <= i <= TournamentSize
      invariant winner == TournamentWinner(fitnesses, i)
      invariant best == population[rand(k + winner) % |population|]
      invariant bestFitness == fitnesses[winner]
    {
      var contender := population[rand(k + i) % |population|];
      var contenderFitness := fitnesses[i];
      if Less(contenderFitness, bestFitness) {
        best := contender;
        bestFitness := contenderFitness;
        winner := i;
      }
      i := i + 1;
    }
    next := k + TournamentSize;
  }

  /** A possibly null node pointer. */
  datatype Pointer = Null | To(node: Node)

  /** `deepCopy`: null stays null; a node is rebuilt node by node. */
  function DeepCopy(p: Pointer): (r: Pointer)
    ensures r == p
  {
    match p
    case Null => Null
    case To(n) => To(CopyTree(n))
  }

  /** The non-null case of `deepCopy`. */
  function CopyTree(n: Node): (r: Node)
    ensures r == n
  {
    match n
    case Terminal(v) => Terminal(v)
    case Function(f, l, rt) => Function(f, CopyTree(l), CopyTree(rt))
  }

  /** `crossover`: a coin per visited pair of nodes; on 0 the rest of parent1
      is copied, otherwise a terminal on either side is copied (parent1's if
      it has one), otherwise a function node with parent2's operator whose
      children are crossed recursively. */
  function Crossover(p1: Node, p2: Node, rand: Stream, k: nat): (r: (Node, nat))
    ensures Height(r.0) <= Height(p1)
    ensures WellFormed(p1) && WellFormed(p2) ==> WellFormed(r.0)
    ensures rand(k) % 2 == 0 ==> r.0 == p1
    ensures rand(k) % 2 == 1 && p1.Function? && p2.Function? ==>
      r.0.Function? && r.0.op == p2.op
    ensures k < r.1 <= k + Size(p1)
    decreases p1
  {
    if rand(k) % 2 == 0 then
      (CopyTree(p1), k + 1)
    else if p1.Terminal? || p2.Terminal? then
      (CopyTree(if p1.Terminal? then p1 else p2), k + 1)
    else
      var left := Crossover(p1.left, p2.left, rand, k + 1);
      var right := Crossover(p1.right, p2.right, rand, left.1);
      (Function(p2.op, left.0, right.0), right.1)
  }

  /** What `mutate(n, d)` may do: a terminal it reaches gets a digit; a
      function node reached with d > 0 keeps its operator or gets one from
      the alphabet, and its children are mutated with d - 1; a function node
      reached with d <= 0 and everything below it stay as they were. */
  predicate MutatedWithin(r: Node, n: Node, d: int)
  {
    match n
    case Terminal(_) => r.Terminal? && Digit(r.value)
    case Function(f, l, rt) =>
      if d > 0 then
        r.Function? && (r.op == f || r.op in Operators)
        && MutatedWithin(r.left, l, d - 1) && MutatedWithin(r.right, rt, d - 1)
      else r == n
  }

  /** `mutate`: in the program it overwrites the nodes in place; here it
      returns the overwritten tree. */
  function Mutate(n: Node, maxDepth: int, rand: Stream, k: nat): (r: (Node, nat))
    ensures SameShape(r.0, n)
    ensures MutatedWithin(r.0, n, maxDepth)
    ensures WellFormed(n) ==> WellFormed(r.0)
    ensures k <= r.1 <= k + 2 * Size(n)
    decreases n
  {
    match n
    case Function(f, l, rt) =>
      if maxDepth > 0 then
        var f', k1 := if rand(k) % 2 == 0 then Operators[rand(k + 1) % 4] else f,
                      if rand(k) % 2 == 0 then k + 2 else k + 1;
        var left := Mutate(l, maxDepth - 1, rand, k1);
        var right := Mutate(rt, maxDepth - 1, rand, left.1);
        (Function(f', left.0, right.0), right.1)
      else
        SameShapeReflexive(n);
        (n, k)
    case Terminal(_) =>
      (Terminal((rand(k) % 10) as real), k + 1)
  }

  /** The tallest tree of a population (0 for none). */
  function MaxHeight(population: seq<Node>): (h: nat)
    ensures forall t :: t in population ==> Height(t) <= h
  {
    if |population| == 0 then 0
    else Max(Height(population[0]), MaxHeight(population[1..]))
  }

  /** `evolve`: every generation scores the population, then fills a new one
      of the same size with children of two tournament winners, each child
      mutated to depth 3 when the drawn `rand() / RAND_MAX` is below the
      mutation rate, and replaces the population with it. */
  method Evolve(start: seq<Node>, data: seq<seq<real>>, outputs: seq<real>,
                generations: int, mutationRate: real, rand: Stream, k: nat)
    returns (population: seq<Node>, next: nat)
    requires generations > 0 ==> |start| >= TournamentSize && |outputs| >= |data|
    ensures |population| == |start|
    ensures (forall t :: t in start ==> WellFormed(t)) ==> forall t :: t in population ==> WellFormed(t)
    ensures forall t :: t in population ==> Height(t) <= MaxHeight(start)
  {
    population := start;
    next := k;
    ghost var allWellFormed := forall t :: t in start ==> WellFormed(t);
    var g := 0;
    while g < generations
      invariant |population| == |start|
      invariant allWellFormed ==> forall t :: t in population ==> WellFormed(t)
      invariant forall t :: t in population ==> Height(t) <= MaxHeight(start)
    {
      var fitnesses: seq<Mean> := [];
      var i := 0;
      while i < |population|
        invariant 0 <= i <= |population| && |fitnesses| == i
      {
        var f := Fitness(population[i], data, outputs);
        fitnesses := fitnesses + [f];
        i := i + 1;
      }
      var newPopulation: seq<Node> := [];
      i := 0;
      while i < |population|
        invariant 0 <= i <= |population| && |newPopulation| == i
        invariant allWellFormed ==> forall t :: t in newPopulation ==> WellFormed(t)
        invariant forall t :: t in newPopulation ==> Height(t) <= MaxHeight(start)
      {
        var parent1, parent2;
        parent1, next := TournamentSelection(population, fitnesses, rand, next);
        parent2, next := TournamentSelection(population, fitnesses, rand, next);
        var crossed := Crossover(parent1, parent2, rand, next);
        var child := crossed.0;
        next := crossed.1;
        var coin := (rand(next) as real) / (RandMax as real);
        next := next + 1;
        if coin < mutationRate {
          var mutated := Mutate(child, MutationDepth, rand, next);
          SameShapeSameHeight(mutated.0, child);
          child := mutated.0;
          next := mutated.1;
        }
        newPopulation := newPopulation + [child];
        i := i + 1;
      }
      population := newPopulation;
      g := g + 1;
    }
  }

  /** `round` of the C library: halves go away from zero. */
  function Round(x: real): (r: int)
    ensures x >= 0.0 ==> x - 0.5 < r as real <= x + 0.5
    ensures x < 0.0 ==> x - 0.5 <= r as real < x + 0.5
  {
    if x >= 0.0 then (x + 0.5).Floor else -((-x + 0.5).Floor)
  }

  /** Number of rows among the first `count` whose rounded prediction equals
      the expected output. */
  function Correct(tree: Node, inputs: seq<seq<real>>, outputs: seq<real>, count: nat): (c: nat)
    requires count <= |inputs| && count <= |outputs|
    ensures c <= count
  {
    if count == 0 then 0
    else
      Correct(tree, inputs, outputs, count - 1)
      + (if Round(Evaluate(tree, inputs[count - 1])) as real == outputs[count - 1] then 1 else 0)
  }

  /** Every row is predicted correctly exactly when the count is full. */
  lemma {:induction false} AllCorrect(tree: Node, inputs: seq<seq<real>>, outputs: seq<real>, count: nat)
    requires count <= |inputs| && count <= |outputs|
    ensures Correct(tree, inputs, outputs, count) == count <==>
      forall i :: 0 <= i < count ==> Round(Evaluate(tree, inputs[i])) as real == outputs[i]
  {
    if count > 0 {
      AllCorrect(tree, inputs, outputs, count - 1);
    }
  }

  /** A count out of n as a percentage. */
  lemma Percentage(c: nat, n: nat)
    requires 0 < n && c <= n
    ensures 0.0 <= (c as real / n as real) * 100.0 <= 100.0
    ensures (c as real / n as real) * 100.0 == 100.0 <==> c == n
  {
    var q := c as real / n as real;
    assert q * n as real == c as real;
    if q >= 1.0 {
      assert q * n as real >= 1.0 * n as real;
    }
  }

  /** `calculateAccuracy`: the percentage of test rows whose rounded
      prediction equals the expected output; with no rows the quotient is
      0 / 0, which is NaN. */
  method CalculateAccuracy(tree: Node, testInputs: seq<seq<real>>, testOutputs: seq<real>)
    returns (accuracy: Mean)
    requires |testOutputs| >= |testInputs|
    ensures |testInputs| == 0 <==> accuracy.NaN?
    ensures |testInputs| > 0 ==>
      accuracy == Finite((Correct(tree, testInputs, testOutputs, |testInputs|) as real / |testInputs| as real) * 100.0)
    ensures accuracy.Finite? ==> 0.0 <= accuracy.v <= 100.0
    ensures accuracy.Finite? ==> (accuracy.v == 100.0 <==>
      forall i :: 0 <= i < |testInputs| ==> Round(Evaluate(tree, testInputs[i])) as real == testOutputs[i])
  {
    var correctPredictions := 0;
    var i := 0;
    while i < |testInputs|
      invariant 0 <= i <= |testInputs|
      invariant correctPredictions == Correct(tree, testInputs, testOutputs, i)
    {
      var predictedOutput := Evaluate(tree, testInputs[i]);
      if Round(predictedOutput) as real == testOutputs[i] {
        correctPredictions := correctPredictions + 1;
      }
      i := i + 1;
    }
    if |testInputs| == 0 {
      accuracy := NaN;
    } else {
      AllCorrect(tree, testInputs, testOutputs, |testInputs|);
      accuracy := Finite((correctPredictions as real / |testInputs| as real) * 100.0);
      Percentage(correctPredictions, |testInputs|);
    }
  }
}
