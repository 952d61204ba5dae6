/** How deep the stacks of the directive parser, src/analyzer/direc-tab.cc, can grow: its grammar
    recurs on the left only. */
module DirecDepth {
  import opened LrTables
  import opened LrTrees
  import opened LrEngine
  import opened LrSoundness
  import opened DirecTables
  import opened DirecRecovery

  function DeepAt0x(i: int): int {
    match i
    case 1 => 1 case 2 => 3 case 3 => 3 case 4 => 3 case 5 => 3 case 6 => 3 case 7 => 3 case 8 => 4 case 9 => 4
    case _ => 0
  }

  function DeepAt1x(i: int): int {
    match i
    case 10 => 3 case 11 => 3 case 12 => 4 case 13 => 4 case 14 => 4 case 15 => 4 case 16 => 4 case 17 => 3
    case 18 => 3 case 19 => 3 case _ => 0
  }

  function DeepAt2x(i: int): int {
    match i
    case 20 => 3 case 21 => 3 case 22 => 3 case 23 => 2 case 24 => 2 case 25 => 2 case 26 => 2 case 27 => 2
    case 28 => 3 case 29 => 3 case _ => 0
  }

  function DeepAt3x(i: int): int {
    match i
    case 30 => 3 case 31 => 3 case 32 => 3 case 33 => 3 case 34 => 3 case 35 => 3 case 36 => 3 case 37 => 2
    case 38 => 3 case 39 => 3 case _ => 0
  }

  function DeepAt4x(i: int): int {
    match i
    case 40 => 3 case 41 => 4 case 42 => 4 case 43 => 4 case 44 => 4 case 45 => 4 case 46 => 4 case 47 => 4
    case 48 => 4 case 49 => 4 case _ => 0
  }

  function DeepAt5x(i: int): int {
    match i
    case 50 => 4 case 51 => 4 case 52 => 4 case 53 => 4 case 54 => 4 case 55 => 4 case 56 => 3 case 57 => 3
    case 58 => 3 case 59 => 4 case _ => 0
  }

  function DeepAt6x(i: int): int {
    match i
    case 60 => 4 case 61 => 8 case 62 => 8 case 63 => 8 case 64 => 8 case 65 => 8 case 66 => 4 case 67 => 4
    case 68 => 4 case 69 => 4 case _ => 0
  }

  function DeepAt7x(i: int): int {
    match i
    case 70 => 4 case 71 => 4 case 72 => 4 case 73 => 4 case 74 => 5 case 75 => 5 case 76 => 5 case 77 => 5
    case 78 => 5 case 79 => 5 case _ => 0
  }

  function DeepAt8x(i: int): int {
    match i
    case 80 => 5 case 81 => 5 case 82 => 5 case 83 => 5 case 84 => 5 case 85 => 5 case 86 => 5 case 87 => 5
    case 88 => 5 case 89 => 5 case _ => 0
  }

  function DeepAt9x(i: int): int {
    match i
    case 90 => 6 case 91 => 6 case 92 => 6 case 93 => 8 case 94 => 6 case 95 => 6 case 96 => 6 case 97 => 6
    case 98 => 6 case 99 => 7 case _ => 0
  }

  function DeepAt10x(i: int): int {
    match i
    case 100 => 9 case 101 => 7 case 102 => 7 case 103 => 7 case 104 => 8 case 105 => 10 case 106 => 8 case 107 => 8
    case 108 => 8 case 109 => 8 case _ => 0
  }

  function DeepAt11x(i: int): int {
    match i
    case 110 => 13 case 111 => 13 case 112 => 13 case 113 => 13 case 114 => 11 case 115 => 11 case 116 => 11
    case 117 => 9 case 118 => 9 case 119 => 12 case _ => 0
  }

  function DeepAt12x(i: int): int {
    match i
    case 120 => 12 case 121 => 10 case 122 => 13 case 123 => 11 case 124 => 1 case 125 => 2 case _ => 0
  }

  /** The most states that can lie below a state. */
  function DeepAt(i: int): int {
    if i < 60 then
      if i < 30 then
        if i < 10 then
          DeepAt0x(i)
        else
          if i < 20 then DeepAt1x(i) else DeepAt2x(i)
      else
        if i < 40 then
          DeepAt3x(i)
        else
          if i < 50 then DeepAt4x(i) else DeepAt5x(i)
    else
      if i < 90 then
        if i < 70 then
          DeepAt6x(i)
        else
          if i < 80 then DeepAt7x(i) else DeepAt8x(i)
      else
        if i < 110 then
          if i < 100 then DeepAt9x(i) else DeepAt10x(i)
        else
          if i < 120 then DeepAt11x(i) else DeepAt12x(i)
  }

  lemma Deeper1(n: int, p: int)
    requires 1 <= n < 12 && 0 <= p < 126 && Below(n, p) == true
    ensures DeepAt(p) < DeepAt(n)
  {
  }

  lemma Deeper12(n: int, p: int)
    requires 12 <= n < 20 && 0 <= p < 126 && Below(n, p) == true
    ensures DeepAt(p) < DeepAt(n)
  {
  }

  lemma Deeper20(n: int, p: int)
    requires 20 <= n < 26 && 0 <= p < 126 && Below(n, p) == true
    ensures DeepAt(p) < DeepAt(n)
  {
  }

  lemma Deeper26(n: int, p: int)
    requires 26 <= n < 33 && 0 <= p < 126 && Below(n, p) == true
    ensures DeepAt(p) < DeepAt(n)
  {
  }

  lemma Deeper33(n: int, p: int)
    requires 33 <= n < 41 && 0 <= p < 126 && Below(n, p) == true
    ensures DeepAt(p) < DeepAt(n)
  {
  }

  lemma Deeper41(n: int, p: int)
    requires 41 <= n < 50 && 0 <= p < 126 && Below(n, p) == true
    ensures DeepAt(p) < DeepAt(n)
  {
  }

  lemma Deeper50(n: int, p: int)
    requires 50 <= n < 60 && 0 <= p < 126 && Below(n, p) == true
    ensures DeepAt(p) < DeepAt(n)
  {
  }

  lemma Deeper60(n: int, p: int)
    requires 60 <= n < 70 && 0 <= p < 126 && Below(n, p) == true
    ensures DeepAt(p) < DeepAt(n)
  {
  }

  lemma Deeper70(n: int, p: int)
    requires 70 <= n < 80 && 0 <= p < 126 && Below(n, p) == true
    ensures DeepAt(p) < DeepAt(n)
  {
  }

  lemma Deeper80(n: int, p: int)
    requires 80 <= n < 92 && 0 <= p < 126 && Below(n, p) == true
    ensures DeepAt(p) < DeepAt(n)
  {
  }

  lemma Deeper92(n: int, p: int)
    requires 92 <= n < 108 && 0 <= p < 126 && Below(n, p) == true
    ensures DeepAt(p) < DeepAt(n)
  {
  }

  lemma Deeper108(n: int, p: int)
    requires 108 <= n < 126 && 0 <= p < 126 && Below(n, p) == true
    ensures DeepAt(p) < DeepAt(n)
  {
  }

  lemma Deeper(n: int, p: int)
    requires 0 < n < 126 && 0 <= p < 126 && Below(n, p) == true
    ensures DeepAt(p) < DeepAt(n)
  {
    hide Below, DeepAt;
    if n < 12 {
      Deeper1(n, p);
    } else if n < 20 {
      Deeper12(n, p);
    } else if n < 26 {
      Deeper20(n, p);
    } else if n < 33 {
      Deeper26(n, p);
    } else if n < 41 {
      Deeper33(n, p);
    } else if n < 50 {
      Deeper41(n, p);
    } else if n < 60 {
      Deeper50(n, p);
    } else if n < 70 {
      Deeper60(n, p);
    } else if n < 80 {
      Deeper70(n, p);
    } else if n < 92 {
      Deeper80(n, p);
    } else if n < 108 {
      Deeper92(n, p);
    } else {
      Deeper108(n, p);
    }
  }

  lemma DepthBounded(s: int)
    ensures 0 <= DeepAt(s) <= 13
  {
  }

  /** A state is never higher on a stack than its depth allows. */
  lemma {:induction false} DepthOfStates(states: seq<int>, trees: seq<Tree>, i: nat)
    requires StackOk(TABLES, CERT, states, trees) && i < |states|
    ensures i <= DeepAt(states[i])
  {
    hide Below, DeepAt, EntryAt, Built, Move, Root;
    DepthBounded(states[i]);
    if i > 0 {
      DepthOfStates(states, trees, i - 1);
      StackLinked(states, trees);
      assert Link(TABLES, states[i - 1], trees[i - 1], states[i]);
      StatesAre(states[i - 1]);
      Deeper(states[i], states[i - 1]);
    }
  }

  /** No stack of the directive parser has more than 14 states, on any input: it never overflows, and
      never even outgrows its first arrays. */
  lemma StackIsShallow(input: seq<Token>, n: nat)
    requires InputOk(TABLES, input)
    ensures |Run(TABLES, input, n).states| <= 14 && !Run(TABLES, input, n).status.Overflowed?
  {
    hide Run, DeepAt, LrTables.Valid;
    TablesValid();
    RunSound(TABLES, CERT, input, n);
    OverflowsAtDepth(TABLES, input, n);
    var c := Run(TABLES, input, n);
    DepthOfStates(c.states, c.trees, |c.trees|);
    DepthBounded(c.states[|c.trees|]);
  }
}
