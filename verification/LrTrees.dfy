/** Parse trees, as the free interpretation of the parser's semantic values. */
module LrTrees {
  import opened LrTables

  /** A token as the lexer delivers it: its internal symbol number and its two kinds of value. */
  datatype Token = Token(kind: int, text: string, num: nat)

  /** `Skipped` is the leaf that an `error` token leaves on the stack: it stands for the input
      that recovery threw away. */
  datatype Tree =
    | Leaf(token: Token)
    | End
    | Skipped(input: seq<Token>)
    | Node(rule: int, kids: seq<Tree>)

  function Root(t: Tables, tree: Tree): int {
    match tree
    case Leaf(token) => token.kind
    case End => YYEOF
    case Skipped(_) => YYTERROR
    case Node(r, _) => if IsRule(t, r) then t.r1[r] else -1
  }

  function Roots(t: Tables, trees: seq<Tree>): (xs: seq<int>)
    ensures |xs| == |trees|
    ensures forall i | 0 <= i < |trees| :: xs[i] == Root(t, trees[i])
  {
    if trees == [] then [] else [Root(t, trees[0])] + Roots(t, trees[1..])
  }

  /** The input a tree was parsed from. */
  function Yield(tree: Tree): seq<Token> {
    match tree
    case Leaf(token) => [token]
    case End => []
    case Skipped(input) => input
    case Node(_, kids) => Yields(kids)
  }

  function Yields(trees: seq<Tree>): seq<Token> {
    if trees == [] then [] else Yield(trees[0]) + Yields(trees[1..])
  }

  /** The rules of a tree in the order the parser reduces by them. */
  function Postorder(tree: Tree): seq<int> {
    match tree
    case Node(r, kids) => Postorders(kids) + [r]
    case _ => []
  }

  function Postorders(trees: seq<Tree>): seq<int> {
    if trees == [] then [] else Postorder(trees[0]) + Postorders(trees[1..])
  }

  /** A derivation in the grammar: every inner node spells the right-hand side of its rule. */
  ghost predicate Derivation(t: Tables, tree: Tree) {
    match tree
    case Node(r, kids) => IsRule(t, r) && Roots(t, kids) == t.rhs[r] && Derivations(t, kids)
    case _ => true
  }

  ghost predicate Derivations(t: Tables, trees: seq<Tree>) {
    trees == [] || (Derivation(t, trees[0]) && Derivations(t, trees[1..]))
  }

  /** No part of the tree stands for skipped input. */
  predicate Clean(tree: Tree) {
    match tree
    case Skipped(_) => false
    case Node(_, kids) => AllClean(kids)
    case _ => true
  }

  predicate AllClean(trees: seq<Tree>) {
    trees == [] || (Clean(trees[0]) && AllClean(trees[1..]))
  }

  lemma {:induction false} YieldsConcat(a: seq<Tree>, b: seq<Tree>)
    ensures Yields(a + b) == Yields(a) + Yields(b)
  {
    if a == [] {
      assert a + b == b;
    } else {
      YieldsConcat(a[1..], b);
      assert (a + b)[1..] == a[1..] + b;
      assert Yields(a + b) == Yield(a[0]) + (Yields(a[1..]) + Yields(b));
    }
  }

  lemma {:induction false} PostordersConcat(a: seq<Tree>, b: seq<Tree>)
    ensures Postorders(a + b) == Postorders(a) + Postorders(b)
  {
    if a == [] {
      assert a + b == b;
    } else {
      PostordersConcat(a[1..], b);
      assert (a + b)[1..] == a[1..] + b;
      assert Postorders(a + b) == Postorder(a[0]) + (Postorders(a[1..]) + Postorders(b));
    }
  }

  lemma {:induction false} AllCleanConcat(a: seq<Tree>, b: seq<Tree>)
    ensures AllClean(a + b) == (AllClean(a) && AllClean(b))
  {
    if a == [] {
      assert a + b == b;
    } else {
      AllCleanConcat(a[1..], b);
      assert (a + b)[1..] == a[1..] + b;
    }
  }
}
