/** The directive parser as a whole, src/analyzer/direc-tab.cc: what a file is, which of its pieces
    are skipped, and what the parser returns. */
module DirecParser {
  import opened LrTables
  import opened LrTrees
  import opened LrEngine
  import opened LrSoundness
  import opened LrTermination
  import opened LrCompleteness
  import opened LrParser
  import opened DirecTables
  import opened DirecLookahead
  import opened DirecRecovery
  import opened DirecDepth

  const FILE := 45
  const DISPATCH := 47
  const SPECIFICATION := 48
  const SPECIFICATION_SEMI := 49
  const DIRECTIVE := 50

  // ---- Pieces ---------------------------------------------------------------------------------------

  /** The tokens between the semicolons. */
  function Pieces(tokens: seq<Token>): (pieces: seq<seq<Token>>)
    ensures |pieces| > 0
  {
    if tokens == [] then [[]]
    else if tokens[0].kind == SEMICOLON then [[]] + Pieces(tokens[1..])
    else Before(tokens[0], Pieces(tokens[1..]))
  }

  /** A token in front of the first piece. */
  function Before(token: Token, pieces: seq<seq<Token>>): seq<seq<Token>>
    requires |pieces| > 0
  {
    [[token] + pieces[0]] + pieces[1..]
  }

  /** More tokens at the end of the last piece. */
  function Longer(pieces: seq<seq<Token>>, tokens: seq<Token>): seq<seq<Token>>
    requires |pieces| > 0
  {
    pieces[..|pieces| - 1] + [pieces[|pieces| - 1] + tokens]
  }

  lemma BeforeAndAfter(token: Token, p: seq<seq<Token>>, q: seq<seq<Token>>)
    requires |p| > 0
    ensures Before(token, p + q) == Before(token, p) + q
    ensures [[]] + (p + q) == ([[]] + p) + q
  {
    assert (p + q)[1..] == p[1..] + q;
  }

  lemma BeforeLonger(token: Token, p: seq<seq<Token>>, b: seq<Token>)
    requires |p| > 0
    ensures Before(token, Longer(p, b)) == Longer(Before(token, p), b)
    ensures [[]] + Longer(p, b) == Longer([[]] + p, b)
  {
    if |p| == 1 {
      assert ([token] + p[0]) + b == [token] + (p[0] + b);
      assert Longer(p, b) == [p[0] + b] && Before(token, p) == [[token] + p[0]];
    } else {
      assert Longer(p, b)[1..] == Longer(p[1..], b);
      assert Before(token, p)[..|p| - 1] == [[token] + p[0]] + p[1..|p| - 1];
    }
  }

  lemma {:induction false} OnePiece(tokens: seq<Token>)
    requires NoSemicolon(tokens)
    ensures Pieces(tokens) == [tokens]
  {
    if tokens != [] {
      OnePiece(tokens[1..]);
      assert [tokens[0]] + tokens[1..] == tokens;
    }
  }

  /** A semicolon separates the pieces before it from those after it. */
  lemma {:induction false} PiecesApart(a: seq<Token>, semicolon: Token, b: seq<Token>)
    requires semicolon.kind == SEMICOLON
    ensures Pieces(a + [semicolon] + b) == Pieces(a) + Pieces(b)
  {
    hide Before;
    var all := a + [semicolon] + b;
    if a == [] {
      assert all[1..] == b;
    } else {
      PiecesApart(a[1..], semicolon, b);
      assert all[1..] == a[1..] + [semicolon] + b && all[0] == a[0];
      BeforeAndAfter(a[0], Pieces(a[1..]), Pieces(b));
    }
  }

  /** A row without semicolons at the end makes the last piece longer. */
  lemma {:induction false} PiecesGrow(a: seq<Token>, b: seq<Token>)
    requires NoSemicolon(b)
    ensures Pieces(a + b) == Longer(Pieces(a), b)
  {
    hide Before, Longer, NoSemicolon;
    if a == [] {
      OnePiece(b);
      assert a + b == b;
      LongerNothing(b);
    } else {
      PiecesGrow(a[1..], b);
      assert (a + b)[1..] == a[1..] + b && (a + b)[0] == a[0];
      BeforeLonger(a[0], Pieces(a[1..]), b);
    }
  }

  lemma LongerNothing(b: seq<Token>)
    ensures Longer([[]], b) == [b]
  {
    assert [] + b == b;
  }

  // ---- Directives -------------------------------------------------------------------------------------

  function Kid(tree: Tree, i: nat): Tree {
    if tree.Node? && i < |tree.kids| then tree.kids[i] else End
  }

  /** The directives of a specification, in order; `End` stands where there is none between two
      semicolons, before the first or after the last. */
  function DirectivesOf(tree: Tree): (directives: seq<Tree>)
    ensures |directives| > 0
    decreases tree
  {
    if !tree.Node? || |tree.kids| == 0 then [End]
    else match tree.rule
      case 6 => [tree.kids[0]]
      case 7 => var before := DirectivesOf(tree.kids[0]); before[..|before| - 1] + [Kid(tree, 1)]
      case 8 => DirectivesOf(tree.kids[0])
      case 9 => DirectivesOf(tree.kids[0]) + [End]
      case _ => [End, End]
  }

  /** A piece of a file is empty, an error-free directive, or skipped as a whole. */
  ghost predicate IsPiece(t: Tables, tree: Tree) {
    || tree == End
    || (Root(t, tree) == DIRECTIVE && Derivation(t, tree)
        && (Clean(tree) || (tree.Node? && |tree.kids| == 1 && tree.kids[0].Skipped?)))
  }

  /** `trees` are the pieces of `tokens`, one for one. */
  ghost predicate ArePieces(t: Tables, trees: seq<Tree>, tokens: seq<Token>) {
    && |trees| == |Pieces(tokens)|
    && forall i | 0 <= i < |trees| :: Yield(trees[i]) == Pieces(tokens)[i] && IsPiece(t, trees[i])
  }

  lemma DirectiveRules(r: int, k: int)
    requires 1 <= r < 79 && R1At(r) == DIRECTIVE && 0 <= k < LengthAt(r)
    ensures r == 11 ==> LengthAt(r) == 1 && SymbolAt(r, k) == YYTERROR
    ensures r != 11 ==> IsInner(SymbolAt(r, k))
  {
  }

  lemma Rule11()
    ensures LengthAt(11) == 1 && SymbolAt(11, 0) == YYTERROR
  {
  }

  lemma DirectiveIsPiece(tree: Tree)
    requires Derivation(TABLES, tree) && Root(TABLES, tree) == DIRECTIVE && tree.Node? && SkipsPieces(tree)
    ensures IsPiece(TABLES, tree) && NoSemicolon(Yield(tree))
  {
    hide R1At, LengthAt, SymbolAt, Root, Derivation;
    NodeSymbols(tree);
    if tree.rule == 11 {
      Rule11();
      ErrorLeaf(tree.kids[0]);
      OnlyKid(tree);
    } else {
      forall i | 0 <= i < |tree.kids| ensures IsInner(Root(TABLES, tree.kids[i])) {
        DirectiveRules(tree.rule, i);
      }
      InnerTrees(tree.kids);
    }
  }

  lemma ErrorLeaf(tree: Tree)
    requires Root(TABLES, tree) == YYTERROR
    ensures tree.Skipped? || (tree.Leaf? && tree.token.kind == YYTERROR)
  {
    hide R1At;
    match tree
    case Node(r, _) =>
      RulesAre(r);
      NodesAreNonterminals(r);
    case _ =>
  }

  lemma OnlyKid(tree: Tree)
    requires tree.Node? && |tree.kids| == 1
    ensures Yield(tree) == Yield(tree.kids[0]) && Clean(tree) == Clean(tree.kids[0])
    ensures SkipsPieces(tree) ==> SkipsPieces(tree.kids[0])
  {
    var kids := tree.kids;
    assert kids[1..] == [];
    assert Yields(kids) == Yield(kids[0]) + Yields(kids[1..]) && AllClean(kids) == Clean(kids[0]);
    assert AllSkipPieces(kids) == SkipsPieces(kids[0]);
  }

  // ---- Specifications -----------------------------------------------------------------------------------

  lemma SpecificationRules(r: int)
    requires 1 <= r < 79
    ensures R1At(r) == SPECIFICATION <==> 6 <= r <= 8
    ensures R1At(r) == SPECIFICATION_SEMI <==> r == 9 || r == 10
    ensures LengthAt(6) == 1 && SymbolAt(6, 0) == DIRECTIVE
    ensures LengthAt(7) == 2 && SymbolAt(7, 0) == SPECIFICATION_SEMI && SymbolAt(7, 1) == DIRECTIVE
    ensures LengthAt(8) == 1 && SymbolAt(8, 0) == SPECIFICATION_SEMI
    ensures LengthAt(9) == 2 && SymbolAt(9, 0) == SPECIFICATION && SymbolAt(9, 1) == SEMICOLON
    ensures LengthAt(10) == 1 && SymbolAt(10, 0) == SEMICOLON
  {
  }

  /** All leaves are tokens that the lexer can deliver, or skipped input, or the end. */
  ghost predicate Lexed(t: Tables, tree: Tree) {
    match tree
    case Leaf(token) => IsKind(t, token.kind) && token.kind != YYEOF
    case Node(_, kids) => AllLexed(t, kids)
    case _ => true
  }

  ghost predicate AllLexed(t: Tables, trees: seq<Tree>) {
    trees == [] || (Lexed(t, trees[0]) && AllLexed(t, trees[1..]))
  }

  lemma {:induction false} BuiltIsLexed(p: int, tree: Tree)
    requires Built(TABLES, CERT, p, tree)
    ensures Lexed(TABLES, tree)
    decreases tree
  {
    hide IsKind, IsRule, Item;
    if tree.Node? {
      AllBuiltIsLexed(p, tree.kids);
    }
  }

  lemma {:induction false} AllBuiltIsLexed(p: int, trees: seq<Tree>)
    requires BuiltAll(TABLES, CERT, p, trees)
    ensures AllLexed(TABLES, trees)
    decreases trees
  {
    hide Move;
    if trees != [] {
      BuiltIsLexed(p, trees[0]);
      AllBuiltIsLexed(Move(TABLES, p, trees[0]), trees[1..]);
    }
  }

  /** Nonterminals stand at inner nodes, and semicolons at leaves. */
  lemma RootIs(tree: Tree)
    requires Derivation(TABLES, tree) && Lexed(TABLES, tree)
    ensures 45 <= Root(TABLES, tree) < 72 ==> tree.Node?
    ensures Root(TABLES, tree) == SEMICOLON ==> tree.Leaf? && tree.token.kind == SEMICOLON
  {
    hide R1At;
    match tree
    case Node(r, _) =>
      RulesAre(r);
      NodesAreNonterminals(r);
    case Leaf(token) => StatesAre(token.kind);
    case _ =>
  }

  /** What is known of a tree is known of its children. */
  lemma {:induction false} KidKnown(kids: seq<Tree>, i: nat)
    requires i < |kids| && Derivations(TABLES, kids) && AllLexed(TABLES, kids) && AllSkipPieces(kids)
    ensures Derivation(TABLES, kids[i]) && Lexed(TABLES, kids[i]) && SkipsPieces(kids[i])
    decreases i
  {
    hide Derivation, Lexed, SkipsPieces;
    if i > 0 {
      KidKnown(kids[1..], i - 1);
    }
  }

  lemma NodeKnown(tree: Tree)
    requires tree.Node? && Lexed(TABLES, tree) && SkipsPieces(tree)
    ensures AllLexed(TABLES, tree.kids) && AllSkipPieces(tree.kids)
  {
  }

  lemma TwoKids(tree: Tree)
    requires tree.Node? && |tree.kids| == 2
    ensures Yield(tree) == Yield(tree.kids[0]) + Yield(tree.kids[1])
  {
    var kids := tree.kids;
    assert kids[1..][1..] == [] && kids[1..][0] == kids[1];
    assert Yields(kids[1..]) == Yield(kids[1]) + Yields([]) == Yield(kids[1]);
    assert Yields(kids) == Yield(kids[0]) + Yields(kids[1..]);
  }

  lemma EmptyPiece(t: Tables)
    ensures IsPiece(t, End) && Yield(End) == [] && Pieces([]) == [[]]
  {
  }

  /** A semicolon at the end adds an empty piece. */
  lemma PieceAdded(trees: seq<Tree>, tokens: seq<Token>, semicolon: Token)
    requires ArePieces(TABLES, trees, tokens) && semicolon.kind == SEMICOLON
    ensures ArePieces(TABLES, trees + [End], tokens + [semicolon])
  {
    hide IsPiece, Pieces;
    EmptyPiece(TABLES);
    PiecesApart(tokens, semicolon, []);
    assert tokens + [semicolon] + [] == tokens + [semicolon];
  }

  /** A directive at the end fills the empty piece there. */
  lemma PieceFilled(trees: seq<Tree>, tokens: seq<Token>, directive: Tree)
    requires ArePieces(TABLES, trees, tokens) && trees != [] && trees[|trees| - 1] == End
    requires IsPiece(TABLES, directive) && NoSemicolon(Yield(directive))
    ensures ArePieces(TABLES, trees[..|trees| - 1] + [directive], tokens + Yield(directive))
  {
    hide IsPiece, Pieces, NoSemicolon;
    EmptyPiece(TABLES);
    PiecesGrow(tokens, Yield(directive));
    assert Pieces(tokens)[|trees| - 1] == [];
    assert [] + Yield(directive) == Yield(directive);
  }

  lemma PieceAlone(directive: Tree)
    requires IsPiece(TABLES, directive) && NoSemicolon(Yield(directive))
    ensures ArePieces(TABLES, [directive], Yield(directive))
  {
    hide IsPiece, NoSemicolon;
    OnePiece(Yield(directive));
  }

  lemma NoPiece()
    ensures ArePieces(TABLES, [End], [])
  {
    EmptyPiece(TABLES);
  }

  /** The directives of a specification are the pieces that its semicolons leave. */
  lemma {:induction false} SpecificationPieces(tree: Tree)
    requires Derivation(TABLES, tree) && Lexed(TABLES, tree) && SkipsPieces(tree)
    requires Root(TABLES, tree) == SPECIFICATION || Root(TABLES, tree) == SPECIFICATION_SEMI
    ensures ArePieces(TABLES, DirectivesOf(tree), Yield(tree))
    ensures Root(TABLES, tree) == SPECIFICATION_SEMI ==> DirectivesOf(tree)[|DirectivesOf(tree)| - 1] == End
    decreases tree
  {
    hide R1At, LengthAt, SymbolAt, Root, Derivation, Lexed, SkipsPieces, ArePieces, IsPiece, NoSemicolon;
    RootIs(tree);
    NodeSymbols(tree);
    NodeKnown(tree);
    var r, kids := tree.rule, tree.kids;
    SpecificationRules(r);
    KidKnown(kids, 0);
    if r == 10 {
      RootIs(kids[0]);
      NoPiece();
      PieceAdded([End], [], kids[0].token);
      OnlyKid(tree);
      assert [] + [kids[0].token] == Yield(tree) && [End] + [End] == DirectivesOf(tree);
    } else if r == 6 {
      RootIs(kids[0]);
      DirectiveIsPiece(kids[0]);
      PieceAlone(kids[0]);
      OnlyKid(tree);
    } else {
      SpecificationPieces(kids[0]);
      if r == 8 {
        OnlyKid(tree);
      } else {
        KidKnown(kids, 1);
        RootIs(kids[1]);
        TwoKids(tree);
        if r == 9 {
          PieceAdded(DirectivesOf(kids[0]), Yield(kids[0]), kids[1].token);
        } else {
          DirectiveIsPiece(kids[1]);
          PieceFilled(DirectivesOf(kids[0]), Yield(kids[0]), kids[1]);
        }
      }
    }
  }

  // ---- Files ---------------------------------------------------------------------------------------------

  /** A file is a specification, or nothing, or a single annotation. */
  predicate IsSpecification(file: Tree) {
    file.Node? && |file.kids| == 2 && file.kids[1].Node? && file.kids[1].rule == 3 && |file.kids[1].kids| == 1
  }

  /** What the parser accepts: in a specification, each piece between two semicolons is empty, an
      error-free directive, or skipped as a whole; nothing else is skipped. */
  ghost predicate IsFile(t: Tables, file: Tree) {
    && Derivation(t, file) && Root(t, file) == Start(t)
    && (if IsSpecification(file) then ArePieces(t, DirectivesOf(file.kids[1].kids[0]), Yield(file)) else Clean(file))
  }

  lemma FileRules(r: int)
    requires 1 <= r < 79
    ensures R1At(r) == FILE <==> r == 2
    ensures R1At(r) == DISPATCH <==> 3 <= r <= 5
    ensures R1At(r) == 46 <==> r == 1
    ensures LengthAt(1) == 0 && LengthAt(2) == 2 && SymbolAt(2, 0) == 46 && SymbolAt(2, 1) == DISPATCH
    ensures LengthAt(3) == 1 && SymbolAt(3, 0) == SPECIFICATION && LengthAt(4) == 0
    ensures LengthAt(5) == 1 && IsInner(SymbolAt(5, 0))
  {
  }

  lemma StartIs()
    ensures Start(TABLES) == FILE
  {
  }

  lemma NoKids(tree: Tree)
    requires tree.Node? && |tree.kids| == 0
    ensures Yield(tree) == [] && Clean(tree)
  {
  }

  lemma TwoClean(tree: Tree)
    requires tree.Node? && |tree.kids| == 2 && Clean(tree.kids[0]) && Clean(tree.kids[1])
    ensures Clean(tree)
  {
    var kids := tree.kids;
    assert kids[1..][1..] == [] && kids[1..][0] == kids[1];
    assert AllClean(kids[1..]);
  }

  lemma FileIs(file: Tree)
    requires Derivation(TABLES, file) && Lexed(TABLES, file) && SkipsPieces(file) && Root(TABLES, file) == FILE
    ensures IsFile(TABLES, file)
  {
    hide R1At, LengthAt, SymbolAt, Root, Derivation, Lexed, SkipsPieces, ArePieces, Clean, DirectivesOf;
    StartIs();
    RootIs(file);
    NodeSymbols(file);
    NodeKnown(file);
    FileRules(file.rule);
    KidKnown(file.kids, 0);
    KidKnown(file.kids, 1);
    var flag, dispatch := file.kids[0], file.kids[1];
    RootIs(flag);
    RootIs(dispatch);
    NodeSymbols(flag);
    FileRules(flag.rule);
    NoKids(flag);
    NodeSymbols(dispatch);
    NodeKnown(dispatch);
    FileRules(dispatch.rule);
    TwoKids(file);
    if dispatch.rule == 3 {
      KidKnown(dispatch.kids, 0);
      SpecificationPieces(dispatch.kids[0]);
      OnlyKid(dispatch);
      assert Yield(file) == Yield(dispatch.kids[0]);
    } else {
      if dispatch.rule == 4 {
        NoKids(dispatch);
      } else {
        KidKnown(dispatch.kids, 0);
        InnerTree(dispatch.kids[0]);
        OnlyKid(dispatch);
      }
      TwoClean(file);
    }
  }

  /** The tree on a stack above the bottom is a file, when the state above it says so. */
  lemma FileBelow(input: seq<Token>, c: Config)
    requires Inv(TABLES, CERT, input, c) && SkipsWell(c) && |c.trees| > 0 && Root(TABLES, c.trees[0]) == FILE
    ensures IsFile(TABLES, c.trees[0])
  {
    hide LrTables.Valid, IsFile, SkipsPieces, Root, Derivation, Lexed;
    InvStack(input, c);
    assert Built(TABLES, CERT, c.states[0], c.trees[0]);
    BuiltIsDerivation(TABLES, CERT, 0, c.trees[0]);
    BuiltIsLexed(0, c.trees[0]);
    FileIs(c.trees[0]);
  }

  // ---- Whole runs ----------------------------------------------------------------------------------------

  /** An accepted input is a file, and nothing of it is skipped if no error was reported. */
  lemma {:induction false} AcceptedFile(input: seq<Token>, n: nat)
    requires InputOk(TABLES, input) && Run(TABLES, input, n).status.Accepted?
    ensures |Run(TABLES, input, n).trees| == 2
    ensures var c := Run(TABLES, input, n);
      IsFile(TABLES, c.trees[0]) && Yield(c.trees[0]) == input && (c.nerrs == 0 ==> Clean(c.trees[0]))
  {
    hide Run, Derivation, LrTables.Valid, Inv, SkipsWell, Built, IsFile;
    TablesValid();
    RunSound(TABLES, CERT, input, n);
    AcceptSound(TABLES, CERT, input, n);
    RunSkipsWell(input, n);
    StartIs();
    FileBelow(input, Run(TABLES, input, n));
  }

  /** A run that gives up has read a whole file, and the input goes on after it. */
  lemma {:induction false} AbortedRun(input: seq<Token>, n: nat) returns (file: Tree)
    requires InputOk(TABLES, input) && Run(TABLES, input, n).status.Aborted?
    ensures IsFile(TABLES, file) && Yield(file) < input
  {
    hide Run, LrTables.Valid, Inv, SkipsWell, IsFile;
    TablesValid();
    var m := AbortedAt(input, n);
    var c := Run(TABLES, input, m);
    RunSound(TABLES, CERT, input, m);
    RunSkipsWell(input, m);
    file := c.trees[0];
    FileReadTree(input, c);
    FileBelow(input, c);
  }

  lemma FileReadTree(input: seq<Token>, c: Config)
    requires Inv(TABLES, CERT, input, c) && FileGoesOn(c)
    ensures Root(TABLES, c.trees[0]) == FILE && Yield(c.trees[0]) < input
  {
    hide LrTables.Valid, Root, Linked, Built, Move;
    InvStack(input, c);
    StackLinked(c.states, c.trees);
    LinkAt(c.states, c.trees, 0);
    FileEntry();
    assert c.trees[1..] == [] && Yields(c.trees) == Yield(c.trees[0]) + Yields(c.trees[1..]);
    assert Yields(c.trees) == Yield(c.trees[0]);
    assert Yields(c.trees) + Ahead(c) == input;
  }

  lemma FileEntry()
    ensures EntryAt(FILE_READ) == FILE
  {
  }

  // ---- Files without an error -------------------------------------------------------------------------

  const ANNOTATION := 60

  /** `tree` derives `tokens` from symbol `x`, and no part of it is skipped. */
  ghost predicate Derives(t: Tables, x: int, tree: Tree, tokens: seq<Token>) {
    Root(t, tree) == x && Derivation(t, tree) && Proper(t, tree) && Yield(tree) == tokens
  }

  ghost predicate IsGood(t: Tables, piece: seq<Token>) {
    piece == [] || exists tree :: Derives(t, DIRECTIVE, tree, piece)
  }

  ghost predicate AllGood(t: Tables, pieces: seq<seq<Token>>) {
    forall i | 0 <= i < |pieces| :: IsGood(t, pieces[i])
  }

  /** A file without an error: every piece is empty or a directive, or all of it is one annotation. */
  ghost predicate IsGoodFile(t: Tables, tokens: seq<Token>) {
    AllGood(t, Pieces(tokens)) || exists tree :: Derives(t, ANNOTATION, tree, tokens)
  }

  lemma DerivesToken(token: Token)
    requires IsKind(TABLES, token.kind) && token.kind != YYEOF
    ensures Derives(TABLES, token.kind, Leaf(token), [token])
  {
  }

  lemma NodeDerives(r: int, kids: seq<Tree>)
    requires IsRule(TABLES, r) && Roots(TABLES, kids) == TABLES.rhs[r]
    requires Derivations(TABLES, kids) && AllProper(TABLES, kids)
    ensures Derivation(TABLES, Node(r, kids)) && Proper(TABLES, Node(r, kids))
    ensures Root(TABLES, Node(r, kids)) == TABLES.r1[r]
  {
  }

  lemma DerivesNothing(r: int)
    requires 1 <= r < 79 && LengthAt(r) == 0
    ensures Derives(TABLES, R1At(r), Node(r, []), [])
  {
    hide LengthAt, R1At, IsRule;
    RulesAre(r);
    NodeDerives(r, []);
    NoKids(Node(r, []));
  }

  lemma DerivesOne(r: int, tree: Tree, tokens: seq<Token>)
    requires 1 <= r < 79 && LengthAt(r) == 1 && Derives(TABLES, SymbolAt(r, 0), tree, tokens)
    ensures Derives(TABLES, R1At(r), Node(r, [tree]), tokens)
  {
    hide LengthAt, R1At, SymbolAt, IsRule;
    RulesAre(r);
    SymbolsAre(r, 0);
    OnlyKid(Node(r, [tree]));
    assert [tree][1..] == [];
    assert Roots(TABLES, [tree]) == [Root(TABLES, tree)] == TABLES.rhs[r];
    NodeDerives(r, [tree]);
  }

  lemma DerivesTwo(r: int, a: Tree, u: seq<Token>, b: Tree, v: seq<Token>)
    requires 1 <= r < 79 && LengthAt(r) == 2
    requires Derives(TABLES, SymbolAt(r, 0), a, u) && Derives(TABLES, SymbolAt(r, 1), b, v)
    ensures Derives(TABLES, R1At(r), Node(r, [a, b]), u + v)
  {
    hide LengthAt, R1At, SymbolAt, IsRule;
    RulesAre(r);
    SymbolsAre(r, 0);
    SymbolsAre(r, 1);
    TwoKids(Node(r, [a, b]));
    assert [a, b][1..] == [b] && [b][1..] == [];
    assert Roots(TABLES, [a, b]) == [Root(TABLES, a), Root(TABLES, b)] == TABLES.rhs[r];
    assert AllProper(TABLES, []) && Derivations(TABLES, []);
    assert AllProper(TABLES, [b]) && Derivations(TABLES, [b]);
    NodeDerives(r, [a, b]);
  }

  /** The last semicolon, or -1. */
  function LastSemicolon(tokens: seq<Token>): (i: int)
    ensures -1 <= i < |tokens| && NoSemicolon(tokens[i + 1..]) && (i >= 0 ==> tokens[i].kind == SEMICOLON)
  {
    if tokens == [] then -1
    else if tokens[|tokens| - 1].kind == SEMICOLON then |tokens| - 1
    else LastSemicolon(tokens[..|tokens| - 1])
  }

  lemma GoodParts(a: seq<Token>, semicolon: Token, b: seq<Token>)
    requires AllGood(TABLES, Pieces(a + [semicolon] + b)) && semicolon.kind == SEMICOLON && NoSemicolon(b)
    ensures AllGood(TABLES, Pieces(a)) && IsGood(TABLES, b)
  {
    hide IsGood, NoSemicolon;
    PiecesApart(a, semicolon, b);
    OnePiece(b);
    var all := Pieces(a) + [b];
    assert all[|Pieces(a)|] == b;
    forall i | 0 <= i < |Pieces(a)| ensures IsGood(TABLES, Pieces(a)[i]) {
      assert all[i] == Pieces(a)[i];
    }
  }

  /** Good pieces and a semicolon after them make up the beginning of a specification. */
  lemma {:induction false} BeginningOf(a: seq<Token>, semicolon: Token) returns (tree: Tree)
    requires InputOk(TABLES, a) && AllGood(TABLES, Pieces(a)) && semicolon.kind == SEMICOLON
    ensures Derives(TABLES, SPECIFICATION_SEMI, tree, a + [semicolon])
    decreases |a|, 1
  {
    hide IsGood, Pieces, Derives, R1At, LengthAt, SymbolAt;
    SpecificationRules(9);
    SpecificationRules(10);
    StatesAre(SEMICOLON);
    DerivesToken(semicolon);
    if a == [] {
      tree := Node(10, [Leaf(semicolon)]);
      DerivesOne(10, Leaf(semicolon), [semicolon]);
      assert a + [semicolon] == [semicolon];
    } else {
      var before := SpecificationOf(a);
      tree := Node(9, [before, Leaf(semicolon)]);
      DerivesTwo(9, before, a, Leaf(semicolon), [semicolon]);
    }
  }

  /** Good pieces make up a specification, unless there is nothing at all. */
  lemma {:induction false} SpecificationOf(tokens: seq<Token>) returns (tree: Tree)
    requires InputOk(TABLES, tokens) && AllGood(TABLES, Pieces(tokens)) && tokens != []
    ensures Derives(TABLES, SPECIFICATION, tree, tokens)
    decreases |tokens|, 0
  {
    hide Pieces, Derives, NoSemicolon, R1At, LengthAt, SymbolAt, IsKind;
    SpecificationRules(6);
    SpecificationRules(7);
    SpecificationRules(8);
    var i := LastSemicolon(tokens);
    var last := tokens[i + 1..];
    if i < 0 {
      assert last == tokens;
      OnePiece(tokens);
      assert IsGood(TABLES, Pieces(tokens)[0]);
      var directive :| Derives(TABLES, DIRECTIVE, directive, tokens);
      tree := Node(6, [directive]);
      DerivesOne(6, directive, tokens);
    } else {
      var a, semicolon := tokens[..i], tokens[i];
      assert a + [semicolon] + last == tokens;
      GoodParts(a, semicolon, last);
      var beginning := BeginningOf(a, semicolon);
      if last == [] {
        tree := Node(8, [beginning]);
        assert a + [semicolon] == tokens;
        DerivesOne(8, beginning, a + [semicolon]);
      } else {
        var directive :| Derives(TABLES, DIRECTIVE, directive, last);
        tree := Node(7, [beginning, directive]);
        DerivesTwo(7, beginning, a + [semicolon], directive, last);
      }
    }
  }

  lemma AnnotationRule()
    ensures SymbolAt(5, 0) == ANNOTATION
  {
  }

  /** A file without an error has a parse tree. */
  lemma {:induction false} GoodFileDerived(tokens: seq<Token>) returns (file: Tree)
    requires InputOk(TABLES, tokens) && IsGoodFile(TABLES, tokens)
    ensures Derives(TABLES, FILE, file, tokens)
  {
    hide Pieces, Derives, R1At, LengthAt, SymbolAt, AllGood;
    FileRules(1);
    FileRules(2);
    FileRules(3);
    FileRules(4);
    FileRules(5);
    DerivesNothing(1);
    AnnotationRule();
    var dispatch;
    if AllGood(TABLES, Pieces(tokens)) {
      if tokens == [] {
        dispatch := Node(4, []);
        DerivesNothing(4);
      } else {
        var specification := SpecificationOf(tokens);
        dispatch := Node(3, [specification]);
        DerivesOne(3, specification, tokens);
      }
    } else {
      var annotation :| Derives(TABLES, ANNOTATION, annotation, tokens);
      dispatch := Node(5, [annotation]);
      DerivesOne(5, annotation, tokens);
    }
    file := Node(2, [Node(1, []), dispatch]);
    DerivesTwo(2, Node(1, []), [], dispatch, tokens);
    assert [] + tokens == tokens;
  }

  lemma {:induction false} NothingBarred(tree: Tree)
    ensures Permitted(LOOKAHEAD, tree)
    decreases tree
  {
    if tree.Node? {
      AllNotBarred(tree.rule, 0, tree.kids);
    }
  }

  lemma {:induction false} AllNotBarred(r: int, k: nat, kids: seq<Tree>)
    ensures AllPermitted(LOOKAHEAD, r, k, kids)
    decreases kids
  {
    hide Permitted;
    if kids != [] {
      NothingBarred(kids[0]);
      AllNotBarred(r, k + 1, kids[1..]);
    }
  }

  /** Every file without an error is accepted, and none is reported in it. */
  lemma {:induction false} GoodFileAccepted(input: seq<Token>)
    requires InputOk(TABLES, input) && IsGoodFile(TABLES, input)
    ensures LastConfig(TABLES, WEIGHTS, input).status.Accepted? && LastConfig(TABLES, WEIGHTS, input).nerrs == 0
  {
    hide Run, LrTables.Valid, Complete, Weighted, Permitted, IsGoodFile, Derivation, Proper, Root, Height, StepBound;
    TablesValid();
    TablesWeighted();
    TablesComplete();
    var file := GoodFileDerived(input);
    StartIs();
    NothingBarred(file);
    SentenceAccepted(TABLES, CERT, LOOKAHEAD, WEIGHTS, file);
    StackIsShallow(input, StepBound(WEIGHTS, input));
  }

  // ---- And only those -----------------------------------------------------------------------------------

  lemma {:induction false} ProperIsLexed(tree: Tree)
    requires Proper(TABLES, tree)
    ensures Lexed(TABLES, tree) && SkipsPieces(tree)
    decreases tree
  {
    hide IsKind;
    if tree.Node? {
      AllProperAreLexed(tree.kids);
    }
  }

  lemma {:induction false} AllProperAreLexed(trees: seq<Tree>)
    requires AllProper(TABLES, trees)
    ensures AllLexed(TABLES, trees) && AllSkipPieces(trees)
    decreases trees
  {
    hide Proper, Lexed, SkipsPieces;
    if trees != [] {
      ProperIsLexed(trees[0]);
      AllProperAreLexed(trees[1..]);
    }
  }

  lemma ProperKids(tree: Tree)
    requires tree.Node? && Proper(TABLES, tree)
    ensures forall i | 0 <= i < |tree.kids| :: Proper(TABLES, tree.kids[i])
  {
    hide Proper;
    assert AllProper(TABLES, tree.kids) by { ProperNode(tree); }
    AllProperAt(tree.kids);
  }

  lemma ProperNode(tree: Tree)
    requires tree.Node? && Proper(TABLES, tree)
    ensures AllProper(TABLES, tree.kids)
  {
  }

  lemma {:induction false} AllProperAt(trees: seq<Tree>)
    requires AllProper(TABLES, trees)
    ensures forall i | 0 <= i < |trees| :: Proper(TABLES, trees[i])
  {
    hide Proper;
    if trees != [] {
      AllProperAt(trees[1..]);
      assert forall i | 0 < i < |trees| :: trees[i] == trees[1..][i - 1];
    }
  }

  /** The directives of a specification without skipped parts have none either. */
  lemma {:induction false} ProperDirectives(tree: Tree)
    requires Proper(TABLES, tree)
    ensures forall i | 0 <= i < |DirectivesOf(tree)| :: Proper(TABLES, DirectivesOf(tree)[i])
    decreases tree
  {
    if tree.Node? && |tree.kids| > 0 {
      ProperKids(tree);
      if 7 <= tree.rule <= 9 {
        ProperDirectives(tree.kids[0]);
      }
    }
  }

  lemma ProperPieces(tokens: seq<Token>, trees: seq<Tree>)
    requires ArePieces(TABLES, trees, tokens) && (forall i | 0 <= i < |trees| :: Proper(TABLES, trees[i]))
    ensures AllGood(TABLES, Pieces(tokens))
  {
    hide Pieces, Proper, Derivation;
    forall i | 0 <= i < |trees| ensures IsGood(TABLES, Pieces(tokens)[i]) {
      if trees[i] != End {
        assert Derives(TABLES, DIRECTIVE, trees[i], Pieces(tokens)[i]);
      }
    }
  }

  /** What has the parse tree of a file is a file without an error. */
  lemma {:induction false} DerivedIsGood(file: Tree, tokens: seq<Token>)
    requires Derives(TABLES, FILE, file, tokens)
    ensures IsGoodFile(TABLES, tokens)
  {
    hide R1At, LengthAt, SymbolAt, Root, Derivation, Proper, Lexed, SkipsPieces, ArePieces, DirectivesOf, AllGood;
    ProperIsLexed(file);
    RootIs(file);
    NodeSymbols(file);
    NodeKnown(file);
    ProperKids(file);
    FileRules(file.rule);
    KidKnown(file.kids, 0);
    KidKnown(file.kids, 1);
    var flag, dispatch := file.kids[0], file.kids[1];
    RootIs(flag);
    RootIs(dispatch);
    NodeSymbols(flag);
    FileRules(flag.rule);
    NoKids(flag);
    NodeSymbols(dispatch);
    NodeKnown(dispatch);
    ProperKids(dispatch);
    FileRules(dispatch.rule);
    TwoKids(file);
    assert Yield(dispatch) == tokens;
    if dispatch.rule == 4 {
      NoKids(dispatch);
      NothingIsGood();
    } else {
      var kid := dispatch.kids[0];
      KidKnown(dispatch.kids, 0);
      OnlyKid(dispatch);
      if dispatch.rule == 3 {
        SpecificationPieces(kid);
        ProperDirectives(kid);
        ProperPieces(tokens, DirectivesOf(kid));
      } else {
        AnnotationRule();
        assert Derives(TABLES, ANNOTATION, kid, tokens);
      }
    }
  }

  lemma NothingIsGood()
    ensures AllGood(TABLES, Pieces([]))
  {
  }

  /** The parser accepts without an error exactly the files without an error: it misses no error, and
      reports none that is not there. */
  lemma {:induction false} AcceptsGoodFiles(input: seq<Token>)
    requires InputOk(TABLES, input)
    ensures var d := LastConfig(TABLES, WEIGHTS, input);
      d.status.Accepted? && d.nerrs == 0 <==> IsGoodFile(TABLES, input)
  {
    hide Run, LrTables.Valid, Complete, Weighted, Permitted, IsGoodFile, Derivation, Proper, Root, Height, StepBound;
    TablesValid();
    TablesWeighted();
    TablesComplete();
    StartIs();
    var d := LastConfig(TABLES, WEIGHTS, input);
    if d.status.Accepted? && d.nerrs == 0 {
      AcceptedParses(TABLES, CERT, LOOKAHEAD, WEIGHTS, input);
      DerivedIsGood(d.trees[0], input);
    }
    if IsGoodFile(TABLES, input) {
      GoodFileAccepted(input);
    }
  }

  // ---- Examples --------------------------------------------------------------------------------------------

  const LIFT := 32
  const LONG := 33
  const DOUBLE := 34

  lemma LiftShifts()
    ensures ActionAt(0, LIFT) == -1 && ActionAt(1, LIFT) == 22 && ActionAt(22, LONG) == 55 && ActionAt(55, DOUBLE) == 82
    ensures TABLES.pact[1] != YYFLAG && TABLES.pact[22] != YYFLAG && TABLES.pact[55] != YYFLAG
  {
  }

  lemma LiftReduces(k: int)
    ensures ActionAt(82, k) == -13 && ActionAt(27, k) == -6 && (k != DOUBLE ==> ActionAt(55, k) == 0)
  {
  }

  lemma LiftRules()
    ensures LengthAt(1) == 0 && LengthAt(13) == 3 && LengthAt(6) == 1 && R1At(1) == 46 && R1At(13) == 50
    ensures R1At(6) == 48
    ensures GotoAt(0, 46) == 1 && GotoAt(1, 50) == 27 && GotoAt(1, 48) == 25
  {
  }

  /** `lift long` read. */
  lemma LiftLong(input: seq<Token>)
    requires |input| > 2 && input[0].kind == LIFT && input[1].kind == LONG
    ensures Stands(Run(TABLES, input, 3), [0, 1, 22, 55], input[2..], 0)
  {
    hide ActionAt, LengthAt, R1At, GotoAt, Step, Stands, Run;
    LiftShifts();
    LiftRules();
    StandsAtStart(input);
    TwoSteps(input, 0);
    TwoSteps(input, 1);
    Reduces(Run(TABLES, input, 0), [0], input, 0, 1, [0, 1]);
    Shifts(Run(TABLES, input, 1), [0, 1], input, 0, [0, 1, 22], input[1..]);
    Shifts(Run(TABLES, input, 2), [0, 1, 22], input[1..], 0, [0, 1, 22, 55], input[2..]);
  }

  lemma StandsAtStart(input: seq<Token>)
    ensures Stands(Run(TABLES, input, 0), [0], input, 0)
  {
  }

  /** A wrong word inside a directive is not recovered from: `lift long`, and then neither `double`
      nor a semicolon. */
  lemma WrongWord(input: seq<Token>)
    requires InputOk(TABLES, input) && |input| > 2
    requires input[0].kind == LIFT && input[1].kind == LONG && input[2].kind != DOUBLE && input[2].kind != SEMICOLON
    ensures Run(TABLES, input, 9).status.Aborted?
  {
    hide ActionAt, Run, Stands, LrTables.Valid, InFileError;
    LiftLong(input);
    LiftShifts();
    LiftReduces(input[2].kind);
    MeetsError(Run(TABLES, input, 3), [0, 1, 22, 55], input[2..]);
    ErrorSurvived(input, 3);
  }

  lemma MeetsError(c: Config, states: seq<int>, ahead: seq<Token>)
    requires Stands(c, states, ahead, 0) && ahead != [] && |states| > 1 && states[1] == IN_FILE
    requires 0 <= states[|states| - 1] < 126 && TABLES.pact[states[|states| - 1]] != YYFLAG
    requires ActionAt(states[|states| - 1], ahead[0].kind) == 0
    ensures InFileError(TABLES, c) && Ahead(c) == ahead
  {
    hide ActionAt, Lookup, Default;
    StatesAre(states[|states| - 1]);
    LookupIs(states[|states| - 1], ahead[0].kind);
  }

  /** Nor is a missing semicolon: the first directive is then taken for the whole file. */
  lemma MissingSemicolon(input: seq<Token>)
    requires InputOk(TABLES, input) && |input| > 3
    requires input[0].kind == LIFT && input[1].kind == LONG && input[2].kind == DOUBLE
    requires input[3].kind != SEMICOLON
    ensures Run(TABLES, input, 9).status.Aborted?
  {
    hide ActionAt, LengthAt, R1At, GotoAt, Step, Stands, Run;
    LiftLong(input);
    LiftShifts();
    LiftReduces(input[3].kind);
    LiftRules();
    TwoSteps(input, 3);
    TwoSteps(input, 4);
    TwoSteps(input, 6);
    TwoSteps(input, 7);
    Shifts(Run(TABLES, input, 3), [0, 1, 22, 55], input[2..], 0, [0, 1, 22, 55, 82], input[3..]);
    Reduces(Run(TABLES, input, 4), [0, 1, 22, 55, 82], input[3..], 0, 13, [0, 1, 27]);
    Reduces(Run(TABLES, input, 5), [0, 1, 27], input[3..], 0, 6, [0, 1, 25]);
    OtherEndsFile(Run(TABLES, input, 6), input[3..], 0);
    StatesAre(input[3].kind);
    TokenRefused(Run(TABLES, input, 8), input[3..], 0);
  }

  /** But a directive that breaks off at its semicolon is: `lift long ;` is skipped, and the parser
      stands where the next directive begins. */
  lemma BrokenOff(input: seq<Token>)
    requires InputOk(TABLES, input) && |input| > 2
    requires input[0].kind == LIFT && input[1].kind == LONG && input[2].kind == SEMICOLON
    ensures Stands(Run(TABLES, input, 8), [0, 1, NEXT_DIRECTIVE], input[3..], 2)
  {
    hide ActionAt, Run, Stands, LrTables.Valid, InFileError;
    LiftLong(input);
    LiftShifts();
    LiftReduces(SEMICOLON);
    MeetsError(Run(TABLES, input, 3), [0, 1, 22, 55], input[2..]);
    ErrorSurvived(input, 3);
    assert input[2..][1..] == input[3..];
  }

  // ---- The parser in place ------------------------------------------------------------------------------------

  /** The directive parser on a token sequence: it always returns, and never for lack of room on its
      stacks. 0 comes with a file, and with no error reported if and only if the input is a file
      without an error. 1 comes if and only if an error was met at a token that it could not be
      survived at, and then a whole file is a proper prefix of the input. */
  method ParseDirectives(input: seq<Token>) returns (code: int, nerrs: int, unread: seq<Token>, ghost file: Tree)
    requires InputOk(TABLES, input)
    ensures var c := LastConfig(TABLES, WEIGHTS, input);
      code == (if c.status.Accepted? then 0 else 1) && nerrs == c.nerrs && unread == Ahead(c)
    ensures code == 0 && nerrs == 0 <==> IsGoodFile(TABLES, input)
    ensures code == 0 ==> IsFile(TABLES, file) && Yield(file) == input && (nerrs == 0 ==> Clean(file))
    ensures code == 1 <==> exists n: nat :: Refuses(TABLES, Run(TABLES, input, n))
    ensures code == 1 ==> IsFile(TABLES, file) && Yield(file) < input
    ensures 3 * (nerrs - 1) <= |input| + 1
  {
    hide LrTables.Valid, Weighted, Run, InputOk, IsFile, IsGoodFile, Clean, Built, Derivation, Parsed, Refuses;
    TablesValid();
    TablesWeighted();
    GivesUpIff(input);
    AcceptsGoodFiles(input);
    StackIsShallow(input, StepBound(WEIGHTS, input));
    var parser := new Parser(TABLES, input, CERT, WEIGHTS);
    code := parser.Parse();
    nerrs := parser.yynerrs;
    unread := Pending(parser.yychar) + parser.unread;
    file := End;
    ErrorsBounded(TABLES, CERT, input, parser.steps);
    if code == 0 {
      AcceptedFile(input, parser.steps);
      file := parser.Abs().trees[0];
    } else if code == 1 {
      file := AbortedRun(input, parser.steps);
    }
  }
}
