/** What reading an annotation file leaves behind: the lists of types and the trees of each output,
    in the records that the parser's actions fill. */
module AnnoFiles {
  import opened LrTables
  import opened LrTrees
  import opened LrEngine
  import opened LrSoundness
  import opened LrTermination
  import opened LrParser
  import opened AnnoTables
  import opened AnnoTrees
  import opened AnnoSpelling
  import opened AnnoParser
  import opened AnnoSentences
  import opened AnnoRecords
  import opened TypeLists

  /** The records of all outputs, in the order of the calls of AddAnnoTree. */
  ghost predicate HoldsCalls(added: seq<(nat, AnnoTree)>, calls: seq<(nat, Anno)>, heap: set<object>)
    reads heap
  {
    && |added| == |calls|
    && forall i | 0 <= i < |calls| :: added[i].0 == calls[i].0 && HoldsTree(added[i].1, calls[i].1, heap)
  }

  lemma CallsStay(added: seq<(nat, AnnoTree)>, calls: seq<(nat, Anno)>, heap: set<object>, more: set<object>)
    requires HoldsCalls(added, calls, heap) && heap <= more
    ensures HoldsCalls(added, calls, more)
  {
    forall i | 0 <= i < |calls| ensures HoldsTree(added[i].1, calls[i].1, more) {
      TreeStays(added[i].1, calls[i].1, heap, more);
    }
  }

  /** Actions 10-13, with everything below them. */
  method BuildOutputs(tree: Tree, ghost heap: set<object>)
    returns (added: seq<(nat, AnnoTree)>, ghost heap': set<object>)
    ensures heap <= heap' && fresh(heap' - heap) && HoldsCalls(added, CallsOf(tree), heap')
    decreases tree
  {
    hide HoldsTree, TreeOf;
    added, heap' := [], heap;
    if IsFull(tree) {
      if tree.rule == 10 || tree.rule == 11 || tree.rule == 13 {
        added, heap' := BuildOutputs(Kid(tree, 0), heap);
      }
      if tree.rule == 11 {
        ghost var before := heap';
        var more;
        more, heap' := BuildOutputs(Kid(tree, 1), heap');
        CallsStay(added, CallsOf(Kid(tree, 0)), before, heap');
        added := added + more;
      } else if tree.rule == 13 {
        ghost var before := heap';
        var o;
        o, heap' := BuildTree(Kid(tree, 1), heap');
        CallsStay(added, CallsOf(Kid(tree, 0)), before, heap');
        added := added + [(TypeOf(Kid(tree, 0)), o)];
      }
    }
  }

  /** What reading a file means: the input writes its definitions and its calls; `types` lists the
      defined types as `TypeLists` says, unless type 0 is among them; and `added` holds the trees of
      the calls, whose text is that of the file. */
  ghost predicate Holds(t: Tables, input: seq<Token>, file: Tree, types: TypeTable,
                        added: seq<(nat, AnnoTree)>, heap: set<object>)
    requires types.Valid()
    reads types, types.allTypes, types.owned, heap
  {
    && WritesFile(input, FileDefs(file), FileCalls(file)) && FileOk(t, input, file)
    && (Represents(types.Value(), FileDefs(file)) <==> !Numbers(FileDefs(file), 0))
    && HoldsCalls(added, FileCalls(file), heap)
  }

  /** The actions of an accepted file: its definitions, and then its outputs. */
  method BuildFile(file: Tree)
    returns (ok: bool, types: TypeTable, added: seq<(nat, AnnoTree)>, ghost heap: set<object>)
    ensures types.Valid() && ok == Distinct(FileDefs(file))
    ensures ok ==> (Represents(types.Value(), FileDefs(file)) <==> !Numbers(FileDefs(file), 0))
    ensures HoldsCalls(added, FileCalls(file), heap)
  {
    hide Represents, HoldsTree, After, Distinct, Numbers;
    types := new TypeTable();
    ok := types.DefineAll(FileDefs(file));
    added, heap := BuildOutputs(Kid(Kid(file, 3), 2), {});
  }

  /** Reads a file. It always ends. If the input writes definitions and calls, and the stacks have
      room for them, it ends alive exactly if no type is defined twice, and those are the definitions
      and calls that are made. It is never alive otherwise: a syntax error and a full stack are fatal
      here like a second definition, whichever comes first. */
  method ReadAnnotations(input: seq<Token>)
    returns (alive: bool, types: TypeTable, added: seq<(nat, AnnoTree)>, ghost file: Tree, ghost heap: set<object>)
    requires InputOk(TABLES, input)
    ensures types.Valid()
    ensures var c := LastConfig(TABLES, WEIGHTS, input);
      && (c.status.Accepted? ==> |c.trees| > 0 && file == c.trees[0])
      && alive == (c.status.Accepted? && Distinct(FileDefs(file)))
    ensures alive ==> Holds(TABLES, input, file, types, added, heap)
    ensures forall defs, calls :: WritesFile(input, defs, calls) ==>
      || LastConfig(TABLES, WEIGHTS, input).status.Overflowed?
      || (defs == FileDefs(file) && calls == FileCalls(file) && alive == Distinct(defs))
  {
    hide LrTables.Valid, Weighted, Run, InputOk, FileOk, WritesFile, Represents, HoldsCalls, Parsed, Distinct, Numbers;
    hide FileDefs, FileCalls, StepBound;
    TablesValid();
    TablesWeighted();
    var parser := new Parser(TABLES, input, CERT, WEIGHTS);
    var code := parser.Parse();
    var tree := End;
    if code == 0 {
      AcceptedFile(input, parser.steps);
      assert parser.Abs().trees[0] == parser.yyvs[1];
      tree := parser.yyvs[1];
    }
    file := tree;
    var ok;
    ok, types, added, heap := BuildFile(tree);
    alive := code == 0 && ok;
    forall defs, calls
      ensures var c := LastConfig(TABLES, WEIGHTS, input);
        && (WritesFile(input, defs, calls) ==> c.status.Accepted? || c.status.Overflowed?)
        && (c.status.Accepted? ==>
              (WritesFile(input, defs, calls) <==> defs == FileDefs(file) && calls == FileCalls(file)))
    {
      AcceptsWritten(input, defs, calls);
    }
  }
}
