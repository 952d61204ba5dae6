/** The records that the annotation parser allocates, src/cmixshow/annofront.h: the actions of
    src/cmixshow/y-tab.c as assignments to their fields. Each action fills the record it allocates,
    but for action 23, which completes the element that a separator's action has allocated. */
module AnnoRecords {
  import opened LrTrees
  import opened AnnoTables
  import opened AnnoTrees

  datatype Tag = TreeList | TreeConcat | TreeLink | TreeLabel | TreeString

  class AnnoTree {
    var treeTag: Tag
    var kind: nat
    var id: nat
    var consistentBlock: bool
    var indentation: nat
    var treeContent1: AnnoTree?
    var treeContent2: AnnoTree?
    var textContent: string
    var blockContent: BlockElement?

    /** alloctree: an empty text. */
    constructor ()
      ensures treeTag == TreeString && textContent == "" && kind == 0
    {
      treeTag, kind, id, consistentBlock, indentation := TreeString, 0, 0, false, 0;
      treeContent1, treeContent2, textContent, blockContent := null, null, "", null;
    }
  }

  class BlockElement {
    var contents: AnnoTree?
    var separatorTag: SeparatorTag
    var spaces: nat
    var nextOffset: nat
    var next: BlockElement?

    constructor ()
    {
      contents, separatorTag, spaces, nextOffset, next := null, SepNever, 0, 0, null;
    }

    function Separation(): Separator
      reads this
    {
      Separator(separatorTag, spaces, nextOffset)
    }
  }

  /** The record `o` and those that it leads to, all among `heap`, make up the tree `a`. */
  ghost predicate HoldsTree(o: AnnoTree?, a: Anno, heap: set<object>)
    reads heap
    decreases a
  {
    && o != null && o in heap
    && match a
       case Text(content, kind) => o.treeTag == TreeString && o.textContent == content && o.kind == kind
       case Concat(left, right) =>
         o.treeTag == TreeConcat && HoldsTree(o.treeContent1, left, heap) && HoldsTree(o.treeContent2, right, heap)
       case Label(id, body) => o.treeTag == TreeLabel && o.id == id && HoldsTree(o.treeContent1, body, heap)
       case Link(id, kind, body) =>
         o.treeTag == TreeLink && o.id == id && o.kind == kind && HoldsTree(o.treeContent1, body, heap)
       case Block(consistent, indentation, chain) =>
         && o.treeTag == TreeList && o.consistentBlock == consistent && o.indentation == indentation
         && HoldsChain(o.blockContent, chain, heap)
  }

  /** The element `e` and those that follow it make up `chain`, which ends in NULL. */
  ghost predicate HoldsChain(e: BlockElement?, chain: Chain, heap: set<object>)
    reads heap
    decreases chain
  {
    match chain
    case Null => e == null
    case Element(contents, separator, next) =>
      && e != null && e in heap && e.Separation() == separator
      && HoldsTree(e.contents, contents, heap) && HoldsChain(e.next, next, heap)
  }

  lemma {:induction false} TreeStays(o: AnnoTree?, a: Anno, heap: set<object>, more: set<object>)
    requires HoldsTree(o, a, heap) && heap <= more
    ensures HoldsTree(o, a, more)
    decreases a
  {
    match a
    case Text(_, _) =>
    case Concat(left, right) =>
      TreeStays(o.treeContent1, left, heap, more);
      TreeStays(o.treeContent2, right, heap, more);
    case Label(_, body) => TreeStays(o.treeContent1, body, heap, more);
    case Link(_, _, body) => TreeStays(o.treeContent1, body, heap, more);
    case Block(_, _, chain) => ChainStays(o.blockContent, chain, heap, more);
  }

  lemma {:induction false} ChainStays(e: BlockElement?, chain: Chain, heap: set<object>, more: set<object>)
    requires HoldsChain(e, chain, heap) && heap <= more
    ensures HoldsChain(e, chain, more)
    decreases chain
  {
    if chain.Element? {
      TreeStays(e.contents, chain.contents, heap, more);
      ChainStays(e.next, chain.next, heap, more);
    }
  }

  // ---- The actions --------------------------------------------------------------------------------

  /** Actions 28-30. */
  method MakeSeparator(tree: Tree) returns (e: BlockElement)
    ensures fresh(e) && e.Separation() == SeparatorOf(tree)
  {
    e := new BlockElement();
    if !tree.Node? {
      e.separatorTag, e.spaces, e.nextOffset := SepNever, 0, 0;
    } else if tree.rule == 28 {
      e.separatorTag := SepBreak;
      e.spaces := 1;
      e.nextOffset := 0;
    } else if tree.rule == 29 {
      e.separatorTag := SepBreak;
      e.spaces := NumOf(Kid(tree, 2));
      e.nextOffset := NumOf(Kid(tree, 4));
    } else {
      e.separatorTag := SepNewline;
      e.spaces := 1;
      e.nextOffset := 0;
    }
  }

  /** Action 31. */
  method MakeText(content: string, kind: nat, ghost heap: set<object>) returns (o: AnnoTree)
    ensures fresh(o) && HoldsTree(o, Text(content, kind), heap + {o})
  {
    o := new AnnoTree();
    o.textContent := content;
    o.kind := kind;
  }

  /** Action 27. */
  method MakeConcat(l: AnnoTree, r: AnnoTree, ghost left: Anno, ghost right: Anno, ghost heap: set<object>)
    returns (o: AnnoTree)
    requires HoldsTree(l, left, heap) && HoldsTree(r, right, heap)
    ensures fresh(o) && HoldsTree(o, Concat(left, right), heap + {o})
  {
    o := new AnnoTree();
    o.treeTag := TreeConcat;
    o.treeContent1 := l;
    o.treeContent2 := r;
    TreeStays(l, left, heap, heap + {o});
    TreeStays(r, right, heap, heap + {o});
  }

  /** Action 33. */
  method MakeLabel(id: nat, b: AnnoTree, ghost body: Anno, ghost heap: set<object>) returns (o: AnnoTree)
    requires HoldsTree(b, body, heap)
    ensures fresh(o) && HoldsTree(o, Label(id, body), heap + {o})
  {
    o := new AnnoTree();
    o.treeTag := TreeLabel;
    o.treeContent1 := b;
    o.id := id;
    TreeStays(b, body, heap, heap + {o});
  }

  /** Action 35. */
  method MakeLink(id: nat, kind: nat, b: AnnoTree, ghost body: Anno, ghost heap: set<object>) returns (o: AnnoTree)
    requires HoldsTree(b, body, heap)
    ensures fresh(o) && HoldsTree(o, Link(id, kind, body), heap + {o})
  {
    o := new AnnoTree();
    o.treeTag := TreeLink;
    o.treeContent1 := b;
    o.kind := kind;
    o.id := id;
    TreeStays(b, body, heap, heap + {o});
  }

  /** Action 18. */
  method MakeBlock(consistent: bool, indentation: nat, e: BlockElement?, ghost chain: Chain, ghost heap: set<object>)
    returns (o: AnnoTree)
    requires HoldsChain(e, chain, heap)
    ensures fresh(o) && HoldsTree(o, Block(consistent, indentation, chain), heap + {o})
  {
    o := new AnnoTree();
    o.treeTag := TreeList;
    o.consistentBlock := consistent;
    o.indentation := indentation;
    o.blockContent := e;
    ChainStays(e, chain, heap, heap + {o});
  }

  /** Action 22: the last group of a block. */
  method MakeLast(c: AnnoTree, ghost contents: Anno, ghost heap: set<object>) returns (e: BlockElement)
    requires HoldsTree(c, contents, heap)
    ensures fresh(e) && HoldsChain(e, Element(contents, NEVER, Null), heap + {e})
  {
    e := new BlockElement();
    e.contents := c;
    e.separatorTag := SepNever;
    e.spaces := 0;
    e.nextOffset := 0;
    e.next := null;
    TreeStays(c, contents, heap, heap + {e});
  }

  /** Action 23: the separator's element receives the group before it and the elements after. */
  method CompleteElement(e: BlockElement, c: AnnoTree, n: BlockElement?,
                         ghost contents: Anno, ghost next: Chain, ghost heap: set<object>)
    requires HoldsTree(c, contents, heap) && HoldsChain(n, next, heap) && e !in heap
    modifies e
    ensures e.Separation() == old(e.Separation())
    ensures HoldsChain(e, Element(contents, e.Separation(), next), heap + {e})
  {
    e.contents := c;
    e.next := n;
    TreeStays(c, contents, heap, heap + {e});
    ChainStays(n, next, heap, heap + {e});
  }

  // ---- All actions below a tree, in the parser's order ------------------------------------------------

  /** Builds the records of a subtree by its actions. Nothing that was built before changes. */
  method BuildTree(tree: Tree, ghost heap: set<object>) returns (o: AnnoTree, ghost heap': set<object>)
    ensures heap <= heap' && fresh(heap' - heap) && HoldsTree(o, TreeOf(tree), heap')
    decreases tree
  {
    if !IsFull(tree) || |tree.kids| == 0 || tree.rule == 37 {
      o := MakeText("", 0, heap);
      heap' := heap + {o};
    } else if tree.rule == 18 {
      var e;
      e, heap' := BuildList(Kid(tree, 3), heap);
      o := MakeBlock(Kid(tree, 0).Node? && Kid(tree, 0).rule == 20, NumOf(Kid(tree, 1)), e, ListOf(Kid(tree, 3)),
          heap');
      heap' := heap' + {o};
    } else if tree.rule == 27 {
      var l, r;
      l, heap' := BuildTree(Kid(tree, 0), heap);
      ghost var before := heap';
      r, heap' := BuildTree(Kid(tree, 1), heap');
      TreeStays(l, TreeOf(Kid(tree, 0)), before, heap');
      o := MakeConcat(l, r, TreeOf(Kid(tree, 0)), TreeOf(Kid(tree, 1)), heap');
      heap' := heap' + {o};
    } else if tree.rule == 31 {
      o := MakeText(TextOf(Kid(tree, 0)), NumOf(Kid(tree, 1)), heap);
      heap' := heap + {o};
    } else if tree.rule == 33 {
      var b;
      b, heap' := BuildTree(Kid(tree, 2), heap);
      o := MakeLabel(NumOf(Kid(tree, 0)), b, TreeOf(Kid(tree, 2)), heap');
      heap' := heap' + {o};
    } else if tree.rule == 35 {
      var b;
      b, heap' := BuildTree(Kid(tree, 5), heap);
      o := MakeLink(NumOf(Kid(tree, 1)), NumOf(Kid(tree, 3)), b, TreeOf(Kid(tree, 5)), heap');
      heap' := heap' + {o};
    } else {
      var i := if tree.rule == 19 then 3 else if tree.rule == 32 then 2 else if tree.rule == 34 then 1 else 0;
      o, heap' := BuildTree(Kid(tree, i), heap);
    }
  }

  method BuildList(tree: Tree, ghost heap: set<object>) returns (e: BlockElement?, ghost heap': set<object>)
    ensures heap <= heap' && fresh(heap' - heap) && HoldsChain(e, ListOf(tree), heap')
    decreases tree
  {
    if !IsFull(tree) || (tree.rule != 22 && tree.rule != 23) {
      e, heap' := null, heap;
    } else if tree.rule == 22 {
      var c;
      c, heap' := BuildTree(Kid(tree, 0), heap);
      e := MakeLast(c, TreeOf(Kid(tree, 0)), heap');
      heap' := heap' + {e};
    } else {
      var c, n;
      c, heap' := BuildTree(Kid(tree, 0), heap);
      ghost var before := heap';
      var s := MakeSeparator(Kid(tree, 1));
      n, heap' := BuildList(Kid(tree, 2), heap');
      TreeStays(c, TreeOf(Kid(tree, 0)), before, heap');
      CompleteElement(s, c, n, TreeOf(Kid(tree, 0)), ListOf(Kid(tree, 2)), heap');
      e := s;
      heap' := heap' + {e};
    }
  }
}
