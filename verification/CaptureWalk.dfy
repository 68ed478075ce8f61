/** The in-place rewrite itself, over a decoded document whose objects are held by reference. */
module CaptureWalk {
  import opened Wrappers
  import opened Capture

  /** A decoded value: Go's any holding a scalar, a []any or a map[string]any. */
  datatype Node = Plain(scalar: Scalar) | Elements(nodes: seq<Node>) | Object(cell: ObjectCell)

  /** The map of one JSON object, which walk overwrites entry by entry. */
  class ObjectCell {
    var members: map<string, Node>

    constructor (members: map<string, Node>)
      ensures this.members == members
    { this.members := members; }
  }

  /** The contents of some objects at one moment. */
  type Heap = map<ObjectCell, map<string, Node>>

  ghost function HeapOf(cells: set<ObjectCell>): Heap
    reads cells
  {
    map c | c in cells :: c.members
  }

  ghost function Union<K(!new)>(prints: map<K, set<ObjectCell>>): set<ObjectCell> {
    set k, c | k in prints && c in prints[k] :: c
  }

  ghost predicate Disjoint<K(!new)>(prints: map<K, set<ObjectCell>>) {
    forall k, l | k in prints && l in prints && k != l :: prints[k] !! prints[l]
  }

  /** The objects a value is made of. */
  ghost function Footprint(h: Heap, n: Node, doc: Json): set<ObjectCell>
    decreases doc, 1
  {
    match doc
    case Leaf(_) => {}
    case List(items) => if n.Elements? then Union(ElementPrints(h, n.nodes, items)) else {}
    case Obj(members) =>
      if n.Object? && n.cell in h then {n.cell} + Union(EntryPrints(h, h[n.cell], members)) else {}
  }

  ghost function ElementPrints(h: Heap, nodes: seq<Node>, items: seq<Json>): map<nat, set<ObjectCell>>
    decreases List(items), 0
  {
    map i: nat | i < |items| && i < |nodes| :: Footprint(h, nodes[i], items[i])
  }

  ghost function EntryPrints(h: Heap, entries: map<string, Node>, members: map<string, Json>):
      map<string, set<ObjectCell>>
    decreases Obj(members), 0
  {
    map k | k in members && k in entries :: Footprint(h, entries[k], members[k])
  }

  /** The value denotes the document, and no object occurs in it twice, as after decoding. */
  ghost predicate Denotes(h: Heap, n: Node, doc: Json)
    decreases doc
  {
    match doc
    case Leaf(x) => n == Plain(x)
    case List(items) =>
      && n.Elements? && |n.nodes| == |items|
      && (forall i | 0 <= i < |items| :: Denotes(h, n.nodes[i], items[i]))
      && Disjoint(ElementPrints(h, n.nodes, items))
    case Obj(members) =>
      && n.Object? && n.cell in h && h[n.cell].Keys == members.Keys
      && (forall k | k in members :: Denotes(h, h[n.cell][k], members[k]))
      && Disjoint(EntryPrints(h, h[n.cell], members))
      && n.cell !in Union(EntryPrints(h, h[n.cell], members))
  }

  /** Two heaps agree on these objects. */
  ghost predicate AgreeOn(h: Heap, g: Heap, cells: set<ObjectCell>) {
    forall c | c in cells :: c in h && c in g && g[c] == h[c]
  }

  /** What a value denotes depends on its own objects alone. */
  lemma {:induction false} Untouched(h: Heap, g: Heap, n: Node, doc: Json)
    requires Denotes(h, n, doc) && AgreeOn(h, g, Footprint(h, n, doc))
    ensures Denotes(g, n, doc) && Footprint(g, n, doc) == Footprint(h, n, doc)
    decreases doc
  {
    match doc
    case Leaf(_) =>
    case List(items) =>
      var prints := ElementPrints(h, n.nodes, items);
      forall i: nat | i < |items|
        ensures Denotes(g, n.nodes[i], items[i]) && Footprint(g, n.nodes[i], items[i]) == prints[i]
      {
        assert prints[i] <= Union(prints);
        Untouched(h, g, n.nodes[i], items[i]);
      }
      assert ElementPrints(g, n.nodes, items) == prints;
    case Obj(members) =>
      var prints := EntryPrints(h, h[n.cell], members);
      assert n.cell in Footprint(h, n, doc);
      forall k | k in members
        ensures Denotes(g, h[n.cell][k], members[k]) && Footprint(g, h[n.cell][k], members[k]) == prints[k]
      {
        assert prints[k] <= Union(prints);
        Untouched(h, g, h[n.cell][k], members[k]);
      }
      assert EntryPrints(g, g[n.cell], members) == prints;
  }

  lemma Assembled(h: Heap, n: Node, members: map<string, Json>, prints: map<string, set<ObjectCell>>)
    requires n.Object? && n.cell in h && h[n.cell].Keys == members.Keys
    requires forall k | k in members :: Denotes(h, h[n.cell][k], members[k])
    requires EntryPrints(h, h[n.cell], members) == prints && Disjoint(prints) && n.cell !in Union(prints)
    ensures Denotes(h, n, Obj(members)) && Footprint(h, n, Obj(members)) == {n.cell} + Union(prints)
  {
  }

  lemma EntryDisjoint(h: Heap, n: Node, members: map<string, Json>)
    requires Denotes(h, n, Obj(members))
    ensures var prints := EntryPrints(h, h[n.cell], members);
            && Disjoint(prints) && n.cell !in Union(prints)
            && Footprint(h, n, Obj(members)) == {n.cell} + Union(prints)
  {
  }

  lemma OtherEntries(h: Heap, g: Heap, n: Node, members: map<string, Json>, k: string)
    requires Denotes(h, n, Obj(members)) && k in members
    requires AgreeOn(h, g, Footprint(h, n, Obj(members)) - {n.cell} - Footprint(h, h[n.cell][k], members[k]))
    ensures n.Object? && n.cell in h && h[n.cell].Keys == members.Keys
    ensures forall l | l in members && l != k ::
              Denotes(g, h[n.cell][l], members[l])
              && Footprint(g, h[n.cell][l], members[l]) == Footprint(h, h[n.cell][l], members[l])
  {
    var prints := EntryPrints(h, h[n.cell], members);
    forall l | l in members && l != k
      ensures Denotes(g, h[n.cell][l], members[l])
      ensures Footprint(g, h[n.cell][l], members[l]) == Footprint(h, h[n.cell][l], members[l])
    {
      assert prints[l] <= Union(prints) && prints[l] !! prints[k];
      Untouched(h, g, h[n.cell][l], members[l]);
    }
  }

  lemma SamePrints(h: Heap, g: Heap, entries: map<string, Node>, members: map<string, Json>, k: string, node: Node,
                   doc: Json)
    requires k in members && members.Keys == entries.Keys
    requires Footprint(g, node, doc) == Footprint(h, entries[k], members[k])
    requires forall l | l in members && l != k ::
               Footprint(g, entries[l], members[l]) == Footprint(h, entries[l], members[l])
    ensures EntryPrints(g, entries[k := node], members[k := doc]) == EntryPrints(h, entries, members)
  {
  }

  /** Replacing one entry of an object, and touching only what hangs below it. */
  lemma EntryReplaced(h: Heap, g: Heap, n: Node, members: map<string, Json>, k: string, node: Node, doc: Json)
    requires Denotes(h, n, Obj(members)) && k in members
    requires n.cell in g && g[n.cell] == h[n.cell][k := node]
    requires AgreeOn(h, g, Footprint(h, n, Obj(members)) - {n.cell} - Footprint(h, h[n.cell][k], members[k]))
    requires Denotes(g, node, doc) && Footprint(g, node, doc) == Footprint(h, h[n.cell][k], members[k])
    ensures Denotes(g, n, Obj(members[k := doc]))
    ensures Footprint(g, n, Obj(members[k := doc])) == Footprint(h, n, Obj(members))
  {
    OtherEntries(h, g, n, members, k);
    EntryDisjoint(h, n, members);
    hide Denotes, Union, Disjoint, AgreeOn;
    var prints := EntryPrints(h, h[n.cell], members);
    SamePrints(h, g, h[n.cell], members, k, node, doc);
    Assembled(g, n, members[k := doc], prints);
  }

  lemma OtherElements(h: Heap, g: Heap, n: Node, items: seq<Json>, i: nat)
    requires Denotes(h, n, List(items)) && i < |items|
    requires AgreeOn(h, g, Footprint(h, n, List(items)) - Footprint(h, n.nodes[i], items[i]))
    ensures forall j | 0 <= j < |items| && j != i ::
              && Denotes(g, n.nodes[j], items[j])
              && Footprint(g, n.nodes[j], items[j]) == Footprint(h, n.nodes[j], items[j])
  {
    var prints := ElementPrints(h, n.nodes, items);
    forall j: nat | j < |items| && j != i
      ensures Denotes(g, n.nodes[j], items[j])
      ensures Footprint(g, n.nodes[j], items[j]) == Footprint(h, n.nodes[j], items[j])
    {
      assert prints[j] <= Union(prints);
      assert prints[j] !! prints[i];
      Untouched(h, g, n.nodes[j], items[j]);
    }
  }

  /** The same for one element of a list. */
  lemma ElementReplaced(h: Heap, g: Heap, n: Node, items: seq<Json>, i: nat, doc: Json)
    requires Denotes(h, n, List(items)) && i < |items|
    requires AgreeOn(h, g, Footprint(h, n, List(items)) - Footprint(h, n.nodes[i], items[i]))
    requires Denotes(g, n.nodes[i], doc) && Footprint(g, n.nodes[i], doc) == Footprint(h, n.nodes[i], items[i])
    ensures Denotes(g, n, List(items[i := doc]))
    ensures Footprint(g, n, List(items[i := doc])) == Footprint(h, n, List(items))
  {
    OtherElements(h, g, n, items, i);
    assert ElementPrints(g, n.nodes, items[i := doc]) == ElementPrints(h, n.nodes, items);
  }

  lemma EntryBelow(h: Heap, n: Node, members: map<string, Json>, k: string)
    requires Denotes(h, n, Obj(members)) && k in members
    ensures n.Object? && n.cell in h && n.cell in Footprint(h, n, Obj(members))
    ensures k in h[n.cell] && Denotes(h, h[n.cell][k], members[k])
    ensures Footprint(h, h[n.cell][k], members[k]) <= Footprint(h, n, Obj(members)) - {n.cell}
  {
    var prints := EntryPrints(h, h[n.cell], members);
    assert prints[k] <= Union(prints);
  }

  lemma ElementBelow(h: Heap, n: Node, items: seq<Json>, i: nat)
    requires Denotes(h, n, List(items)) && i < |items|
    ensures n.Elements? && |n.nodes| == |items| && Denotes(h, n.nodes[i], items[i])
    ensures Footprint(h, n.nodes[i], items[i]) <= Footprint(h, n, List(items))
  {
    var prints := ElementPrints(h, n.nodes, items);
    assert prints[i] <= Union(prints);
  }

  lemma SameKind(h: Heap, n: Node, doc: Json)
    requires Denotes(h, n, doc)
    ensures n.Plain? <==> doc.Leaf?
    ensures n.Object? <==> doc.Obj?
    ensures n.Plain? ==> doc == Leaf(n.scalar) && Scrubbed(doc) == doc && Footprint(h, n, doc) == {}
    ensures n.Object? ==> n.cell in h && h[n.cell].Keys == doc.members.Keys && n.cell in Footprint(h, n, doc)
    ensures n.Elements? ==> doc.List? && |n.nodes| == |doc.items|
  {
  }

  lemma PlainDenotes(h: Heap, x: Scalar)
    ensures Denotes(h, Plain(x), Leaf(x)) && Footprint(h, Plain(x), Leaf(x)) == {}
  {
  }

  /** The object while the keys in `todo` are still to be visited. */
  ghost function Halfway(members: map<string, Json>, todo: set<string>): map<string, Json> {
    map k | k in members :: if k in todo then members[k] else Scrubbed(Obj(members)).members[k]
  }

  lemma HalfwayEnds(members: map<string, Json>)
    ensures Halfway(members, members.Keys) == members
    ensures Obj(Halfway(members, {})) == Scrubbed(Obj(members))
  {
  }

  lemma HalfwayStep(members: map<string, Json>, todo: set<string>, key: string)
    requires key in todo && todo <= members.Keys
    ensures var was := Halfway(members, todo);
            && key in was && was[key] == members[key]
            && Halfway(members, todo - {key}) ==
               was[key := if key in Secrets && IsString(members[key]) then String(Secrets[key])
                          else Scrubbed(members[key])]
  {
  }

  /** The list while only the first n elements have been visited. */
  ghost function FirstDone(items: seq<Json>, n: nat): seq<Json>
    requires n <= |items|
  {
    Scrubbed(List(items)).items[..n] + items[n..]
  }

  lemma FirstDoneEnds(items: seq<Json>)
    ensures FirstDone(items, 0) == items
    ensures List(FirstDone(items, |items|)) == Scrubbed(List(items))
  {
  }

  lemma FirstDoneStep(items: seq<Json>, i: nat)
    requires i < |items|
    ensures |FirstDone(items, i)| == |items| && FirstDone(items, i)[i] == items[i]
    ensures FirstDone(items, i + 1) == FirstDone(items, i)[i := Numbered(Scrubbed(items[i]), i)]
  {
  }

  // ---- what is left at every place of the value ----

  /** The value found by following keys and positions through the objects. */
  ghost function NodeAt(h: Heap, n: Node, path: seq<Step>): Option<Node>
    decreases |path|
  {
    if path == [] then Some(n)
    else
      match path[0]
      case Key(k) =>
        if n.Object? && n.cell in h && k in h[n.cell] then NodeAt(h, h[n.cell][k], path[1..]) else None
      case Index(i) => if n.Elements? && i < |n.nodes| then NodeAt(h, n.nodes[i], path[1..]) else None
  }

  /** A value has the paths of the document it denotes, and denotes at each of them what stands there. */
  lemma {:induction false} DenotesEverywhere(h: Heap, n: Node, doc: Json, path: seq<Step>)
    requires Denotes(h, n, doc)
    ensures NodeAt(h, n, path).Some? <==> At(doc, path).Some?
    ensures At(doc, path).Some? ==> Denotes(h, NodeAt(h, n, path).value, At(doc, path).value)
    decreases |path|
  {
    if path != [] {
      match path[0]
      case Key(k) =>
        if doc.Obj? && k in doc.members { DenotesEverywhere(h, h[n.cell][k], doc.members[k], path[1..]); }
      case Index(i) =>
        if doc.List? && i < |doc.items| { DenotesEverywhere(h, n.nodes[i], doc.items[i], path[1..]); }
    }
  }

  /** Every plain value of the document has become its replacement, and every path is still there. */
  ghost predicate Anonymised(h: Heap, n: Node, doc: Json) {
    forall path: seq<Step> ::
      && (NodeAt(h, n, path).Some? <==> At(doc, path).Some?)
      && (At(doc, path).Some? && At(doc, path).value.Leaf? ==>
            NodeAt(h, n, path) == Some(Plain(Replacement(path, At(doc, path).value.scalar))))
  }

  lemma ScrubbedIsAnonymised(h: Heap, n: Node, doc: Json)
    requires Denotes(h, n, Scrubbed(doc))
    ensures Anonymised(h, n, doc)
  {
    forall path: seq<Step>
      ensures NodeAt(h, n, path).Some? <==> At(doc, path).Some?
      ensures At(doc, path).Some? && At(doc, path).value.Leaf? ==>
                NodeAt(h, n, path) == Some(Plain(Replacement(path, At(doc, path).value.scalar)))
    {
      hide Replacement, Scrubbed, Footprint, NodeAt;
      PathByPath(doc, path);
      DenotesEverywhere(h, n, Scrubbed(doc), path);
    }
  }

  /** Key by key: what stands in the rewritten value where the document had a string. */
  lemma StringsLeft(h: Heap, n: Node, doc: Json, above: seq<Step>, key: string, s: string)
    requires Anonymised(h, n, doc)
    requires At(doc, above + [Key(key)]) == Some(String(s))
    ensures NodeAt(h, n, above + [Key(key)]) == Some(Plain(Str(Left(above, key, s))))
  {
    hide At, NodeAt, Left;
    var path := above + [Key(key)];
    assert path[..|path| - 1] == above && path[|path| - 1] == Key(key);
  }

  /**
   Rewrites the value in place; the keys of an object are visited in any order at all. The outcome is
   Scrubbed, the same objects hold it, and objects outside the value are not touched.
   */
  method Walk(n: Node, ghost doc: Json, ghost cells: set<ObjectCell>)
    requires Denotes(HeapOf(cells), n, doc) && Footprint(HeapOf(cells), n, doc) <= cells
    modifies Footprint(HeapOf(cells), n, doc)
    ensures Denotes(HeapOf(cells), n, Scrubbed(doc))
    ensures Footprint(HeapOf(cells), n, Scrubbed(doc)) == old(Footprint(HeapOf(cells), n, doc))
    ensures Anonymised(HeapOf(cells), n, doc)
    decreases doc
  {
    hide Denotes, Footprint, Scrubbed, Anonymised;
    SameKind(HeapOf(cells), n, doc);
    match n {
      case Plain(_) =>
      case Object(cell) => WalkObject(cell, doc.members, cells);
      case Elements(nodes) => WalkElements(nodes, doc.items, cells);
    }
    ScrubbedIsAnonymised(HeapOf(cells), n, doc);
  }

  method WalkObject(cell: ObjectCell, ghost members: map<string, Json>, ghost cells: set<ObjectCell>)
    requires Denotes(HeapOf(cells), Object(cell), Obj(members))
    requires Footprint(HeapOf(cells), Object(cell), Obj(members)) <= cells
    modifies Footprint(HeapOf(cells), Object(cell), Obj(members))
    ensures Denotes(HeapOf(cells), Object(cell), Scrubbed(Obj(members)))
    ensures Footprint(HeapOf(cells), Object(cell), Scrubbed(Obj(members))) ==
            old(Footprint(HeapOf(cells), Object(cell), Obj(members)))
    decreases Obj(members), 0
  {
    hide Denotes, Footprint, Scrubbed, Halfway, Anonymised;
    SameKind(HeapOf(cells), Object(cell), Obj(members));
    var todo := cell.members.Keys;
    ghost var mine := Footprint(HeapOf(cells), Object(cell), Obj(members));
    HalfwayEnds(members);
    while todo != {}
      invariant todo <= members.Keys
      invariant Denotes(HeapOf(cells), Object(cell), Obj(Halfway(members, todo)))
      invariant Footprint(HeapOf(cells), Object(cell), Obj(Halfway(members, todo))) == mine
      decreases |todo|
    {
      ghost var h, current := HeapOf(cells), Halfway(members, todo);
      var key :| key in todo;
      HalfwayStep(members, todo, key);
      todo := todo - {key};
      EntryBelow(h, Object(cell), current, key);
      var child := cell.members[key];
      SameKind(h, child, members[key]);
      if key in Secrets && child.Plain? && child.scalar.Str? {
        cell.members := cell.members[key := Plain(Str(Secrets[key]))];
        PlainDenotes(HeapOf(cells), Str(Secrets[key]));
        EntryReplaced(h, HeapOf(cells), Object(cell), current, key, Plain(Str(Secrets[key])), String(Secrets[key]));
      } else {
        Walk(child, members[key], cells);
        EntryReplaced(h, HeapOf(cells), Object(cell), current, key, child, Scrubbed(members[key]));
      }
    }
  }

  /** Gives an object that has a string identifier the suffix of its position. */
  method Number(cell: ObjectCell, i: nat, ghost members: map<string, Json>, ghost cells: set<ObjectCell>)
    requires Denotes(HeapOf(cells), Object(cell), Obj(members))
    requires Footprint(HeapOf(cells), Object(cell), Obj(members)) <= cells
    requires HasIdentifier(Obj(members)) ==> |members["unique_id"].scalar.s| >= 2
    modifies cell
    ensures Denotes(HeapOf(cells), Object(cell), Numbered(Obj(members), i))
    ensures Footprint(HeapOf(cells), Object(cell), Numbered(Obj(members), i)) ==
            old(Footprint(HeapOf(cells), Object(cell), Obj(members)))
  {
    ghost var h := HeapOf(cells);
    if "unique_id" in cell.members {
      var id := cell.members["unique_id"];
      if id.Plain? && id.scalar.Str? {
        var suffixed := Suffixed(id.scalar.s, i);
        cell.members := cell.members["unique_id" := Plain(Str(suffixed))];
        EntryReplaced(h, HeapOf(cells), Object(cell), members, "unique_id", Plain(Str(suffixed)), String(suffixed));
      }
    }
  }

  method WalkElements(nodes: seq<Node>, ghost items: seq<Json>, ghost cells: set<ObjectCell>)
    requires Denotes(HeapOf(cells), Elements(nodes), List(items))
    requires Footprint(HeapOf(cells), Elements(nodes), List(items)) <= cells
    modifies Footprint(HeapOf(cells), Elements(nodes), List(items))
    ensures Denotes(HeapOf(cells), Elements(nodes), Scrubbed(List(items)))
    ensures Footprint(HeapOf(cells), Elements(nodes), Scrubbed(List(items))) ==
            old(Footprint(HeapOf(cells), Elements(nodes), List(items)))
    decreases List(items), 0
  {
    hide Denotes, Footprint, Scrubbed, FirstDone, Anonymised;
    SameKind(HeapOf(cells), Elements(nodes), List(items));
    ghost var mine := Footprint(HeapOf(cells), Elements(nodes), List(items));
    FirstDoneEnds(items);
    for i := 0 to |nodes|
      invariant Denotes(HeapOf(cells), Elements(nodes), List(FirstDone(items, i)))
      invariant Footprint(HeapOf(cells), Elements(nodes), List(FirstDone(items, i))) == mine
    {
      ghost var h, current := HeapOf(cells), FirstDone(items, i);
      FirstDoneStep(items, i);
      ElementBelow(h, Elements(nodes), current, i);
      Walk(nodes[i], items[i], cells);
      SameKind(HeapOf(cells), nodes[i], Scrubbed(items[i]));
      if nodes[i].Object? {
        Number(nodes[i].cell, i, Scrubbed(items[i]).members, cells);
      }
      ElementReplaced(h, HeapOf(cells), Elements(nodes), current, i, Numbered(Scrubbed(items[i]), i));
    }
  }
}
