/** The group tree of a cluster: the `/:cluster/groups` listing, the recursive `newGroup`
    resolver behind it, and the record that `POST /:cluster/groups` creates. */
module Groups {
  import opened Base

  /** One row of the `groups` table as the resolver's query returns it: the group's own
      columns and the ids of its direct children, already parsed. */
  datatype Row = Row(name: string, icon: string, collapsed: bool, children: seq<int>)

  /** The rows of the store, by group id. */
  type Table = map<int, Row>

  /** A node of the JSON tree sent to clients. */
  datatype Group = Group(id: int, name: string, icon: string, collapsed: bool, children: seq<Group>)

  /** What the store's query yields for `id`: its row, or a zero-valued row (empty name and
      icon, not collapsed, no children) when no row has that id. */
  function Lookup(t: Table, id: int): (row: Row)
    ensures id in t ==> row == t[id]
    ensures id !in t ==> row.name == "" && row.icon == "" && !row.collapsed && row.children == []
  {
    if id in t then t[id] else Row("", "", false, [])
  }

  /** A rank on the ids reachable from where the resolver starts: a ranked id's children are
      ranked, strictly below it. Ids outside the rank are unconstrained, so a cycle among groups
      that no ranked id reaches is allowed. */
  predicate Ranked(t: Table, rank: map<int, nat>) {
    forall id, i :: id in rank && id in t && 0 <= i < |t[id].children| ==>
      t[id].children[i] in rank && rank[t[id].children[i]] < rank[id]
  }

  /** `g` is the materialisation of its own id: its columns are that id's row and its children
      are, one-to-one and in order, materialisations of the row's child ids. */
  predicate Materializes(t: Table, g: Group)
    decreases g
  {
    var row := Lookup(t, g.id);
    && g.name == row.name && g.icon == row.icon && g.collapsed == row.collapsed
    && |g.children| == |row.children|
    && forall i :: 0 <= i < |g.children| ==>
         g.children[i].id == row.children[i] && Materializes(t, g.children[i])
  }

  /** The resolver `newGroup`: the node for `id` with its subtree, children in the order the
      store lists them. */
  function NewGroup(t: Table, ghost rank: map<int, nat>, id: int): (g: Group)
    requires Ranked(t, rank) && id in rank
    ensures g.id == id
    ensures Materializes(t, g)
    decreases rank[id]
  {
    var row := Lookup(t, id);
    Group(id, row.name, row.icon, row.collapsed,
          seq(|row.children|, i requires 0 <= i < |row.children| => NewGroup(t, rank, row.children[i])))
  }

  /** There is exactly one materialisation of an id: the one `NewGroup` builds. */
  lemma {:induction false} MaterializationIsUnique(t: Table, rank: map<int, nat>, g: Group)
    requires Ranked(t, rank) && g.id in rank
    requires Materializes(t, g)
    ensures g == NewGroup(t, rank, g.id)
    decreases g
  {
    var h := NewGroup(t, rank, g.id);
    forall i | 0 <= i < |g.children|
      ensures g.children[i] == h.children[i]
    {
      MaterializationIsUnique(t, rank, g.children[i]);
    }
  }

  /** The tree depends on the table only: any rank that witnesses acyclicity gives the same tree. */
  lemma TreeIndependentOfRank(t: Table, rank1: map<int, nat>, rank2: map<int, nat>, id: int)
    requires Ranked(t, rank1) && Ranked(t, rank2) && id in rank1 && id in rank2
    ensures NewGroup(t, rank1, id) == NewGroup(t, rank2, id)
  {
    MaterializationIsUnique(t, rank2, NewGroup(t, rank1, id));
  }

  function Height(g: Group): nat
    decreases g
  {
    1 + MaxHeight(g.children)
  }

  function MaxHeight(gs: seq<Group>): nat
    decreases gs
  {
    if gs == [] then 0
    else
      var h := Height(gs[|gs| - 1]);
      var m := MaxHeight(gs[..|gs| - 1]);
      if h > m then h else m
  }

  lemma {:induction false} MaxHeightBound(gs: seq<Group>, bound: nat)
    requires forall i :: 0 <= i < |gs| ==> Height(gs[i]) <= bound
    ensures MaxHeight(gs) <= bound
    decreases gs
  {
    if gs != [] {
      MaxHeightBound(gs[..|gs| - 1], bound);
    }
  }

  /** The recursion is no deeper than the rank of the id it starts from. */
  lemma {:induction false} HeightBoundedByRank(t: Table, rank: map<int, nat>, id: int)
    requires Ranked(t, rank) && id in rank
    ensures Height(NewGroup(t, rank, id)) <= rank[id] + 1
    decreases rank[id]
  {
    var g := NewGroup(t, rank, id);
    var row := Lookup(t, id);
    if g.children != [] {
      forall i | 0 <= i < |g.children|
        ensures Height(g.children[i]) <= rank[id]
      {
        HeightBoundedByRank(t, rank, row.children[i]);
      }
      MaxHeightBound(g.children, rank[id]);
    }
  }

  /** The three virtual groups every listing starts with. */
  const VirtualGroups: seq<Group> := [
    Group(-1, "Unsorted", "", false, []),
    Group(-2, "Trash", "", false, []),
    Group(-3, "Everything", "", false, [])
  ]

  /** The `/:cluster/groups` listing: the virtual groups, then the tree of every root group in
      the order the root query returned them. */
  method ListGroups(t: Table, ghost rank: map<int, nat>, roots: seq<int>) returns (output: seq<Group>)
    requires Ranked(t, rank) && forall r :: r in roots ==> r in rank
    ensures |output| == 3 + |roots|
    ensures output[..3] == VirtualGroups
    ensures forall j :: 3 <= j < |output| ==> output[j].id == roots[j - 3] && Materializes(t, output[j])
    ensures roots == [] ==> output == VirtualGroups
  {
    output := [];
    output := output + [Group(-1, "Unsorted", "", false, [])];
    output := output + [Group(-2, "Trash", "", false, [])];
    output := output + [Group(-3, "Everything", "", false, [])];
    for k := 0 to |roots|
      invariant |output| == 3 + k
      invariant output[..3] == VirtualGroups
      invariant forall j :: 3 <= j < |output| ==> output[j].id == roots[j - 3] && Materializes(t, output[j])
    {
      output := output + [NewGroup(t, rank, roots[k])];
    }
  }

  /** Example: root "Photos" (5) with one child "2024" (9). */
  lemma PhotosExample()
    ensures
      var t := map[5 := Row("Photos", "", false, [9]), 9 := Row("2024", "", false, [])];
      var rank := map[5 := 1, 9 := 0];
      Ranked(t, rank) &&
      NewGroup(t, rank, 5) == Group(5, "Photos", "", false, [Group(9, "2024", "", false, [])])
  {
  }

  /** A cycle that no root reaches does not stop the listing: with root 5 and groups 7 and 8
      each other's parent, the tree of 5 is still resolved. */
  lemma UnreachableCycleExample()
    ensures
      var t := map[5 := Row("Photos", "", false, []), 7 := Row("A", "", false, [8]), 8 := Row("B", "", false, [7])];
      var rank := map[5 := 0];
      Ranked(t, rank) && NewGroup(t, rank, 5) == Group(5, "Photos", "", false, [])
  {
  }

  /** A group record as `POST /:cluster/groups` hands it to the store. `parent` is the record's
      integer field; it keeps its zero value when no parent is set, and the store reads a zero
      parent as none, which is what makes such a group a root. */
  datatype GroupRecord = GroupRecord(cluster: int, name: string, parent: int, collapsed: bool)

  /** The record makes a root group: its parent field is the zero value. */
  predicate IsRoot(r: GroupRecord) {
    r.parent == 0
  }

  /** A negative requested parent leaves the parent field at its zero value; any other value is
      copied into it. The record keeps the cluster and the name and is not collapsed. */
  function CreateGroup(cluster: int, name: string, parent: int): (r: GroupRecord)
    ensures IsRoot(r) <==> parent <= 0
    ensures parent >= 0 ==> r.parent == parent
    ensures r.parent >= 0
    ensures r.cluster == cluster && r.name == name && !r.collapsed
  {
    if parent < 0 then GroupRecord(cluster, name, 0, false)
    else GroupRecord(cluster, name, parent, false)
  }

  /** A requested parent of 0 and any negative one build the very same record. */
  lemma NegativeParentIsZeroParent(cluster: int, name: string, parent: int)
    requires parent < 0
    ensures CreateGroup(cluster, name, parent) == CreateGroup(cluster, name, 0)
  {
  }

  /** Naming one of the virtual groups as the parent creates a root group: they are never
      stored, and their ids are all negative. */
  lemma VirtualParentMakesRoot(cluster: int, name: string, v: Group)
    requires v in VirtualGroups
    ensures IsRoot(CreateGroup(cluster, name, v.id))
  {
  }
}
