/** The recursive bound on fetched JSON documents. */
module BoundedJson {
  import opened Results

  datatype Json = Scalar | Array(items: seq<Json>) | Object(members: seq<Member>)
  datatype Member = Member(key: string, value: Json)

  const MAX_DEPTH := 16
  const MAX_NODES := 2048
  const MAX_KEY := 256

  // ---- the measures, on the whole tree ----

  function Nodes(j: Json): nat {
    match j
    case Scalar => 1
    case Array(items) => 1 + ItemNodes(items)
    case Object(members) => 1 + MemberNodes(members)
  }

  function ItemNodes(items: seq<Json>): nat {
    if items == [] then 0 else ItemNodes(items[..|items| - 1]) + Nodes(items[|items| - 1])
  }

  function MemberNodes(members: seq<Member>): nat {
    if members == [] then 0 else MemberNodes(members[..|members| - 1]) + OfMember(members[|members| - 1])
  }

  function OfMember(m: Member): nat { Nodes(m.value) }

  /** Whether no node lies deeper than `levels` below the root. */
  predicate Within(j: Json, levels: int) {
    levels >= 0 &&
    match j
    case Scalar => true
    case Array(items) => forall i :: 0 <= i < |items| ==> Within(items[i], levels - 1)
    case Object(members) => forall i :: 0 <= i < |members| ==> MemberWithin(members[i], levels - 1)
  }

  predicate MemberWithin(m: Member, levels: int) { Within(m.value, levels) }

  predicate KeysShort(j: Json) {
    match j
    case Scalar => true
    case Array(items) => forall i :: 0 <= i < |items| ==> KeysShort(items[i])
    case Object(members) => forall i :: 0 <= i < |members| ==> MemberShort(members[i])
  }

  predicate MemberShort(m: Member) { |m.key| <= MAX_KEY && KeysShort(m.value) }

  predicate Bounded(j: Json, depth: nat) {
    Within(j, MAX_DEPTH - depth) && Nodes(j) <= MAX_NODES && KeysShort(j)
  }

  lemma {:induction false} ItemNodesAtLeast(items: seq<Json>, i: nat)
    requires i <= |items|
    ensures ItemNodes(items) >= ItemNodes(items[..i])
    ensures i < |items| ==> ItemNodes(items[..i + 1]) == ItemNodes(items[..i]) + Nodes(items[i])
    decreases |items|
  {
    if i < |items| {
      var init := items[..|items| - 1];
      assert init[..i] == items[..i] && items[..i + 1][..i] == items[..i];
      ItemNodesAtLeast(init, i);
    } else {
      assert items[..i] == items;
    }
  }

  lemma {:induction false} MemberNodesAtLeast(members: seq<Member>, i: nat)
    requires i <= |members|
    ensures MemberNodes(members) >= MemberNodes(members[..i])
    ensures i < |members| ==> MemberNodes(members[..i + 1]) == MemberNodes(members[..i]) + Nodes(members[i].value)
    decreases |members|
  {
    if i < |members| {
      var init := members[..|members| - 1];
      assert init[..i] == members[..i] && members[..i + 1][..i] == members[..i];
      MemberNodesAtLeast(init, i);
    } else {
      assert members[..i] == members;
    }
  }

  /** _bounded_json: exact on every tree within the bounds, and raising on every other, although each subtree
      is checked only after its children were counted. */
  method CheckBounded(j: Json, depth: nat) returns (r: Result<nat>)
    ensures r.Ok? <==> Bounded(j, depth)
    ensures r.Ok? ==> r.value == Nodes(j)
    decreases j, 1
  {
    if depth > MAX_DEPTH { return Raised; }
    var children := Ok(0);
    match j {
      case Scalar =>
      case Object(members) => children := CheckMembers(j, members, depth);
      case Array(items) => children := CheckItems(j, items, depth);
    }
    if children.Raised? || 1 + children.value > MAX_NODES { return Raised; }
    r := Ok(1 + children.value);
  }

  predicate ItemBounded(item: Json, depth: nat) {
    KeysShort(item) && Within(item, MAX_DEPTH - depth - 1) && Nodes(item) <= MAX_NODES
  }

  predicate MemberBounded(m: Member, depth: nat) { |m.key| <= MAX_KEY && ItemBounded(m.value, depth) }

  method CheckItems(ghost j: Json, items: seq<Json>, depth: nat) returns (r: Result<nat>)
    requires j == Array(items) && depth <= MAX_DEPTH
    ensures r.Ok? ==> KeysShort(j) && Within(j, MAX_DEPTH - depth) && r.value == ItemNodes(items)
    ensures r.Raised? ==> !Bounded(j, depth)
    decreases j, 0
  {
    var count := 0;
    var i := 0;
    while i < |items|
      invariant 0 <= i <= |items|
      invariant count == ItemNodes(items[..i])
      invariant forall k :: 0 <= k < i ==> ItemBounded(items[k], depth)
    {
      ItemNodesAtLeast(items, i);
      ItemNodesAtLeast(items, i + 1);
      var child := CheckBounded(items[i], depth + 1);
      if child.Raised? {
        assert !ItemBounded(items[i], depth);
        return Raised;
      }
      count := count + child.value;
      i := i + 1;
    }
    assert items[..i] == items;
    assert forall k :: 0 <= k < |items| ==> ItemBounded(items[k], depth);
    r := Ok(count);
  }

  method CheckMembers(ghost j: Json, members: seq<Member>, depth: nat) returns (r: Result<nat>)
    requires j == Object(members) && depth <= MAX_DEPTH
    ensures r.Ok? ==> KeysShort(j) && Within(j, MAX_DEPTH - depth) && r.value == MemberNodes(members)
    ensures r.Raised? ==> !Bounded(j, depth)
    decreases j, 0
  {
    var count := 0;
    var i := 0;
    while i < |members|
      invariant 0 <= i <= |members|
      invariant count == MemberNodes(members[..i])
      invariant forall k :: 0 <= k < i ==> MemberBounded(members[k], depth)
    {
      var m := members[i];
      MemberNodesAtLeast(members, i);
      MemberNodesAtLeast(members, i + 1);
      assert m < j;
      if |m.key| > MAX_KEY {
        assert !MemberShort(members[i]) && !MemberBounded(members[i], depth);
        return Raised;
      }
      var child := CheckBounded(m.value, depth + 1);
      if child.Raised? {
        assert !MemberBounded(members[i], depth);
        assert MemberWithin(members[i], MAX_DEPTH - depth - 1) <==> Within(m.value, MAX_DEPTH - depth - 1);
        assert MemberShort(members[i]) <==> KeysShort(m.value);
        return Raised;
      }
      count := count + child.value;
      i := i + 1;
    }
    assert members[..i] == members;
    forall k | 0 <= k < |members|
      ensures MemberShort(members[k]) && MemberWithin(members[k], MAX_DEPTH - depth - 1)
    {
      assert MemberBounded(members[k], depth);
    }
    r := Ok(count);
  }

  // ---- the measures, node by node ----

  function Kids(j: Json): seq<Json> {
    match j
    case Scalar => []
    case Array(items) => items
    case Object(members) => seq(|members|, i requires 0 <= i < |members| => members[i].value)
  }

  /** Following these child numbers from the root leads to this node. */
  predicate LeadsTo(j: Json, path: seq<nat>, node: Json) {
    if path == [] then node == j
    else path[0] < |Kids(j)| && LeadsTo(Kids(j)[path[0]], path[1..], node)
  }

  ghost predicate DeepestAt(j: Json, levels: int) { forall path, node :: LeadsTo(j, path, node) ==> |path| <= levels }

  predicate KeysOf(node: Json, longest: nat) {
    node.Object? ==> forall i :: 0 <= i < |node.members| ==> |node.members[i].key| <= longest
  }

  ghost predicate AllKeys(j: Json, longest: nat) {
    forall path, node :: LeadsTo(j, path, node) ==> KeysOf(node, longest)
  }

  lemma KidBelow(j: Json, i: nat)
    requires i < |Kids(j)|
    ensures Kids(j)[i] < j
  {
    if j.Object? { assert j.members[i] < j; }
  }

  lemma KidLeads(j: Json, i: nat, path: seq<nat>, node: Json)
    requires i < |Kids(j)|
    ensures LeadsTo(Kids(j)[i], path, node) <==> LeadsTo(j, [i] + path, node)
  {
    assert ([i] + path)[1..] == path;
  }

  /** The depth bound is a bound on how far any node is from the root. */
  lemma {:induction false} WithinMeans(j: Json, levels: int)
    ensures Within(j, levels) <==> DeepestAt(j, levels)
    decreases j
  {
    assert LeadsTo(j, [], j);
    forall i: nat | i < |Kids(j)| ensures Within(Kids(j)[i], levels - 1) <==> DeepestAt(Kids(j)[i], levels - 1) {
      KidBelow(j, i);
      WithinMeans(Kids(j)[i], levels - 1);
    }
    DeepestByKids(j, levels);
    WithinByKids(j, levels);
  }

  lemma WithinByKids(j: Json, levels: int)
    ensures Within(j, levels) <==> levels >= 0 && forall i :: 0 <= i < |Kids(j)| ==> Within(Kids(j)[i], levels - 1)
  {
    match j
    case Scalar =>
    case Array(items) => assert Kids(j) == items;
    case Object(members) =>
      forall i | 0 <= i < |members| ensures MemberWithin(members[i], levels - 1) <==> Within(Kids(j)[i], levels - 1) {
        assert Kids(j)[i] == members[i].value;
      }
  }

  lemma DeepestByKids(j: Json, levels: int)
    ensures DeepestAt(j, levels) <==>
      levels >= 0 && forall i :: 0 <= i < |Kids(j)| ==> DeepestAt(Kids(j)[i], levels - 1)
  {
    assert LeadsTo(j, [], j);
    if DeepestAt(j, levels) {
      forall i: nat, path, node | i < |Kids(j)| && LeadsTo(Kids(j)[i], path, node) ensures |path| <= levels - 1 {
        KidLeads(j, i, path, node);
        assert |[i] + path| <= levels;
      }
    }
    if levels >= 0 && forall i :: 0 <= i < |Kids(j)| ==> DeepestAt(Kids(j)[i], levels - 1) {
      forall path, node | LeadsTo(j, path, node) ensures |path| <= levels {
        if path != [] {
          assert DeepestAt(Kids(j)[path[0]], levels - 1);
          assert LeadsTo(Kids(j)[path[0]], path[1..], node) && |path[1..]| == |path| - 1;
        }
      }
    }
  }

  /** The key bound is a bound on every key of every object of the tree. */
  lemma {:induction false} KeysMean(j: Json)
    ensures KeysShort(j) <==> AllKeys(j, MAX_KEY)
    decreases j
  {
    forall i: nat | i < |Kids(j)| ensures KeysShort(Kids(j)[i]) <==> AllKeys(Kids(j)[i], MAX_KEY) {
      KidBelow(j, i);
      KeysMean(Kids(j)[i]);
    }
    AllKeysByKids(j, MAX_KEY);
    KeysByKids(j);
  }

  lemma KeysByKids(j: Json)
    ensures KeysShort(j) <==> KeysOf(j, MAX_KEY) && forall i :: 0 <= i < |Kids(j)| ==> KeysShort(Kids(j)[i])
  {
    match j
    case Scalar =>
    case Array(items) => assert Kids(j) == items;
    case Object(members) =>
      forall i | 0 <= i < |members|
        ensures MemberShort(members[i]) <==> |members[i].key| <= MAX_KEY && KeysShort(Kids(j)[i])
      {
        assert Kids(j)[i] == members[i].value;
      }
  }

  lemma AllKeysByKids(j: Json, longest: nat)
    ensures AllKeys(j, longest) <==>
      KeysOf(j, longest) && forall i :: 0 <= i < |Kids(j)| ==> AllKeys(Kids(j)[i], longest)
  {
    assert LeadsTo(j, [], j);
    if AllKeys(j, longest) {
      forall i: nat, path, node | i < |Kids(j)| && LeadsTo(Kids(j)[i], path, node) ensures KeysOf(node, longest) {
        KidLeads(j, i, path, node);
      }
    }
    if KeysOf(j, longest) && forall i :: 0 <= i < |Kids(j)| ==> AllKeys(Kids(j)[i], longest) {
      forall path, node | LeadsTo(j, path, node) ensures KeysOf(node, longest) {
        if path != [] {
          assert AllKeys(Kids(j)[path[0]], longest);
          assert LeadsTo(Kids(j)[path[0]], path[1..], node);
        }
      }
    }
  }

  // ---- the count is the number of places ----

  function Moved(paths: set<seq<nat>>, i: nat): set<seq<nat>> { set path | path in paths :: [i] + path }

  lemma MovedHolds(paths: set<seq<nat>>, i: nat, path: seq<nat>)
    ensures path in Moved(paths, i) <==> path != [] && path[0] == i && path[1..] in paths
  {
    if path != [] && path[0] == i { assert path == [i] + path[1..]; }
    forall p | p in paths ensures ([i] + p)[1..] == p {}
  }

  lemma {:induction false} MovedSize(paths: set<seq<nat>>, i: nat)
    ensures |Moved(paths, i)| == |paths|
    decreases |paths|
  {
    if paths != {} {
      var p :| p in paths;
      var rest := paths - {p};
      MovedSize(rest, i);
      MovedHolds(rest, i, [i] + p);
      assert ([i] + p)[1..] == p;
      assert Moved(paths, i) == Moved(rest, i) + {[i] + p};
    }
  }

  /** Where the nodes are: every path that leads somewhere. */
  function Places(j: Json): set<seq<nat>>
    decreases j, |Kids(j)| + 1
  {
    {[]} + PlacesBelow(j, |Kids(j)|)
  }

  /** Those below the first `n` children. */
  function PlacesBelow(j: Json, n: nat): set<seq<nat>>
    requires n <= |Kids(j)|
    decreases j, n
  {
    if n == 0 then {}
    else
      KidBelow(j, n - 1);
      PlacesBelow(j, n - 1) + Moved(Places(Kids(j)[n - 1]), n - 1)
  }

  predicate Somewhere(j: Json, path: seq<nat>) {
    path == [] || (path[0] < |Kids(j)| && Somewhere(Kids(j)[path[0]], path[1..]))
  }

  lemma {:induction false} PlacesLead(j: Json, path: seq<nat>)
    ensures path in Places(j) <==> Somewhere(j, path)
    decreases j, |Kids(j)| + 1
  {
    BelowLead(j, |Kids(j)|, path);
  }

  lemma {:induction false} BelowLead(j: Json, n: nat, path: seq<nat>)
    requires n <= |Kids(j)|
    ensures path in PlacesBelow(j, n) <==> path != [] && path[0] < n && Somewhere(Kids(j)[path[0]], path[1..])
    decreases j, n
  {
    if n > 0 {
      BelowLead(j, n - 1, path);
      KidBelow(j, n - 1);
      MovedHolds(Places(Kids(j)[n - 1]), n - 1, path);
      if path != [] && path[0] == n - 1 { PlacesLead(Kids(j)[n - 1], path[1..]); }
    }
  }

  /** The nodes below the first `n` children. */
  function Below(j: Json, n: nat): nat
    requires n <= |Kids(j)|
  {
    match j
    case Scalar => 0
    case Array(items) => ItemNodes(items[..n])
    case Object(members) => MemberNodes(members[..n])
  }

  lemma BelowNext(j: Json, n: nat)
    requires 0 < n <= |Kids(j)|
    ensures Below(j, n) == Below(j, n - 1) + Nodes(Kids(j)[n - 1])
  {
    if j.Array? { ItemNodesAtLeast(j.items, n - 1); }
    if j.Object? { MemberNodesAtLeast(j.members, n - 1); }
  }

  /** The count is the number of places in the tree. */
  lemma {:induction false} NodesArePlaces(j: Json)
    ensures Nodes(j) == |Places(j)|
    decreases j, |Kids(j)| + 1
  {
    BelowCounted(j, |Kids(j)|);
    BelowLead(j, |Kids(j)|, []);
    Disjoint({[]}, PlacesBelow(j, |Kids(j)|));
    if j.Array? { assert j.items[..|j.items|] == j.items; }
    if j.Object? { assert j.members[..|j.members|] == j.members; }
  }

  lemma Disjoint(a: set<seq<nat>>, b: set<seq<nat>>)
    requires a !! b
    ensures |a + b| == |a| + |b|
  {
  }

  lemma {:induction false} BelowCounted(j: Json, n: nat)
    requires n <= |Kids(j)|
    ensures |PlacesBelow(j, n)| == Below(j, n)
    decreases j, n
  {
    if n > 0 {
      BelowCounted(j, n - 1);
      KidBelow(j, n - 1);
      NodesArePlaces(Kids(j)[n - 1]);
      MorePlaces(j, n);
      BelowNext(j, n);
    }
  }

  lemma MorePlaces(j: Json, n: nat)
    requires 0 < n <= |Kids(j)|
    ensures |PlacesBelow(j, n)| == |PlacesBelow(j, n - 1)| + |Places(Kids(j)[n - 1])|
  {
    var kid := Places(Kids(j)[n - 1]);
    MovedSize(kid, n - 1);
    NewPlaces(j, n);
    Disjoint(PlacesBelow(j, n - 1), Moved(kid, n - 1));
  }

  lemma NewPlaces(j: Json, n: nat)
    requires 0 < n <= |Kids(j)|
    ensures PlacesBelow(j, n - 1) !! Moved(Places(Kids(j)[n - 1]), n - 1)
  {
    var before, moved := PlacesBelow(j, n - 1), Moved(Places(Kids(j)[n - 1]), n - 1);
    forall path | path in before ensures path !in moved {
      BelowLead(j, n - 1, path);
      MovedHolds(Places(Kids(j)[n - 1]), n - 1, path);
    }
  }

  /** The three bounds, node by node: at most 16 levels below the root, 2048 places, keys of 256 characters. */
  lemma BoundedMeans(j: Json)
    ensures Bounded(j, 0) <==> DeepestAt(j, 16) && |Places(j)| <= 2048 && AllKeys(j, 256)
  {
    WithinMeans(j, 16);
    NodesArePlaces(j);
    KeysMean(j);
  }
}
