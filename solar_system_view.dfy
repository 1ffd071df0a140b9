// util/SolarSystemView: the registry of the visual delegates, one pane per
// astronomical object, kept in a LinkedHashMap from name to pane. No name
// and no pane is registered twice.
module View {
  import opened Wrappers
  import opened SceneGraph

  /**
   * The panes of a scene graph, closed under first-child links, with a
   * ranking that falls along every such link: the scene graph is a tree,
   * so following first children ends.
   */
  ghost predicate Ranked(tree: set<SmartPane>, rank: SmartPane -> nat)
    reads tree
  {
    forall q :: q in tree && q.children != [] && q.children[0].PaneNode? ==>
      q.children[0].pane in tree && rank(q.children[0].pane) < rank(q)
  }

  /**
   * Whether the first-child chain below pane p reaches node: the first
   * child, its first child, and so on while the child is a pane. A pane
   * without children on the way raises IndexOutOfBoundsException.
   */
  ghost function ChainHit(p: SmartPane, node: Node, tree: set<SmartPane>, rank: SmartPane -> nat): (r: Result<bool, Exception>)
    reads tree
    requires p in tree && Ranked(tree, rank)
    ensures r.Failure? ==> r.error == IndexOutOfBoundsException
    decreases rank(p)
  {
    if p.children == [] then Failure(IndexOutOfBoundsException)
    else if p.children[0] == node then Success(true)
    else if p.children[0].PaneNode? then ChainHit(p.children[0].pane, node, tree, rank)
    else Success(false)
  }

  /** The walk down the first-child chain of p, looking for node. */
  method WalkChain(p: SmartPane, node: Node, ghost tree: set<SmartPane>, ghost rank: SmartPane -> nat)
    returns (r: Result<bool, Exception>)
    requires p in tree && Ranked(tree, rank)
    ensures r == ChainHit(p, node, tree, rank)
  {
    var current := p;
    while true
      invariant current in tree
      invariant ChainHit(current, node, tree, rank) == ChainHit(p, node, tree, rank)
      decreases rank(current)
    {
      if current.children == [] {
        return Failure(IndexOutOfBoundsException);
      }
      var child := current.children[0];
      if child == node {
        return Success(true);
      }
      if !child.PaneNode? {
        return Success(false);
      }
      current := child.pane;
    }
  }

  /** A key the view accepts: neither null nor empty. */
  predicate UsableKey(key: Option<string>)
  {
    key.Some? && key.value != ""
  }

  class SolarSystemView {
    /** The keys of the LinkedHashMap, in insertion order. */
    var names: seq<string>
    /** The LinkedHashMap's contents. */
    var objects: map<string, SmartPane>

    /** The names are the map's keys, each once, and no pane is stored under two names. */
    ghost predicate Valid()
      reads this
    {
      (forall i, j :: 0 <= i < j < |names| ==> names[i] != names[j]) &&
      (forall k :: k in objects <==> k in names) &&
      (forall k1, k2 :: k1 in objects && k2 in objects && objects[k1] == objects[k2] ==> k1 == k2)
    }

    /** An empty view. */
    constructor()
      ensures Valid() && names == [] && objects == map[]
    {
      names := [];
      objects := map[];
    }

    /**
     * getObject: the pane registered under the name, or null; a null or
     * empty name raises NullPointerException.
     */
    function GetObject(name: Option<string>): (r: Result<Option<SmartPane>, Exception>)
      reads this
      ensures !UsableKey(name) <==> r == Failure(NullPointerException)
      ensures r.Success? && r.value.Some? ==> name.value in objects && objects[name.value] == r.value.value
      ensures r.Success? && r.value.None? ==> name.value !in objects
    {
      if !UsableKey(name) then Failure(NullPointerException)
      else if name.value in objects then Success(Some(objects[name.value]))
      else Success(None)
    }

    /**
     * put: registers the pane under the key. A null or empty key or a null
     * pane raises NullPointerException; a key already present, or a pane
     * already registered under another key, is refused and nothing
     * changes. The view stays a one-to-one registry.
     */
    method Put(key: Option<string>, element: SmartPane?) returns (r: Outcome<Exception>)
      requires Valid()
      modifies this
      ensures Valid()
      ensures !UsableKey(key) || element == null ==>
        r == Fail(NullPointerException) && names == old(names) && objects == old(objects)
      ensures UsableKey(key) && element != null && (key.value in old(objects) || element in old(objects).Values) ==>
        r == Pass && names == old(names) && objects == old(objects)
      ensures UsableKey(key) && element != null && key.value !in old(objects) && element !in old(objects).Values ==>
        r == Pass && names == old(names) + [key.value] && objects == old(objects)[key.value := element]
    {
      if !UsableKey(key) {
        return Fail(NullPointerException);
      }
      if element == null {
        return Fail(NullPointerException);
      }
      if key.value in objects {
        return Pass;
      }
      if element in objects.Values {
        return Pass;
      }
      names := names + [key.value];
      objects := objects[key.value := element];
      r := Pass;
    }

    /** getElements: a new map holding the same entries in the same order. */
    function Elements(): (e: seq<(string, SmartPane)>)
      reads this
      requires Valid()
      ensures |e| == |names|
      ensures forall i :: 0 <= i < |e| ==> e[i].0 == names[i] && e[i].0 in objects && e[i].1 == objects[e[i].0]
    {
      seq(|names|, i requires 0 <= i < |names| && names[i] in objects reads this => (names[i], objects[names[i]]))
    }

    /** getNames: a new array of the names, one per entry, in insertion order. */
    method GetNames() returns (a: array<string>)
      requires Valid()
      ensures fresh(a)
      ensures a[..] == names && a.Length == |objects|
    {
      a := new string[|names|];
      var i := 0;
      while i < |names|
        invariant 0 <= i <= |names|
        invariant a[..i] == names[..i]
        modifies a
      {
        a[i] := names[i];
        i := i + 1;
      }
      assert a[..] == a[..i];
      assert names == names[..i];
      NamesCountEntries();
    }

    /** The map has exactly as many entries as there are names. */
    lemma NamesCountEntries()
      requires Valid()
      ensures |objects| == |names|
    {
      var keys := set i | 0 <= i < |names| :: names[i];
      assert keys == objects.Keys;
      DistinctCount(names);
    }

    /**
     * What the search of getName knows after the first i entries: no pane
     * among them is the node, every chain below them ends without an
     * exception, and `name`, when set, is one of them whose chain reaches
     * the node; when unset, no chain among them reaches it.
     */
    ghost predicate Scanned(i: nat, name: Option<string>, node: Node, tree: set<SmartPane>, rank: SmartPane -> nat)
      reads this, tree
      requires Valid() && Ranked(tree, rank) && i <= |names|
      requires forall k :: k in objects ==> objects[k] in tree
    {
      (name.Some? ==> name.value in objects && ChainHit(objects[name.value], node, tree, rank) == Success(true)) &&
      (name.None? ==> forall j :: 0 <= j < i ==> ChainHit(objects[names[j]], node, tree, rank) == Success(false)) &&
      (forall j :: 0 <= j < i ==>
         PaneNode(objects[names[j]]) != node && ChainHit(objects[names[j]], node, tree, rank).Success?)
    }

    /**
     * The outcome of the search of getName from entry i on, with `found`
     * the chain match remembered so far: an entry whose pane is the node
     * ends the search with its name; a chain walk that raises ends it with
     * the exception; a chain that reaches the node replaces `found`; after
     * the last entry the search answers `found`.
     */
    ghost function Search(i: nat, found: Option<string>, node: Node, tree: set<SmartPane>, rank: SmartPane -> nat)
      : (r: Result<Option<string>, Exception>)
      reads this, tree
      requires Valid() && Ranked(tree, rank) && i <= |names|
      requires forall k :: k in objects ==> objects[k] in tree
      ensures r.Failure? ==> r.error == IndexOutOfBoundsException
      ensures r.Success? && r.value.Some? ==> r.value == found || exists j :: i <= j < |names| && r.value.value == names[j]
      decreases |names| - i
    {
      if i == |names| then Success(found)
      else
        var element := objects[names[i]];
        if PaneNode(element) == node then Success(Some(names[i]))
        else
          var hit := ChainHit(element, node, tree, rank);
          if hit.Failure? then Failure(hit.error)
          else Search(i + 1, if hit.value then Some(names[i]) else found, node, tree, rank)
    }

    /** Past the last chain match, with no pane equal to the node, the search keeps what it found. */
    lemma {:induction false} SearchMisses(i: nat, found: Option<string>, node: Node, tree: set<SmartPane>, rank: SmartPane -> nat)
      requires Valid() && Ranked(tree, rank) && i <= |names|
      requires forall k :: k in objects ==> objects[k] in tree
      requires forall j :: i <= j < |names| ==>
        PaneNode(objects[names[j]]) != node && ChainHit(objects[names[j]], node, tree, rank) == Success(false)
      ensures Search(i, found, node, tree, rank) == Success(found)
      decreases |names| - i
    {
      if i < |names| {
        SearchMisses(i + 1, found, node, tree, rank);
      }
    }

    /**
     * With no pane equal to the node and no chain walk raising, the name
     * getName answers is that of the LAST entry whose chain reaches the
     * node: a later chain match overwrites an earlier one.
     */
    lemma {:induction false} LastChainMatchWins(k: nat, found: Option<string>, i: nat, node: Node,
                                                tree: set<SmartPane>, rank: SmartPane -> nat)
      requires Valid() && Ranked(tree, rank) && k <= i < |names|
      requires forall k :: k in objects ==> objects[k] in tree
      requires forall j :: k <= j < |names| ==>
        PaneNode(objects[names[j]]) != node && ChainHit(objects[names[j]], node, tree, rank).Success?
      requires ChainHit(objects[names[i]], node, tree, rank) == Success(true)
      requires forall j :: i < j < |names| ==> ChainHit(objects[names[j]], node, tree, rank) == Success(false)
      ensures Search(k, found, node, tree, rank) == Success(Some(names[i]))
      decreases i - k
    {
      if k == i {
        SearchMisses(i + 1, Some(names[i]), node, tree, rank);
      } else {
        var hit := ChainHit(objects[names[k]], node, tree, rank);
        LastChainMatchWins(k + 1, if hit.value then Some(names[k]) else found, i, node, tree, rank);
      }
    }

    /**
     * A chain walk that runs into a pane without children, before any
     * entry whose pane is the node, makes getName raise
     * IndexOutOfBoundsException, whatever the later entries hold.
     */
    lemma {:induction false} FirstFailureRaises(k: nat, found: Option<string>, i: nat, node: Node,
                                                tree: set<SmartPane>, rank: SmartPane -> nat)
      requires Valid() && Ranked(tree, rank) && k <= i < |names|
      requires forall k :: k in objects ==> objects[k] in tree
      requires forall j :: k <= j < i ==>
        PaneNode(objects[names[j]]) != node && ChainHit(objects[names[j]], node, tree, rank).Success?
      requires PaneNode(objects[names[i]]) != node && ChainHit(objects[names[i]], node, tree, rank).Failure?
      ensures Search(k, found, node, tree, rank) == Failure(IndexOutOfBoundsException)
      decreases i - k
    {
      if k < i {
        var hit := ChainHit(objects[names[k]], node, tree, rank);
        FirstFailureRaises(k + 1, if hit.value then Some(names[k]) else found, i, node, tree, rank);
      }
    }

    /**
     * getName: the name under which node is registered, as the pane itself
     * or somewhere down the pane's first-child chain; null when it is
     * nowhere. A null node raises NullPointerException; a chain that runs
     * into a pane without children raises IndexOutOfBoundsException. An
     * entry whose pane is the node ends the search; a chain match is
     * remembered and the search goes on, so a later chain match wins.
     */
    method GetName(node: Option<Node>, ghost tree: set<SmartPane>, ghost rank: SmartPane -> nat)
      returns (r: Result<Option<string>, Exception>)
      requires Valid() && Ranked(tree, rank)
      requires forall k :: k in objects ==> objects[k] in tree
      ensures node.None? ==> r == Failure(NullPointerException)
      ensures node.Some? ==> r == Search(0, None, node.value, tree, rank)
    {
      if node.None? {
        return Failure(NullPointerException);
      }
      var name: Option<string> := None;
      for i := 0 to |names|
        invariant Search(i, name, node.value, tree, rank) == Search(0, None, node.value, tree, rank)
      {
        var element := objects[names[i]];
        if PaneNode(element) == node.value {
          return Success(Some(names[i]));
        }
        var hit := WalkChain(element, node.value, tree, rank);
        if hit.Failure? {
          return Failure(hit.error);
        }
        if hit.value {
          name := Some(names[i]);
        }
      }
      r := Success(name);
    }

    /**
     * A name the search answers is registered, and its pane is the node or
     * its chain reaches the node; no name means that no pane is the node
     * and no chain reaches it.
     */
    lemma {:induction false} SearchFound(i: nat, found: Option<string>, node: Node, tree: set<SmartPane>, rank: SmartPane -> nat)
      requires Valid() && Ranked(tree, rank) && i <= |names|
      requires forall k :: k in objects ==> objects[k] in tree
      requires Scanned(i, found, node, tree, rank)
      ensures var r := Search(i, found, node, tree, rank);
        r.Success? && r.value.Some? ==>
          r.value.value in objects &&
          (PaneNode(objects[r.value.value]) == node || ChainHit(objects[r.value.value], node, tree, rank) == Success(true))
      ensures Search(i, found, node, tree, rank) == Success(None) ==>
        forall k :: k in objects ==>
          PaneNode(objects[k]) != node && ChainHit(objects[k], node, tree, rank) == Success(false)
      decreases |names| - i
    {
      if i == |names| {
        ScannedAll(found, node, tree, rank);
      } else if PaneNode(objects[names[i]]) != node && ChainHit(objects[names[i]], node, tree, rank).Success? {
        var hit := ChainHit(objects[names[i]], node, tree, rank);
        ScannedStep(i, found, node, tree, rank);
        SearchFound(i + 1, if hit.value then Some(names[i]) else found, node, tree, rank);
      }
    }

    /** The search raises only where the chain walk of some entry raises. */
    lemma {:induction false} SearchRaises(i: nat, found: Option<string>, node: Node, tree: set<SmartPane>, rank: SmartPane -> nat)
      requires Valid() && Ranked(tree, rank) && i <= |names|
      requires forall k :: k in objects ==> objects[k] in tree
      ensures Search(i, found, node, tree, rank).Failure? ==>
        exists j :: i <= j < |names| && ChainHit(objects[names[j]], node, tree, rank).Failure?
      decreases |names| - i
    {
      if i < |names| && PaneNode(objects[names[i]]) != node && ChainHit(objects[names[i]], node, tree, rank).Success? {
        var hit := ChainHit(objects[names[i]], node, tree, rank);
        SearchRaises(i + 1, if hit.value then Some(names[i]) else found, node, tree, rank);
      }
    }

    /**
     * The first entry whose pane is the node, reached without an exception
     * on the way, is the answer, whatever chain matched before it.
     */
    lemma {:induction false} FirstPaneWins(i: nat, found: Option<string>, m: nat, node: Node, tree: set<SmartPane>, rank: SmartPane -> nat)
      requires Valid() && Ranked(tree, rank) && i <= m < |names|
      requires forall k :: k in objects ==> objects[k] in tree
      requires PaneNode(objects[names[m]]) == node
      requires forall j :: i <= j < m ==> ChainHit(objects[names[j]], node, tree, rank).Success?
      ensures Search(i, found, node, tree, rank) == Success(Some(names[m]))
      decreases m - i
    {
      if i < m {
        assert names[i] != names[m];
        var hit := ChainHit(objects[names[i]], node, tree, rank);
        FirstPaneWins(i + 1, if hit.value then Some(names[i]) else found, m, node, tree, rank);
      }
    }

    /** One more entry whose pane is not the node and whose chain ends without an exception. */
    lemma ScannedStep(i: nat, name: Option<string>, node: Node, tree: set<SmartPane>, rank: SmartPane -> nat)
      requires Valid() && Ranked(tree, rank) && i < |names|
      requires forall k :: k in objects ==> objects[k] in tree
      requires Scanned(i, name, node, tree, rank)
      requires PaneNode(objects[names[i]]) != node && ChainHit(objects[names[i]], node, tree, rank).Success?
      ensures ChainHit(objects[names[i]], node, tree, rank).value ==> Scanned(i + 1, Some(names[i]), node, tree, rank)
      ensures !ChainHit(objects[names[i]], node, tree, rank).value ==> Scanned(i + 1, name, node, tree, rank)
    {
    }

    /**
     * After every entry: no pane is the node, and either `name` is an
     * entry whose chain reaches the node or no chain does.
     */
    lemma ScannedAll(name: Option<string>, node: Node, tree: set<SmartPane>, rank: SmartPane -> nat)
      requires Valid() && Ranked(tree, rank)
      requires forall k :: k in objects ==> objects[k] in tree
      requires Scanned(|names|, name, node, tree, rank)
      ensures name.Some? ==> name.value in objects && ChainHit(objects[name.value], node, tree, rank) == Success(true)
      ensures name.None? ==> forall k :: k in objects ==>
        PaneNode(objects[k]) != node && ChainHit(objects[k], node, tree, rank) == Success(false)
      ensures forall k :: k in objects ==> ChainHit(objects[k], node, tree, rank).Success?
      ensures forall i :: 0 <= i < |names| ==> PaneNode(objects[names[i]]) != node
    {
      forall k | k in objects
        ensures PaneNode(objects[k]) != node && ChainHit(objects[k], node, tree, rank).Success?
        ensures name.None? ==> ChainHit(objects[k], node, tree, rank) == Success(false)
      {
        var j :| 0 <= j < |names| && names[j] == k;
      }
    }
  }

  /** A sequence without repeats has as many distinct elements as entries. */
  lemma {:induction false} DistinctCount(s: seq<string>)
    requires forall i, j :: 0 <= i < j < |s| ==> s[i] != s[j]
    ensures |set i | 0 <= i < |s| :: s[i]| == |s|
  {
    if s != [] {
      var rest := s[..|s| - 1];
      DistinctCount(rest);
      var last := s[|s| - 1];
      assert (set i | 0 <= i < |s| :: s[i]) == (set i | 0 <= i < |rest| :: rest[i]) + {last};
      assert last !in (set i | 0 <= i < |rest| :: rest[i]);
    }
  }
}
