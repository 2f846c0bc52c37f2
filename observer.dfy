/** The `MutationObserver` callback of the userscript: every directly added
    `SCRIPT` node whose `src` contains a blocked entry is removed from the
    document. */
module Observer {
  import opened Wrappers
  import opened Strings
  import opened Classifier

  /** A DOM node as the callback reads it: its identity, its `tagName`
      (`""` for nodes that are not elements) and its `src` property
      (`None` where the property is undefined). */
  datatype Node = Node(id: nat, tagName: string, src: Option<string>)

  /** One mutation record; only its `addedNodes` list is read. */
  datatype MutationRecord = MutationRecord(addedNodes: seq<Node>)

  /** `node.src || ''`. */
  function SourceOf(n: Node): string
  {
    if n.src.Some? then n.src.value else ""
  }

  /** The removal test: the upper-case tag `SCRIPT` and a `src` string that
      contains some blocked entry anywhere, not only in its host. */
  predicate IsBlockedScript(n: Node)
  {
    n.tagName == "SCRIPT" && ContainsAny(SourceOf(n), BlockedDomains)
  }

  /** The test reads the whole `src` string: a script is removed when a
      blocked entry occurs anywhere in it, in the query as well as the host. */
  lemma {:induction false} BlockedEntryAnywhereInSource(id: nat, before: string, after: string)
    ensures IsBlockedScript(Node(id, "SCRIPT", Some(before + "youtu-chan.com" + after)))
  {
    assert OccursAt("youtu-chan.com", "youtu-chan.com", 0);
    ContainsInMiddle(before, "youtu-chan.com", after, "youtu-chan.com");
    assert BlockedDomains[0] == "youtu-chan.com";
  }

  /** The identities of the blocked scripts in one list of added nodes. */
  function Doomed(added: seq<Node>): set<nat>
  {
    if added == [] then {}
    else
      var last := added[|added| - 1];
      Doomed(added[..|added| - 1]) + (if IsBlockedScript(last) then {last.id} else {})
  }

  /** An identity is doomed exactly when some added node with that identity
      is a blocked script. */
  lemma {:induction false} DoomedMembers(added: seq<Node>, id: nat)
    ensures id in Doomed(added) <==>
              exists k :: 0 <= k < |added| && added[k].id == id && IsBlockedScript(added[k])
  {
    if added != [] {
      var n := |added| - 1;
      var init := added[..n];
      DoomedMembers(init, id);
      if id in Doomed(init) {
        var k :| 0 <= k < n && init[k].id == id && IsBlockedScript(init[k]);
        assert init[k] == added[k];
      }
      if exists k :: 0 <= k < |added| && added[k].id == id && IsBlockedScript(added[k]) {
        var k :| 0 <= k < |added| && added[k].id == id && IsBlockedScript(added[k]);
        if k < n {
          assert init[k] == added[k];
        }
      }
    }
  }

  /** The identities of the blocked scripts added by a batch of records. */
  function DoomedIn(mutations: seq<MutationRecord>): set<nat>
  {
    if mutations == [] then {}
    else DoomedIn(mutations[..|mutations| - 1]) + Doomed(mutations[|mutations| - 1].addedNodes)
  }

  /** An identity is doomed by a batch exactly when one of its records dooms it. */
  lemma {:induction false} DoomedInMembers(mutations: seq<MutationRecord>, id: nat)
    ensures id in DoomedIn(mutations) <==>
              exists i :: 0 <= i < |mutations| && id in Doomed(mutations[i].addedNodes)
  {
    if mutations != [] {
      var n := |mutations| - 1;
      var init := mutations[..n];
      DoomedInMembers(init, id);
      if id in DoomedIn(init) {
        var i :| 0 <= i < n && id in Doomed(init[i].addedNodes);
        assert init[i] == mutations[i];
      }
      if exists i :: 0 <= i < |mutations| && id in Doomed(mutations[i].addedNodes) {
        var i :| 0 <= i < |mutations| && id in Doomed(mutations[i].addedNodes);
        if i < n {
          assert init[i] == mutations[i];
        }
      }
    }
  }

  /** The document order with every node whose identity is in `ids`
      detached, the other nodes kept in their order. */
  function Without(nodes: seq<Node>, ids: set<nat>): (r: seq<Node>)
    ensures forall n :: n in r <==> n in nodes && n.id !in ids
  {
    if nodes == [] then []
    else if nodes[0].id in ids then Without(nodes[1..], ids)
    else [nodes[0]] + Without(nodes[1..], ids)
  }

  /** Detaching the nodes of `a` and then those of `b` detaches both. */
  lemma {:induction false} WithoutWithout(nodes: seq<Node>, a: set<nat>, b: set<nat>)
    ensures Without(Without(nodes, a), b) == Without(nodes, a + b)
  {
    if nodes != [] {
      WithoutWithout(nodes[1..], a, b);
    }
  }

  /** Detaching only identities that do not occur leaves the order as it was. */
  lemma {:induction false} WithoutNothing(nodes: seq<Node>, ids: set<nat>)
    requires forall k :: 0 <= k < |nodes| ==> nodes[k].id !in ids
    ensures Without(nodes, ids) == nodes
  {
    if nodes != [] {
      WithoutNothing(nodes[1..], ids);
    }
  }

  /** Detaching works piece by piece: the survivors of a concatenation are
      the survivors of each part, in the same relative order. */
  lemma {:induction false} WithoutAppend(front: seq<Node>, back: seq<Node>, ids: set<nat>)
    ensures Without(front + back, ids) == Without(front, ids) + Without(back, ids)
  {
    if front == [] {
      assert front + back == back;
    } else {
      var whole := front + back;
      assert whole[0] == front[0];
      assert whole[1..] == front[1..] + back;
      WithoutAppend(front[1..], back, ids);
      var rest := Without(front[1..], ids);
      if front[0].id !in ids {
        assert [front[0]] + (rest + Without(back, ids)) == ([front[0]] + rest) + Without(back, ids);
      }
    }
  }

  /** The live document, flattened to its nodes in document order.  Removing
      a node takes out its own entry only; its descendants keep theirs. */
  class Document {
    var nodes: seq<Node>

    constructor(nodes: seq<Node>)
      ensures this.nodes == nodes
    {
      this.nodes := nodes;
    }

    /** `node.remove()`: the node's entry leaves the document; a node that
        is not attached is left alone. */
    method Remove(node: Node)
      modifies this
      ensures nodes == Without(old(nodes), {node.id})
    {
      nodes := Without(nodes, {node.id});
    }

    /** `mutation.addedNodes.forEach(...)` for one record: each blocked
        script among the added nodes is removed, in list order. */
    method OnRecord(added: seq<Node>)
      modifies this
      ensures nodes == Without(old(nodes), Doomed(added))
    {
      assert added[..0] == [];
      WithoutNothing(nodes, Doomed(added[..0]));
      for j := 0 to |added|
        invariant nodes == Without(old(nodes), Doomed(added[..j]))
      {
        var node := added[j];
        assert added[..j + 1][..j] == added[..j];
        ghost var step := if IsBlockedScript(node) then {node.id} else {};
        assert Doomed(added[..j + 1]) == Doomed(added[..j]) + step;
        if node.tagName == "SCRIPT" {
          var src := if node.src.Some? then node.src.value else "";
          if ContainsAny(src, BlockedDomains) {
            Remove(node);
            WithoutWithout(old(nodes), Doomed(added[..j]), {node.id});
          } else {
            assert Doomed(added[..j]) + step == Doomed(added[..j]);
          }
        } else {
          assert Doomed(added[..j]) + step == Doomed(added[..j]);
        }
      }
      assert added[..|added|] == added;
    }

    /** The observer callback over one batch: the blocked scripts among the
        added nodes are removed and every other node stays where it was. */
    method OnMutations(mutations: seq<MutationRecord>)
      modifies this
      ensures nodes == Without(old(nodes), DoomedIn(mutations))
    {
      assert mutations[..0] == [];
      WithoutNothing(nodes, DoomedIn(mutations[..0]));
      for i := 0 to |mutations|
        invariant nodes == Without(old(nodes), DoomedIn(mutations[..i]))
      {
        OnRecord(mutations[i].addedNodes);
        WithoutWithout(old(nodes), DoomedIn(mutations[..i]), Doomed(mutations[i].addedNodes));
        assert mutations[..i + 1][..i] == mutations[..i];
      }
      assert mutations[..|mutations|] == mutations;
    }
  }

  /** An identity is doomed by a batch exactly when a blocked script with
      that identity is among the nodes some record added. */
  lemma DoomedByBatch(mutations: seq<MutationRecord>, id: nat)
    ensures id in DoomedIn(mutations) <==>
              exists i, k :: 0 <= i < |mutations| && 0 <= k < |mutations[i].addedNodes| &&
                mutations[i].addedNodes[k].id == id && IsBlockedScript(mutations[i].addedNodes[k])
  {
    DoomedInMembers(mutations, id);
    forall i | 0 <= i < |mutations|
      ensures id in Doomed(mutations[i].addedNodes) <==>
                exists k :: 0 <= k < |mutations[i].addedNodes| &&
                  mutations[i].addedNodes[k].id == id && IsBlockedScript(mutations[i].addedNodes[k])
    {
      DoomedMembers(mutations[i].addedNodes, id);
    }
  }

  /** After a batch, no blocked script that was added is still attached. */
  lemma BlockedScriptsGone(before: seq<Node>, mutations: seq<MutationRecord>, i: nat, k: nat)
    requires i < |mutations| && k < |mutations[i].addedNodes|
    requires IsBlockedScript(mutations[i].addedNodes[k])
    ensures forall n :: n in Without(before, DoomedIn(mutations)) ==> n.id != mutations[i].addedNodes[k].id
  {
    DoomedByBatch(mutations, mutations[i].addedNodes[k].id);
  }

  /** A node stays after a batch exactly when no blocked script with its
      identity was added in the batch; the survivors keep their order. */
  lemma SurvivorsAreTheUntouched(before: seq<Node>, mutations: seq<MutationRecord>, n: Node)
    ensures n in Without(before, DoomedIn(mutations)) <==>
              n in before &&
              !exists i, k :: 0 <= i < |mutations| && 0 <= k < |mutations[i].addedNodes| &&
                 mutations[i].addedNodes[k].id == n.id && IsBlockedScript(mutations[i].addedNodes[k])
  {
    DoomedByBatch(mutations, n.id);
  }

  /** A batch without a blocked script changes nothing. */
  lemma HarmlessBatchKeepsDocument(before: seq<Node>, mutations: seq<MutationRecord>)
    requires forall i, k :: 0 <= i < |mutations| && 0 <= k < |mutations[i].addedNodes| ==>
               !IsBlockedScript(mutations[i].addedNodes[k])
    ensures Without(before, DoomedIn(mutations)) == before
  {
    forall j | 0 <= j < |before|
      ensures before[j].id !in DoomedIn(mutations)
    {
      DoomedByBatch(mutations, before[j].id);
    }
    WithoutNothing(before, DoomedIn(mutations));
  }
}
