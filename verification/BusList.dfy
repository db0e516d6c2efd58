/** The children as a heap list of nodes, searched, extended and unlinked in place, and
    proved against the list as a value. */
module BusList {
  import opened Wrappers
  import opened HardwareId
  import opened BusChildren

  class ChildNode {
    var child: Child
    var next: ChildNode?

    constructor (child: Child, next: ChildNode?)
      ensures this.child == child && this.next == next
    {
      this.child, this.next := child, next;
    }
  }

  ghost function At(nodes: seq<ChildNode>, i: nat): ChildNode? {
    if i < |nodes| then nodes[i] else null
  }

  /** The nodes reached from `first` are these, in order, and hold these children. */
  ghost predicate Chain(first: ChildNode?, nodes: seq<ChildNode>, children: seq<Child>)
    reads nodes
  {
    && |nodes| == |children| && first == At(nodes, 0)
    && (forall i {:trigger nodes[i].next} :: 0 <= i < |nodes| ==> nodes[i].next == At(nodes, i + 1))
    && (forall i {:trigger nodes[i].child} {:trigger children[i]} :: 0 <= i < |nodes| ==> nodes[i].child == children[i])
    && (forall i, j :: 0 <= i < j < |nodes| ==> nodes[i] != nodes[j])
  }

  class BusState {
    var children: ChildNode?
    ghost var nodes: seq<ChildNode>

    /** The list as a value. */
    ghost var Contents: seq<Child>

    ghost predicate Valid()
      reads this, nodes
    {
      Chain(children, nodes, Contents) && Inv(Contents)
    }

    constructor ()
      ensures Valid() && Contents == []
    {
      children, nodes, Contents := null, [], [];
    }

    /** Walks the list to the node with this GUID. */
    method FindChild(guid: Guid) returns (node: ChildNode?)
      requires Valid()
      ensures node == At(nodes, IndexOf(Contents, guid))
      ensures node != null ==> node.child == Contents[IndexOf(Contents, guid)]
    {
      node := children;
      ghost var k := 0;
      while node != null
        invariant k <= |nodes| && node == At(nodes, k)
        invariant forall j :: 0 <= j < k ==> Contents[j].guid != guid
        decreases |nodes| - k
      {
        if node.child.guid == guid {
          IndexUnique(Contents, k);
          return;
        }
        node := node.next;
        k := k + 1;
      }
    }

    /** Changes the child a node of the list holds. */
    method SetChild(node: ChildNode, child: Child, ghost i: nat)
      requires Chain(children, nodes, Contents) && i < |nodes| && node == nodes[i]
      modifies node, this`Contents
      ensures Chain(children, nodes, Contents) && Contents == old(Contents)[i := child]
    {
      node.child := child;
      Contents := Contents[i := child];
    }

    /** Walks the links to the one that leads to this node. */
    method FindLink(node: ChildNode, ghost i: nat) returns (link: ChildNode)
      requires Chain(children, nodes, Contents) && 0 < i < |nodes| && node == nodes[i]
      ensures link == nodes[i - 1]
    {
      link := children;
      ghost var k := 0;
      while link.next != node
        invariant k < i && link == nodes[k]
        decreases i - k
      {
        link := link.next;
        k := k + 1;
      }
    }

    /** Unlinks a node by moving the link that leads to it on. */
    method ReclaimChild(node: ChildNode, ghost i: nat)
      requires Valid() && i < |nodes| && node == nodes[i]
      modifies this, nodes
      ensures Valid() && nodes == old(nodes)[..i] + old(nodes)[i + 1..]
      ensures Contents == Without(old(Contents), i)
    {
      ghost var rest, left := nodes[..i] + nodes[i + 1..], Without(Contents, i);
      assert forall k :: 0 <= k < |rest| ==> rest[k] == nodes[if k < i then k else k + 1];
      assert forall k :: 0 <= k < |left| ==> left[k] == Contents[if k < i then k else k + 1];
      UnlinkKeepsInv(Contents, i);
      if children == node {
        children := node.next;
      } else {
        var link := FindLink(node, i);
        link.next := node.next;
      }
      nodes, Contents := rest, left;
    }

    // ----- the critical sections -----

    /** The locked part of a create request. */
    method Create(guid: Guid, requestId: nat, mtu: nat, hasMemory: bool) returns (answer: CreateAnswer)
      requires Valid()
      modifies this, nodes
      ensures Valid() && Contents == After(old(Contents), Event.Create(guid, requestId, mtu, hasMemory))
      ensures forall node :: node in nodes ==> node in old(nodes) || fresh(node)
      ensures answer == if Listed(old(Contents), guid) then Busy else if hasMemory then Linked else NoMemory
      ensures Contents == (if answer == Linked then [Child(guid, Creating, Pending, requestId, mtu, None)] else [])
                          + old(Contents)
    {
      EventKeepsInv(Contents, Event.Create(guid, requestId, mtu, hasMemory));
      var existing := FindChild(guid);
      if existing != null && existing.child.lifecycle != Absent {
        return Busy;
      }
      if existing != null {
        // A child stored as absent would be revived here; there is none.
        assert false;
      }
      if !hasMemory {
        return NoMemory;
      }
      var child := Child(guid, Creating, Pending, requestId, mtu, None);
      var node := new ChildNode(child, children);
      children := node;
      nodes, Contents := [node] + nodes, [child] + Contents;
      return Linked;
    }

    /** The locked part of a remove request. */
    method BeginRemove(guid: Guid, requestId: nat) returns (answer: RemoveAnswer)
      requires Valid()
      modifies this, nodes
      ensures Valid() && nodes == old(nodes) && Contents == After(old(Contents), Event.BeginRemove(guid, requestId))
      ensures answer == (if !Listed(old(Contents), guid) then NotFound
                         else
                           var child := old(Contents)[IndexOf(old(Contents), guid)];
                           if child.lifecycle == Creating || child.lifecycle == Removing then InUse
                           else Started(child.pdo == None, child.mtu))
      ensures answer.Started? ==>
                var i := IndexOf(old(Contents), guid);
                && Contents[i].lifecycle == Removing && Contents[i].status == Pending
                && Contents[i].requestId == requestId && Contents[i].guid == guid
                && Contents[i].pdo == old(Contents)[i].pdo && Contents[i].mtu == old(Contents)[i].mtu
      ensures !answer.Started? ==> Contents == old(Contents)
    {
      EventKeepsInv(Contents, Event.BeginRemove(guid, requestId));
      var node := FindChild(guid);
      if node == null || node.child.lifecycle == Absent {
        return NotFound;
      }
      if node.child.lifecycle == Creating || node.child.lifecycle == Removing {
        return InUse;
      }
      answer := Started(node.child.pdo == None, node.child.mtu);
      SetChild(node, node.child.(lifecycle := Removing, status := Pending, requestId := requestId), IndexOf(Contents, guid));
    }

    /** Frees a removed child that never had a device object. */
    method ReclaimWithoutPdo(guid: Guid)
      requires Valid()
      modifies this, nodes
      ensures Valid() && Contents == After(old(Contents), Reclaim(guid))
      ensures forall node :: node in nodes ==> node in old(nodes)
      ensures Listed(Contents, guid) <==>
              Listed(old(Contents), guid) &&
              var child := old(Contents[IndexOf(Contents, guid)]); !(child.lifecycle == Removing && child.pdo == None)
    {
      if Listed(Contents, guid) {
        ReclaimMoves(Contents, guid);
      }
      var node := FindChild(guid);
      if node != null && node.child.lifecycle == Removing && node.child.pdo == None {
        ReclaimChild(node, IndexOf(Contents, guid));
      }
    }

    method MarkFailure(guid: Guid, status: Status)
      requires Valid()
      modifies this, nodes
      ensures Valid() && nodes == old(nodes) && Contents == After(old(Contents), Fail(guid, status))
      ensures Listed(old(Contents), guid) ==>
                var i := IndexOf(old(Contents), guid);
                && Contents[i].lifecycle == Lifecycle.Failed && Contents[i].status == status
                && Contents[i].pdo == old(Contents)[i].pdo
    {
      EventKeepsInv(Contents, Fail(guid, status));
      var node := FindChild(guid);
      if node != null {
        SetChild(node, node.child.(lifecycle := Lifecycle.Failed, status := status), IndexOf(Contents, guid));
      }
    }

    /** Records a new device object; a child that is gone meanwhile refuses it. */
    method AttachPdo(guid: Guid, pdo: nat) returns (found: bool)
      requires Valid()
      modifies this, nodes
      ensures Valid() && nodes == old(nodes) && Contents == After(old(Contents), Attach(guid, pdo))
      ensures found == Listed(old(Contents), guid)
      ensures found ==>
                var i := IndexOf(old(Contents), guid);
                Contents[i].pdo == Some(pdo) && Contents[i].lifecycle == old(Contents)[i].lifecycle
    {
      EventKeepsInv(Contents, Attach(guid, pdo));
      var node := FindChild(guid);
      if node == null {
        return false;
      }
      SetChild(node, node.child.(pdo := Some(pdo)), IndexOf(Contents, guid));
      return true;
    }

    /** The device object went away. */
    method PdoCleanup(guid: Guid)
      requires Valid()
      modifies this, nodes
      ensures Valid() && Contents == After(old(Contents), Cleanup(guid))
      ensures forall node :: node in nodes ==> node in old(nodes)
      ensures Listed(old(Contents), guid) ==>
                var child := old(Contents[IndexOf(Contents, guid)]);
                && (Listed(Contents, guid) <==> child.lifecycle != Removing)
                && (Listed(Contents, guid) ==> Orphans(child, Contents[IndexOf(Contents, guid)]))
    {
      EventKeepsInv(Contents, Cleanup(guid));
      var node := FindChild(guid);
      if node == null {
        return;
      }
      CleanupMoves(Contents, guid);
      if node.child.lifecycle == Removing {
        ReclaimChild(node, IndexOf(Contents, guid));
      } else {
        var bare := node.child.(pdo := None);
        if bare.lifecycle == Creating || bare.lifecycle == Active {
          bare := bare.(lifecycle := Lifecycle.Failed, status := Unsuccessful);
        }
        SetChild(node, bare, IndexOf(Contents, guid));
      }
    }

    /** Answers a query, completing a creation whose device object has appeared. */
    method ReportChild(guid: Guid) returns (record: Option<Child>)
      requires Valid()
      modifies this, nodes
      ensures Valid() && nodes == old(nodes) && Contents == After(old(Contents), Report(guid))
      ensures record == if Listed(Contents, guid) then Some(Contents[IndexOf(Contents, guid)]) else None
      ensures record.Some? <==> Listed(old(Contents), guid)
      ensures record.Some? ==> Promotes(old(Contents[IndexOf(Contents, guid)]), record.value)
    {
      EventKeepsInv(Contents, Report(guid));
      var node := FindChild(guid);
      if node == null {
        return None;
      }
      ghost var i := IndexOf(Contents, guid);
      ReportMoves(Contents, guid);
      SetChild(node, Reported(node.child), i);
      IndexUnique(Contents, i);
      return Some(node.child);
    }
  }

  /** The child lost its device object: what was being created or active has failed. */
  predicate Orphans(before: Child, after: Child) {
    && after.guid == before.guid && after.mtu == before.mtu && after.pdo == None
    && (before.lifecycle == Creating || before.lifecycle == Active ==>
          after.lifecycle == Lifecycle.Failed && after.status == Unsuccessful)
    && (before.lifecycle == Lifecycle.Failed ==> after.lifecycle == Lifecycle.Failed && after.status == before.status)
  }

  /** A creation is complete once its device object is there, and not before. */
  predicate Promotes(before: Child, after: Child) {
    && after.guid == before.guid && after.mtu == before.mtu && after.pdo == before.pdo
    && (if before.lifecycle == Creating && before.pdo != None
        then after.lifecycle == Active && after.status == Succeeded
        else after.lifecycle == before.lifecycle && after.status == before.status)
  }

  lemma CleanupMoves(children: seq<Child>, guid: Guid)
    requires Inv(children) && Listed(children, guid)
    ensures var child, after := children[IndexOf(children, guid)], After(children, Cleanup(guid));
            && (Listed(after, guid) <==> child.lifecycle != Removing)
            && (Listed(after, guid) ==> Orphans(child, after[IndexOf(after, guid)]))
  {
    var i, after := IndexOf(children, guid), After(children, Cleanup(guid));
    EventKeepsInv(children, Cleanup(guid));
    if children[i].lifecycle == Removing {
      assert forall k :: 0 <= k < |after| ==> after[k] == children[if k < i then k else k + 1];
    } else {
      assert after[i].guid == guid;
      IndexUnique(after, i);
    }
  }

  lemma ReclaimMoves(children: seq<Child>, guid: Guid)
    requires Inv(children) && Listed(children, guid)
    ensures var child := children[IndexOf(children, guid)];
            Listed(After(children, Reclaim(guid)), guid) <==> !(child.lifecycle == Removing && child.pdo == None)
  {
    var i, after := IndexOf(children, guid), After(children, Reclaim(guid));
    if children[i].lifecycle == Removing && children[i].pdo == None {
      forall k | 0 <= k < |after| ensures after[k].guid != guid {
        assert after[k] == children[if k < i then k else k + 1];
      }
    }
  }

  lemma ReportMoves(children: seq<Child>, guid: Guid)
    requires Inv(children) && Listed(children, guid)
    ensures var i, after := IndexOf(children, guid), After(children, Report(guid));
            Listed(after, guid) && IndexOf(after, guid) == i && Promotes(children[i], after[i])
  {
    var i, after := IndexOf(children, guid), After(children, Report(guid));
    EventKeepsInv(children, Report(guid));
    assert after[i].guid == guid;
    IndexUnique(after, i);
  }

  datatype CreateAnswer = Busy | NoMemory | Linked

  datatype RemoveAnswer = NotFound | InUse | Started(withoutPdo: bool, mtu: nat)
}
