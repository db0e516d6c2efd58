/** The bus manager's children: one lifecycle per GUID, changed by manager requests and by
    PnP callbacks, each under the bus lock and in any order. */
module BusChildren {
  import opened Wrappers
  import opened HardwareId
  import Runs

  datatype Lifecycle = Absent | Creating | Active | Removing | Failed

  datatype Status = Pending | Succeeded | Unsuccessful | Other(code: int)

  datatype Child = Child(guid: Guid, lifecycle: Lifecycle, status: Status, requestId: nat, mtu: nat, pdo: Option<nat>)

  /** Index of the child with this GUID, or the length of the list. */
  function IndexOf(children: seq<Child>, guid: Guid): (i: nat)
    ensures i <= |children|
    ensures i < |children| ==> children[i].guid == guid
    ensures forall j :: 0 <= j < i ==> children[j].guid != guid
  {
    if children == [] then 0
    else if children[0].guid == guid then 0
    else 1 + IndexOf(children[1..], guid)
  }

  predicate Listed(children: seq<Child>, guid: Guid) {
    IndexOf(children, guid) < |children|
  }

  function Without(children: seq<Child>, i: nat): seq<Child>
    requires i < |children|
  {
    children[..i] + children[i + 1..]
  }

  // ----- the critical sections -----

  datatype Event =
    | Create(guid: Guid, requestId: nat, mtu: nat, hasMemory: bool)
    | BeginRemove(guid: Guid, requestId: nat)
    | Reclaim(guid: Guid)
    | Fail(guid: Guid, status: Status)
    | Attach(guid: Guid, pdo: nat)
    | Cleanup(guid: Guid)
    | Report(guid: Guid)

  function Created(children: seq<Child>, guid: Guid, requestId: nat, mtu: nat, hasMemory: bool): seq<Child> {
    var i := IndexOf(children, guid);
    if i < |children| && children[i].lifecycle != Absent then children
    else if i < |children| then
      children[i := children[i].(lifecycle := Creating, status := Pending, requestId := requestId, mtu := mtu)]
    else if hasMemory then [Child(guid, Creating, Pending, requestId, mtu, None)] + children
    else children
  }

  function Removed(child: Child, requestId: nat): Child {
    if child.lifecycle == Absent || child.lifecycle == Creating || child.lifecycle == Removing then child
    else child.(lifecycle := Removing, status := Pending, requestId := requestId)
  }

  /** A child whose device object went away; one being removed is gone with it. */
  function Orphaned(child: Child): Child {
    var bare := child.(pdo := None);
    if child.lifecycle == Creating || child.lifecycle == Active then bare.(lifecycle := Failed, status := Unsuccessful)
    else bare
  }

  function Reported(child: Child): Child {
    if child.lifecycle == Creating && child.pdo.Some? then child.(lifecycle := Active, status := Succeeded) else child
  }

  function After(children: seq<Child>, e: Event): seq<Child> {
    if e.Create? then Created(children, e.guid, e.requestId, e.mtu, e.hasMemory)
    else
      var i := IndexOf(children, e.guid);
      if i == |children| then children
      else
        match e
        case BeginRemove(_, requestId) => children[i := Removed(children[i], requestId)]
        case Reclaim(_) =>
          if children[i].lifecycle == Removing && children[i].pdo == None then Without(children, i) else children
        case Fail(_, status) => children[i := children[i].(lifecycle := Lifecycle.Failed, status := status)]
        case Attach(_, pdo) => children[i := children[i].(pdo := Some(pdo))]
        case Cleanup(_) =>
          if children[i].lifecycle == Removing then Without(children, i) else children[i := Orphaned(children[i])]
        case Report(_) => children[i := Reported(children[i])]
        case _ => children
  }

  // ----- what every critical section keeps -----

  predicate Distinct(children: seq<Child>) {
    forall i, j :: 0 <= i < j < |children| ==> children[i].guid != children[j].guid
  }

  predicate Sane(child: Child) {
    child.lifecycle != Absent && (child.lifecycle == Active ==> child.pdo.Some?)
  }

  predicate Inv(children: seq<Child>) {
    Distinct(children) && forall i :: 0 <= i < |children| ==> Sane(children[i])
  }

  lemma UpdateKeepsInv(children: seq<Child>, i: nat, child: Child)
    requires Inv(children) && i < |children| && child.guid == children[i].guid && Sane(child)
    ensures Inv(children[i := child])
  {}

  lemma UnlinkKeepsInv(children: seq<Child>, i: nat)
    requires Inv(children) && i < |children|
    ensures Inv(Without(children, i))
  {
    var rest := Without(children, i);
    assert forall k :: 0 <= k < |rest| ==> rest[k] == children[if k < i then k else k + 1];
  }

  lemma FrontKeepsInv(children: seq<Child>, child: Child)
    requires Inv(children) && !Listed(children, child.guid) && Sane(child)
    ensures Inv([child] + children)
  {
    assert forall k :: 0 <= k < |children| ==> children[k].guid != child.guid;
    assert forall k :: 0 < k <= |children| ==> ([child] + children)[k] == children[k - 1];
  }

  lemma EventKeepsInv(children: seq<Child>, e: Event)
    requires Inv(children)
    ensures Inv(After(children, e))
  {
    var i := IndexOf(children, e.guid);
    if i == |children| {
      if e.Create? {
        FrontKeepsInv(children, Child(e.guid, Creating, Pending, e.requestId, e.mtu, None));
      }
    } else {
      var child := children[i];
      assert Sane(child);
      match e
      case Create(_, _, _, _) =>
      case BeginRemove(_, requestId) => UpdateKeepsInv(children, i, Removed(child, requestId));
      case Reclaim(_) => UnlinkKeepsInv(children, i);
      case Fail(_, status) => UpdateKeepsInv(children, i, child.(lifecycle := Lifecycle.Failed, status := status));
      case Attach(_, pdo) => UpdateKeepsInv(children, i, child.(pdo := Some(pdo)));
      case Cleanup(_) =>
        UnlinkKeepsInv(children, i);
        UpdateKeepsInv(children, i, Orphaned(child));
      case Report(_) => UpdateKeepsInv(children, i, Reported(child));
    }
  }

  /** Same children, same order, same MTUs. */
  predicate SameIdentities(before: seq<Child>, after: seq<Child>) {
    |before| == |after| && forall i :: 0 <= i < |before| ==> before[i].guid == after[i].guid && before[i].mtu == after[i].mtu
  }

  /** The only ways the list can change: children updated in place with GUID and MTU kept; a
      new child in front; or one child unlinked, which was being removed and whose device
      object is gone or going with this very call, the rest in order. */
  ghost predicate Evolves(before: seq<Child>, e: Event, after: seq<Child>) {
    || SameIdentities(before, after)
    || (e.Create? && !Listed(before, e.guid) && |after| == |before| + 1 && after[1..] == before
        && after[0] == Child(e.guid, Creating, Pending, e.requestId, e.mtu, None))
    || exists i :: 0 <= i < |before| && after == Without(before, i) && before[i].guid == e.guid
         && before[i].lifecycle == Removing && (e.Cleanup? || (e.Reclaim? && before[i].pdo == None))
  }

  lemma EventEvolves(children: seq<Child>, e: Event)
    requires Inv(children)
    ensures Evolves(children, e, After(children, e))
  {
    var i := IndexOf(children, e.guid);
    if !e.Create? && i < |children| && |After(children, e)| < |children| {
      assert After(children, e) == Without(children, i);
    }
  }

  // ----- runs: any order of critical sections -----

  ghost predicate Next(children: seq<Child>, children': seq<Child>) {
    exists e :: children' == After(children, e)
  }

  ghost predicate IsRun(run: seq<seq<Child>>) {
    Runs.IsRun(run, [], Next)
  }

  /** Under every interleaving GUIDs stay distinct, no child is stored absent, and an active
      child has a device object. */
  lemma ListStaysSane(run: seq<seq<Child>>, i: nat)
    requires IsRun(run) && i < |run|
    ensures Inv(run[i])
  {
    forall c, c' | Inv(c) && Next(c, c') ensures Inv(c') {
      var e :| c' == After(c, e);
      EventKeepsInv(c, e);
    }
    Runs.Induction(run, i, [], Next, c => Inv(c));
  }

  lemma {:induction false} IndexUnique(children: seq<Child>, i: nat)
    requires Distinct(children) && i < |children|
    ensures IndexOf(children, children[i].guid) == i
  {}

  function MtuOf(children: seq<Child>, guid: Guid): nat
    requires Listed(children, guid)
  {
    children[IndexOf(children, guid)].mtu
  }

  lemma SameIdentitiesKeepMtu(before: seq<Child>, after: seq<Child>, guid: Guid)
    requires Distinct(before) && SameIdentities(before, after) && Listed(before, guid) && Listed(after, guid)
    ensures MtuOf(after, guid) == MtuOf(before, guid)
  {
    var j := IndexOf(after, guid);
    assert before[j].guid == guid;
    IndexUnique(before, j);
  }

  lemma UnlinkKeepsMtu(before: seq<Child>, k: nat, guid: Guid)
    requires Distinct(before) && k < |before| && Listed(before, guid) && Listed(Without(before, k), guid)
    ensures MtuOf(Without(before, k), guid) == MtuOf(before, guid)
  {
    var after := Without(before, k);
    var j := IndexOf(after, guid);
    var at := if j < k then j else j + 1;
    assert before[at] == after[j];
    IndexUnique(before, at);
  }

  lemma StepKeepsMtu(children: seq<Child>, e: Event, guid: Guid)
    requires Inv(children) && Listed(children, guid) && Listed(After(children, e), guid)
    ensures MtuOf(After(children, e), guid) == MtuOf(children, guid)
  {
    var after := After(children, e);
    EventEvolves(children, e);
    if SameIdentities(children, after) {
      SameIdentitiesKeepMtu(children, after, guid);
    } else if e.Create? {
      assert after[1..] == children && after[0].guid != guid;
    } else {
      var k :| 0 <= k < |children| && after == Without(children, k);
      UnlinkKeepsMtu(children, k, guid);
    }
  }

  lemma RunStepKeepsMtu(run: seq<seq<Child>>, j: nat, guid: Guid)
    requires IsRun(run) && j + 1 < |run| && Listed(run[j], guid) && Listed(run[j + 1], guid)
    ensures MtuOf(run[j + 1], guid) == MtuOf(run[j], guid)
  {
    ListStaysSane(run, j);
    assert Runs.StepAt(run, j, Next);
    var e :| run[j + 1] == After(run[j], e);
    StepKeepsMtu(run[j], e, guid);
  }

  ghost predicate StaysListed(run: seq<seq<Child>>, i: nat, j: nat, guid: Guid) {
    j < |run| && forall k :: i <= k <= j ==> Listed(run[k], guid)
  }

  /** As long as a GUID stays listed its MTU does not change. */
  lemma {:induction false} MtuFixedWhileListed(run: seq<seq<Child>>, i: nat, j: nat, guid: Guid)
    requires IsRun(run) && i <= j && StaysListed(run, i, j, guid)
    ensures MtuOf(run[j], guid) == MtuOf(run[i], guid)
    decreases j
  {
    assert Listed(run[i], guid) && Listed(run[j], guid);
    if i < j {
      assert StaysListed(run, i, j - 1, guid);
      MtuFixedWhileListed(run, i, j - 1, guid);
      RunStepKeepsMtu(run, j - 1, guid);
    }
  }
}
