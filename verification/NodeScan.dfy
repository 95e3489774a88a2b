// Discovery of the nodes on the serial bus (co2/scan.c): divide and conquer over identifier ranges,
// asking the network who is there. What the network answers is an oracle over a set of devices.

module NodeScan {
  import opened Bitmaps
  import opened NodeDb
  import opened Sequences

  /** What send_scan_cmd reports; the node is left in current_db. */
  datatype Reply =
    | NoneId
    | UniqueId(node: Node)
    | MultipleId
    | UniqueIdFromMultiple(node: Node)
    | ScanBusy

  ghost predicate InRange(x: Node, lo: Id, hi: Id) {
    lo <= x.id <= hi
  }

  /** A possible answer to a scan of a range: nobody answers only where nobody is, a node that is
      reported is there, and for a single identifier the answer tells one node from several. */
  ghost predicate Truthful(devices: set<Node>, lo: Id, hi: Id, r: Reply) {
    match r
    case NoneId => forall x | x in devices :: !InRange(x, lo, hi)
    case ScanBusy => true
    case UniqueId(x) => x in devices && InRange(x, lo, hi) && (lo == hi ==> !Shared(devices, lo))
    case MultipleId => lo == hi ==> Shared(devices, lo)
    case UniqueIdFromMultiple(x) => x in devices && InRange(x, lo, hi) && (lo == hi ==> Shared(devices, lo))
  }

  /** Two devices use this identifier. */
  ghost predicate Shared(devices: set<Node>, id: Id) {
    exists x, y | x in devices && y in devices :: x != y && x.id == id && y.id == id
  }

  /** A device is known: it is online with its serial number, or its identifier is marked as disputed;
      an identifier that several devices use is marked. */
  ghost predicate Discovered(d: Db, devices: set<Node>, id: Id) {
    && (forall x | x in devices && x.id == id :: id in d.occupy || (id in d.online && x in d.nodes))
    && (!Shared(devices, id) ==> forall x | x in devices && x.id == id :: id in d.online)
    && (Shared(devices, id) ==> id in d.occupy)
  }

  /** Nothing changed for identifiers outside the range. */
  ghost predicate SameOutside(d: Db, d1: Db, lo: int, hi: int) {
    && (forall id: Id | !(lo <= id <= hi) ::
        (id in d1.online <==> id in d.online) && (id in d1.occupy <==> id in d.occupy))
    && (forall x | x in d.nodes && !(lo <= x.id <= hi) :: x in d1.nodes)
  }

  lemma StaysDiscovered(d: Db, d1: Db, devices: set<Node>, lo: int, hi: int, id: Id)
    requires Discovered(d, devices, id) && SameOutside(d, d1, lo, hi) && !(lo <= id <= hi)
    ensures Discovered(d1, devices, id)
  {}

  lemma RemovedOutside(d: Db, index: nat, id: Id)
    requires index < |d.nodes| ==> d.nodes[index].id == id
    ensures SameOutside(d, Removed(d, index), id, id)
  {
    if |d.nodes| > 1 && 0 < index < |d.nodes| {
      var r := Removed(d, index);
      forall x | x in d.nodes && x.id != id
        ensures x in r.nodes
      {
        var i :| 0 <= i < |d.nodes| && d.nodes[i] == x;
        assert r.nodes[if i < index then i else i - 1] == x;
      }
    }
  }

  lemma CheckedOutside(d: Db, node: Node, plugAndPlay: bool)
    ensures SameOutside(d, Checked(d, node, plugAndPlay), node.id, node.id)
  {
    RemovedOutside(d, IndexOf(d.nodes, node.id), node.id);
  }

  lemma ConflictingOutside(d: Db, id: Id, plugAndPlay: bool)
    ensures SameOutside(d, Conflicting(d, id, plugAndPlay), id, id)
  {
    RemovedOutside(d.(occupy := d.occupy + {id}), IndexOf(d.nodes, id), id);
  }

  /** At a single identifier with a single device, checking that device discovers it. */
  lemma CheckDiscovers(d: Db, devices: set<Node>, node: Node)
    requires Consistent(d) && node in devices && !Shared(devices, node.id)
    ensures Discovered(Checked(d, node, true), devices, node.id)
  {
    var r := Checked(d, node, true);
    forall x | x in devices && x.id == node.id
      ensures x == node
    {
      assert x != node ==> Shared(devices, node.id);
    }
    if node.id in d.online {
      var i := IndexOf(d.nodes, node.id);
      assert i < |d.nodes| by {
        var j :| 0 <= j < |d.nodes| && d.nodes[j].id == node.id;
      }
      assert d.nodes[i] in d.nodes;
    } else {
      assert r.nodes[|d.nodes|] == node;
    }
  }

  ghost function DeviceIds(devices: set<Node>): set<Id> {
    set x | x in devices :: x.id
  }

  /** What any part of a scan of a range guarantees. */
  ghost predicate Scanned(d: Db, d1: Db, devices: set<Node>, lo: int, hi: int) {
    && Consistent(d1) && SameOutside(d, d1, lo, hi)
    && d1.online <= d.online + DeviceIds(devices) && d1.occupy <= d.occupy + DeviceIds(devices)
  }

  lemma SomeEntry(d: Db)
    requires Consistent(d)
    ensures d.nodes != []
  {}

  lemma ScannedThen(d: Db, d1: Db, d2: Db, devices: set<Node>, lo: int, hi: int, lo1: int, hi1: int)
    requires Scanned(d, d1, devices, lo, hi) && Scanned(d1, d2, devices, lo1, hi1) && lo <= lo1 && hi1 <= hi
    ensures Scanned(d, d2, devices, lo, hi)
  {}

  lemma NothingScanned(d: Db, devices: set<Node>, lo: int, hi: int)
    requires Consistent(d)
    ensures Scanned(d, d, devices, lo, hi)
  {}

  /** A scan puts no more entries into the table than there are identifiers known before and devices. */
  lemma EntriesBound(d: Db, d1: Db, devices: set<Node>, lo: int, hi: int)
    requires Scanned(d, d1, devices, lo, hi)
    ensures |d1.nodes| <= |d.online + DeviceIds(devices)|
  {
    hide DeviceIds;
    TableSize(d1.nodes);
    SubsetIsSmaller(d1.online, d.online + DeviceIds(devices));
  }

  lemma WiderOutside(d: Db, d1: Db, id: Id, lo: int, hi: int)
    requires SameOutside(d, d1, id, id) && lo <= id <= hi
    ensures SameOutside(d, d1, lo, hi)
  {}

  lemma CheckScans(d: Db, devices: set<Node>, node: Node, plugAndPlay: bool, lo: int, hi: int)
    requires Consistent(d) && node in devices && lo <= node.id <= hi
    ensures Scanned(d, Checked(d, node, plugAndPlay), devices, lo, hi)
  {
    hide Checked, Consistent, SameOutside;
    CheckedKeeps(d, node, plugAndPlay);
    CheckedOutside(d, node, plugAndPlay);
    WiderOutside(d, Checked(d, node, plugAndPlay), node.id, lo, hi);
    OnlineGrows(d, node, plugAndPlay);
    assert node.id in DeviceIds(devices);
  }

  lemma OnlineGrows(d: Db, node: Node, plugAndPlay: bool)
    ensures Checked(d, node, plugAndPlay).online <= d.online + {node.id}
    ensures Checked(d, node, plugAndPlay).occupy <= d.occupy + {node.id}
    ensures plugAndPlay ==> d.nodes <= Checked(d, node, plugAndPlay).nodes
  {}

  /** At a single identifier with several devices, marking it discovers them. */
  lemma ConflictScans(d: Db, devices: set<Node>, id: Id, plugAndPlay: bool)
    requires Consistent(d) && Shared(devices, id)
    ensures Scanned(d, Conflicting(d, id, plugAndPlay), devices, id, id)
    ensures plugAndPlay ==> Discovered(Conflicting(d, id, plugAndPlay), devices, id)
  {
    ConflictingKeeps(d, id, plugAndPlay);
    ConflictingOutside(d, id, plugAndPlay);
    assert id in DeviceIds(devices);
  }

  /** Nobody comes into the table but who was reported. */
  lemma TableGrows(d: Db, node: Node, plugAndPlay: bool)
    ensures forall x | x in Checked(d, node, plugAndPlay).nodes :: x in d.nodes || x == node
    ensures forall x | x in Conflicting(d, node.id, plugAndPlay).nodes :: x in d.nodes
  {}

  // ----- searching without plug and play -------------------------------------------------------------

  /** An identifier that several devices use is not listed; one of a single device only with its entry. */
  ghost predicate Cleared(d: Db, devices: set<Node>, id: Id) {
    && (Shared(devices, id) ==> id !in d.online && forall x | x in d.nodes :: x.id != id)
    && (!Shared(devices, id) && id in d.online ==> forall x | x in devices && x.id == id :: x in d.nodes)
  }

  /** No entry of another node is in the way of this one. */
  ghost predicate Welcome(d: Db, x: Node) {
    x.id !in d.online || x in d.nodes
  }

  /** What a search without plug and play makes of a range: all identifiers are cleared, but for the
      master's, whose entry stays; and each device alone at its identifier is listed, unless an entry of
      another node was there before. */
  ghost predicate Weeded(d: Db, d1: Db, devices: set<Node>, lo: int, hi: int) {
    && d.nodes != [] && d1.nodes != [] && d1.nodes[0] == d.nodes[0]
    && (forall id: Id | lo <= id <= hi && id != d.nodes[0].id :: Cleared(d1, devices, id))
    && (forall x | x in devices && lo <= x.id <= hi && !Shared(devices, x.id) && Welcome(d, x) :: x in d1.nodes)
  }

  /** What the answers for wider ranges leave for the narrower ones. */
  ghost predicate StillWelcome(d: Db, d1: Db, devices: set<Node>) {
    && d.nodes != [] && d1.nodes != [] && d1.nodes[0] == d.nodes[0]
    && forall x | x in devices && !Shared(devices, x.id) && Welcome(d, x) :: Welcome(d1, x)
  }

  lemma OneEntry(d: Db, x: Node)
    requires Consistent(d) && x in d.nodes
    ensures IndexOf(d.nodes, x.id) < |d.nodes| && d.nodes[IndexOf(d.nodes, x.id)] == x
  {
    var i :| 0 <= i < |d.nodes| && d.nodes[i] == x;
  }

  lemma CheckStaysWelcome(d: Db, devices: set<Node>, node: Node)
    requires Consistent(d) && node in devices
    ensures StillWelcome(d, Checked(d, node, false), devices)
  {
    MasterStays(d, node);
    hide Checked, Consistent;
    forall x | x in devices && !Shared(devices, x.id) && Welcome(d, x)
      ensures Welcome(Checked(d, node, false), x)
    {
      if x.id == node.id {
        assert x == node;
        WelcomeIsKept(d, x);
      } else {
        CheckedEntries(d, node, false, x.id);
      }
    }
  }

  lemma MasterStays(d: Db, node: Node)
    requires Consistent(d)
    ensures d.nodes != [] && Checked(d, node, false).nodes != [] && Checked(d, node, false).nodes[0] == d.nodes[0]
  {}

  lemma WelcomeIsKept(d: Db, x: Node)
    requires Consistent(d) && Welcome(d, x)
    ensures Welcome(Checked(d, x, false), x)
  {
    if x in d.nodes {
      OneEntry(d, x);
    } else {
      assert Checked(d, x, false).nodes[|d.nodes|] == x;
    }
  }

  lemma CheckWeeds(d: Db, devices: set<Node>, node: Node)
    requires Consistent(d) && node in devices && !Shared(devices, node.id)
    ensures Weeded(d, Checked(d, node, false), devices, node.id, node.id)
  {
    CheckStaysWelcome(d, devices, node);
    CheckedKeeps(d, node, false);
    forall x | x in devices && x.id == node.id
      ensures x == node
    {
      assert x != node ==> Shared(devices, node.id);
    }
    if node.id in d.online {
      var j :| 0 <= j < |d.nodes| && d.nodes[j].id == node.id;
      assert IndexOf(d.nodes, node.id) == j && (node in d.nodes <==> d.nodes[j] == node);
    } else {
      assert Checked(d, node, false).nodes[|d.nodes|] == node;
    }
  }

  lemma ConflictWeeds(d: Db, devices: set<Node>, id: Id)
    requires Consistent(d) && Shared(devices, id)
    ensures Weeded(d, Conflicting(d, id, false), devices, id, id)
  {
    if id in d.online {
      var j :| 0 <= j < |d.nodes| && d.nodes[j].id == id;
      assert IndexOf(d.nodes, id) == j;
    }
  }

  lemma NobodyToWeed(d: Db, devices: set<Node>, lo: Id, hi: Id)
    requires Truthful(devices, lo, hi, NoneId) && d.nodes != []
    ensures Weeded(d, d, devices, lo, hi)
  {
    assert forall x | x in devices :: !InRange(x, lo, hi);
  }

  lemma NoEntry(d: Db, id: Id)
    requires Consistent(d) && id !in d.online
    ensures forall x | x in d.nodes :: x.id != id
  {}

  lemma NothingToWeed(d: Db, devices: set<Node>, lo: int, hi: int)
    requires lo > hi && d.nodes != []
    ensures Weeded(d, d, devices, lo, hi)
  {}

  lemma AllWelcome(d: Db, devices: set<Node>)
    requires d.nodes != []
    ensures StillWelcome(d, d, devices)
  {}

  /** The two halves of a range, one after the other. */
  lemma WeededHalves(d: Db, d0: Db, d1: Db, d2: Db, devices: set<Node>, lo: int, middle: int, hi: int)
    requires StillWelcome(d, d0, devices) && lo <= middle <= hi && Consistent(d2)
    requires Weeded(d0, d1, devices, lo, middle) && SameOutside(d0, d1, lo, middle)
    requires Weeded(d1, d2, devices, middle + 1, hi) && SameOutside(d1, d2, middle + 1, hi)
    ensures Weeded(d, d2, devices, lo, hi)
  {
    hide Shared;
    forall id: Id | lo <= id <= hi && id != d.nodes[0].id
      ensures Cleared(d2, devices, id)
    {
      if id <= middle {
        assert Cleared(d1, devices, id);
        if Shared(devices, id) {
          NoEntry(d2, id);
        }
      }
    }
    forall x | x in devices && lo <= x.id <= hi && !Shared(devices, x.id) && Welcome(d, x)
      ensures x in d2.nodes
    {
      assert Welcome(d0, x);
      if x.id <= middle {
        assert x in d1.nodes;
      } else {
        assert Welcome(d1, x);
      }
    }
  }

  lemma NobodyToDiscover(d: Db, devices: set<Node>, lo: Id, hi: Id, id: Id)
    requires Truthful(devices, lo, hi, NoneId) && lo <= id <= hi
    ensures Discovered(d, devices, id)
  {
    assert forall x | x in devices :: !InRange(x, lo, hi);
  }

  // ----- resolving disputes ------------------------------------------------------------------------

  /** Nothing changed for this identifier. */
  ghost predicate Untouched(d: Db, d1: Db, id: Id) {
    && (id in d1.online <==> id in d.online) && (id in d1.occupy <==> id in d.occupy)
    && forall x | x in d.nodes && x.id == id :: x in d1.nodes
  }

  /** The identifier of the node is known for a node with another serial number. */
  ghost predicate OtherSerial(d: Db, node: Node) {
    node.id in d.online && node !in d.nodes
  }

  predicate InItsPlace(r: Reply, id: Id) {
    r.UniqueId? || r.UniqueIdFromMultiple? ==> r.node.id == id
  }

  predicate Carries(r: Reply, x: Node) {
    (r.UniqueId? || r.UniqueIdFromMultiple?) && r.node == x
  }

  /** The answer to a question for a disputed identifier, and whether the node that answered then
      acknowledged the idle one that it was offered. */
  datatype Answer = Answer(id: Id, reply: Reply, idle: Id, moved: bool)

  /** What a reply that carries the node x does to the mark and to the table. */
  function AfterReply(d: Db, id: Id, x: Node, plugAndPlay: bool): Db {
    Checked(if x.id == id then d.(occupy := d.occupy - {id}) else d, x, plugAndPlay)
  }

  /** What one round of dealwith_conflict_id does to the database. */
  function Settled(d: Db, a: Answer, plugAndPlay: bool): Db {
    match a.reply
    case MultipleId => d
    case UniqueId(x) => SettledNode(d, a, x, plugAndPlay)
    case UniqueIdFromMultiple(x) => SettledNode(d, a, x, plugAndPlay)
    case _ => d.(occupy := d.occupy - {a.id})
  }

  function SettledNode(d: Db, a: Answer, x: Node, plugAndPlay: bool): Db {
    var d1 := AfterReply(d, a.id, x, plugAndPlay);
    if a.moved then Assigned(d1, Node(a.idle, x.sn)) else d1
  }

  /** Only a node that was told that it is disputed gets another identifier. */
  predicate MayMove(d: Db, a: Answer, plugAndPlay: bool) {
    a.moved ==>
      && (a.reply.UniqueId? || a.reply.UniqueIdFromMultiple?)
      && a.reply.node.id in AfterReply(d, a.id, a.reply.node, plugAndPlay).occupy
  }

  /** The devices after the answer: one that acknowledged an idle identifier has it from now on. */
  ghost function Population(devices: set<Node>, a: Answer): set<Node> {
    if a.moved && (a.reply.UniqueId? || a.reply.UniqueIdFromMultiple?) && a.reply.node in devices then
      devices - {a.reply.node} + {Node(a.idle, a.reply.node.sn)}
    else devices
  }

  // ----- what settling makes of the marks ----------------------------------------------------------

  /** Whether the mark survives an answer: one that shows several nodes without naming any, or with
      plug and play one by a node other than the known one. A busy bus or no answer clears it. */
  ghost predicate Keeps(d: Db, r: Reply, plugAndPlay: bool) {
    match r
    case MultipleId => true
    case UniqueId(x) => plugAndPlay && OtherSerial(d, x)
    case UniqueIdFromMultiple(x) => plugAndPlay && OtherSerial(d, x)
    case _ => false
  }

  ghost predicate AllKeep(d: Db, log: seq<Answer>, id: Id, plugAndPlay: bool) {
    forall a | a in log && a.id == id :: Keeps(d, a.reply, plugAndPlay)
  }

  ghost predicate SameEntries(d: Db, d1: Db, id: Id) {
    (id in d1.online <==> id in d.online) && forall x: Node | x.id == id :: x in d1.nodes <==> x in d.nodes
  }

  /** The database d1 after the answers of log, from d on: a mark is left exactly where all answers
      keep it, and where it is left the entries are as they were. */
  ghost predicate Marks(d: Db, log: seq<Answer>, d1: Db, plugAndPlay: bool) {
    && Consistent(d1) && d1.occupy <= d.occupy
    && (forall a | a in log :: a.id in d.occupy)
    && (forall id: Id | id in d.occupy :: id in d1.occupy <==> AllKeep(d, log, id, plugAndPlay))
    && (forall id: Id | id in d1.occupy :: SameEntries(d, d1, id))
  }

  /** The effect of a reply by a node that has the disputed identifier. */
  lemma PlacedReply(d: Db, id: Id, x: Node, plugAndPlay: bool)
    requires Consistent(d) && x.id == id && id in d.occupy
    ensures var r := AfterReply(d, id, x, plugAndPlay);
            && Consistent(r) && r.occupy <= d.occupy
            && (id in r.occupy <==> plugAndPlay && OtherSerial(d, x))
            && (id in r.occupy ==> r.nodes == d.nodes && r.online == d.online)
            && (plugAndPlay ==> r.nodes == if id in d.online then d.nodes else d.nodes + [x])
  {
    var d0 := d.(occupy := d.occupy - {id});
    OccupyDoesNotMatter(d, d.occupy - {id});
    CheckedKeeps(d0, x, plugAndPlay);
    CheckedMark(d0, x, plugAndPlay);
  }

  lemma PlacedElsewhere(d: Db, id: Id, x: Node, plugAndPlay: bool, y: Id)
    requires x.id == id && y != id
    ensures var r := AfterReply(d, id, x, plugAndPlay);
            SameEntries(d, r, y) && (y in r.occupy <==> y in d.occupy)
  {
    var d0 := d.(occupy := d.occupy - {id});
    CheckedEntries(d0, x, plugAndPlay, y);
  }

  lemma CheckedEntries(d: Db, x: Node, plugAndPlay: bool, y: Id)
    requires y != x.id
    ensures var r := Checked(d, x, plugAndPlay);
            SameEntries(d, r, y) && (y in r.occupy <==> y in d.occupy)
  {
    CheckedOutside(d, x, plugAndPlay);
    forall z: Node | z.id == y && z in Checked(d, x, plugAndPlay).nodes
      ensures z in d.nodes
    {}
  }

  lemma CheckedMark(d: Db, node: Node, plugAndPlay: bool)
    requires Consistent(d)
    ensures node.id !in d.occupy ==>
              (node.id in Checked(d, node, plugAndPlay).occupy <==> plugAndPlay && OtherSerial(d, node))
    ensures node.id !in d.online ==> node.id !in Checked(d, node, plugAndPlay).occupy
  {
    if node.id in d.online {
      var i := IndexOf(d.nodes, node.id);
      var j :| 0 <= j < |d.nodes| && d.nodes[j].id == node.id;
      assert i == j;
      assert node in d.nodes <==> d.nodes[i] == node;
    }
  }

  lemma CheckedUntouched(d: Db, d1: Db, node: Node, plugAndPlay: bool)
    requires d1.nodes == d.nodes && d1.online == d.online && d1.occupy - {node.id} == d.occupy - {node.id}
    ensures forall id: Id | id != node.id :: Untouched(d, Checked(d1, node, plugAndPlay), id)
  {
    CheckedOutside(d1, node, plugAndPlay);
    hide Checked;
    forall id: Id | id != node.id
      ensures Untouched(d, Checked(d1, node, plugAndPlay), id)
    {
      assert id in d1.occupy - {node.id} <==> id in d.occupy - {node.id};
    }
  }

  lemma SettledUntouched(d: Db, d1: Db, idleId: Id)
    requires d1 == d || exists sn :: d1 == Assigned(d, Node(idleId, sn))
    ensures forall id: Id | id != idleId :: Untouched(d, d1, id)
  {}

  lemma UntouchedThen(d: Db, d1: Db, d2: Db, a: Id, b: Id)
    requires forall id: Id | id != a :: Untouched(d, d1, id)
    requires forall id: Id | id != b :: Untouched(d1, d2, id)
    ensures forall id: Id | id != a && id != b :: Untouched(d, d2, id)
  {
    forall id: Id | id != a && id != b
      ensures Untouched(d, d2, id)
    {
      assert Untouched(d, d1, id) && Untouched(d1, d2, id);
    }
  }

  lemma AssignedElsewhere(d: Db, node: Node, y: Id)
    requires y != node.id
    ensures var r := Assigned(d, node);
            SameEntries(d, r, y) && (y in r.occupy <==> y in d.occupy)
  {
    assert forall z :: z in Assigned(d, node).nodes <==> z in d.nodes || z == node;
  }

  lemma SameEntriesThen(d: Db, d1: Db, d2: Db, y: Id)
    requires SameEntries(d, d1, y) && SameEntries(d1, d2, y)
    ensures SameEntries(d, d2, y)
  {}

  /** One round, for the disputed identifier itself and for all others but the idle one. */
  lemma SettledMark(d: Db, a: Answer, plugAndPlay: bool)
    requires Consistent(d) && a.id in d.occupy && a.idle !in d.online && a.idle !in d.occupy
    requires InItsPlace(a.reply, a.id) && MayMove(d, a, plugAndPlay)
    ensures var r := Settled(d, a, plugAndPlay);
            && Consistent(r) && r.occupy <= d.occupy
            && (a.id in r.occupy <==> Keeps(d, a.reply, plugAndPlay))
            && (a.id in r.occupy ==> SameEntries(d, r, a.id))
  {
    hide Consistent, AfterReply, SameEntries;
    if a.reply.UniqueId? || a.reply.UniqueIdFromMultiple? {
      var x := a.reply.node;
      var d1 := AfterReply(d, a.id, x, plugAndPlay);
      PlacedReply(d, a.id, x, plugAndPlay);
      KeptEntries(d, d1, a.id);
      if a.moved {
        AppendKeeps(d1, Node(a.idle, x.sn));
        AssignedElsewhere(d1, Node(a.idle, x.sn), a.id);
        if a.id in d1.occupy {
          SameEntriesThen(d, d1, Assigned(d1, Node(a.idle, x.sn)), a.id);
        }
      }
    } else {
      OccupyDoesNotMatter(d, d.occupy - {a.id});
      KeptEntries(d, d, a.id);
    }
  }

  lemma KeptEntries(d: Db, d1: Db, id: Id)
    ensures d1.nodes == d.nodes && d1.online == d.online ==> SameEntries(d, d1, id)
  {}

  lemma SettledElsewhere(d: Db, a: Answer, plugAndPlay: bool, y: Id)
    requires InItsPlace(a.reply, a.id) && y != a.id && y != a.idle
    ensures var r := Settled(d, a, plugAndPlay);
            SameEntries(d, r, y) && (y in r.occupy <==> y in d.occupy)
  {
    hide AfterReply, SameEntries;
    KeptEntries(d, Settled(d, a, plugAndPlay), y);
    if a.reply.UniqueId? || a.reply.UniqueIdFromMultiple? {
      var x := a.reply.node;
      var d1 := AfterReply(d, a.id, x, plugAndPlay);
      PlacedElsewhere(d, a.id, x, plugAndPlay, y);
      if a.moved {
        AssignedElsewhere(d1, Node(a.idle, x.sn), y);
        SameEntriesThen(d, d1, Assigned(d1, Node(a.idle, x.sn)), y);
      }
    }
  }

  lemma SameKeeping(d: Db, d1: Db, r: Reply, id: Id, plugAndPlay: bool)
    requires SameEntries(d, d1, id) && InItsPlace(r, id)
    ensures Keeps(d1, r, plugAndPlay) <==> Keeps(d, r, plugAndPlay)
  {}

  lemma AllKeepNext(d: Db, log: seq<Answer>, a: Answer, id: Id, plugAndPlay: bool)
    ensures AllKeep(d, log + [a], id, plugAndPlay) <==>
              AllKeep(d, log, id, plugAndPlay) && (a.id == id ==> Keeps(d, a.reply, plugAndPlay))
  {
    assert forall b :: b in log + [a] <==> b in log || b == a;
  }

  lemma MarksStep(d: Db, log: seq<Answer>, d1: Db, a: Answer, plugAndPlay: bool)
    requires Marks(d, log, d1, plugAndPlay) && a.id in d1.occupy && a.idle !in d1.online && a.idle !in d1.occupy
    requires InItsPlace(a.reply, a.id) && MayMove(d1, a, plugAndPlay)
    ensures Marks(d, log + [a], Settled(d1, a, plugAndPlay), plugAndPlay)
  {
    hide AllKeep, Keeps, SameEntries, Settled, Consistent;
    var d2 := Settled(d1, a, plugAndPlay);
    SettledMark(d1, a, plugAndPlay);
    SameKeeping(d, d1, a.reply, a.id, plugAndPlay);
    forall id: Id | id in d.occupy
      ensures id in d2.occupy <==> AllKeep(d, log + [a], id, plugAndPlay)
    {
      AllKeepNext(d, log, a, id, plugAndPlay);
      if id != a.id && id != a.idle {
        SettledElsewhere(d1, a, plugAndPlay, id);
      }
    }
    forall id: Id | id in d2.occupy
      ensures SameEntries(d, d2, id)
    {
      if id != a.id {
        SettledElsewhere(d1, a, plugAndPlay, id);
      }
      SameEntriesThen(d, d1, d2, id);
    }
  }

  /** The answers come from nodes that have the identifier asked for. */
  predicate InPlace(log: seq<Answer>) {
    forall a | a in log :: InItsPlace(a.reply, a.id)
  }

  predicate AskedFor(log: seq<Answer>, id: Id) {
    exists a | a in log :: a.id == id
  }

  lemma LogGrows(log: seq<Answer>, a: Answer)
    ensures InPlace(log + [a]) <==> InPlace(log) && InItsPlace(a.reply, a.id)
    ensures forall id :: AskedFor(log + [a], id) <==> AskedFor(log, id) || id == a.id
  {
    var log1 := log + [a];
    assert log1[|log|] == a && forall b :: b in log1 <==> b in log || b == a;
  }

  lemma SettledOnline(d: Db, a: Answer, plugAndPlay: bool)
    requires a.id in d.occupy && InItsPlace(a.reply, a.id)
    ensures Settled(d, a, plugAndPlay).online <= d.online + {a.id, a.idle}
  {}

  // ----- what settling makes of the devices ---------------------------------------------------------

  predicate MovedAway(log: seq<Answer>, x: Node) {
    exists a | a in log :: a.moved && Carries(a.reply, x)
  }

  /** How a node comes into the table: it answered for an identifier that was not online, or it is what
      a node became that acknowledged an idle identifier. */
  predicate EntersBy(d: Db, a: Answer, x: Node) {
    && (a.reply.UniqueId? || a.reply.UniqueIdFromMultiple?)
    && ((a.reply.node == x && x.id !in d.online) || (a.moved && x == Node(a.idle, a.reply.node.sn)))
  }

  predicate Entered(d: Db, log: seq<Answer>, x: Node) {
    exists a | a in log :: EntersBy(d, a, x)
  }

  /** The table and the devices after the answers of log, with plug and play: who was known stays known,
      who entered is known, and every device is one that was there and has not moved, or is known. */
  ghost predicate Census(d: Db, devices: set<Node>, log: seq<Answer>, d1: Db, devices1: set<Node>) {
    && d.nodes <= d1.nodes
    && (forall x :: x in d1.nodes <==> x in d.nodes || Entered(d, log, x))
    && (forall x | x in devices1 :: (x in devices && !MovedAway(log, x)) || x in d1.nodes)
    && (forall x | x in devices && !MovedAway(log, x) :: x in devices1)
    && (forall a | a in log && a.moved ::
          (a.reply.UniqueId? || a.reply.UniqueIdFromMultiple?) && a.reply.node.id in d.online)
  }

  lemma LogNext(d: Db, log: seq<Answer>, a: Answer, x: Node)
    ensures Entered(d, log + [a], x) <==> Entered(d, log, x) || EntersBy(d, a, x)
    ensures MovedAway(log + [a], x) <==> MovedAway(log, x) || (a.moved && Carries(a.reply, x))
  {
    var log1 := log + [a];
    assert log1[|log|] == a && forall b :: b in log1 <==> b in log || b == a;
  }

  /** Who is in the table after one round. */
  lemma SettledNodes(d: Db, a: Answer, x: Node)
    requires Consistent(d) && a.id in d.occupy && InItsPlace(a.reply, a.id) && MayMove(d, a, true)
    ensures var r := Settled(d, a, true);
            d.nodes <= r.nodes && (x in r.nodes <==> x in d.nodes || EntersBy(d, a, x))
    ensures a.moved ==> a.id in d.online
  {
    hide Consistent, AfterReply;
    if a.reply.UniqueId? || a.reply.UniqueIdFromMultiple? {
      PlacedReply(d, a.id, a.reply.node, true);
    }
  }

  lemma CensusStep(d: Db, devices: set<Node>, log: seq<Answer>, d1: Db, devices1: set<Node>, a: Answer)
    requires Marks(d, log, d1, true) && Census(d, devices, log, d1, devices1)
    requires a.id in d1.occupy && a.idle !in d1.online && a.idle !in d1.occupy
    requires InItsPlace(a.reply, a.id) && MayMove(d1, a, true)
    ensures Census(d, devices, log + [a], Settled(d1, a, true), Population(devices1, a))
  {
    hide Settled, Entered, MovedAway, MayMove, Consistent, AllKeep;
    var d2 := Settled(d1, a, true);
    assert SameEntries(d, d1, a.id);
    forall x
      ensures x in d2.nodes <==> x in d.nodes || Entered(d, log + [a], x)
      ensures x in d2.nodes <==> x in d1.nodes || EntersBy(d, a, x)
    {
      SettledNodes(d1, a, x);
      LogNext(d, log, a, x);
      EntersAlike(d, d1, a, x);
    }
    forall x
      ensures MovedAway(log + [a], x) <==> MovedAway(log, x) || (a.moved && Carries(a.reply, x))
    {
      LogNext(d, log, a, x);
    }
    if a.moved {
      MovedWho(d1, a);
    }
    var log1 := log + [a];
    assert forall b :: b in log1 <==> b in log || b == a;
    SettledNodes(d1, a, Node(a.id, 0));
  }

  lemma MovedWho(d: Db, a: Answer)
    requires MayMove(d, a, true) && a.moved
    ensures a.reply.UniqueId? || a.reply.UniqueIdFromMultiple?
  {}

  lemma EntersAlike(d: Db, d1: Db, a: Answer, x: Node)
    requires SameEntries(d, d1, a.id) && InItsPlace(a.reply, a.id)
    ensures EntersBy(d, a, x) <==> EntersBy(d1, a, x)
  {}

  /** What the answers of log say of the database d1 and the devices that they lead to, provided that they
      come from nodes that have the identifier asked for. */
  ghost predicate Explained(d: Db, devices: set<Node>, log: seq<Answer>, d1: Db, devices1: set<Node>,
                            plugAndPlay: bool) {
    InPlace(log) ==>
      && Marks(d, log, d1, plugAndPlay) && d1.online <= d.online + d.occupy + SmallIds()
      && (plugAndPlay ==> Census(d, devices, log, d1, devices1))
  }

  lemma NothingToExplain(d: Db, devices: set<Node>, plugAndPlay: bool)
    requires Consistent(d)
    ensures Explained(d, devices, [], d, devices, plugAndPlay)
  {}

  lemma ExplainedStep(d: Db, devices: set<Node>, log: seq<Answer>, d1: Db, devices1: set<Node>, a: Answer,
                      plugAndPlay: bool)
    requires Explained(d, devices, log, d1, devices1, plugAndPlay) && MayMove(d1, a, plugAndPlay)
    requires a.id in d1.occupy && a.idle !in d1.online && a.idle !in d1.occupy && Small(a.idle)
    ensures Explained(d, devices, log + [a], Settled(d1, a, plugAndPlay), Population(devices1, a), plugAndPlay)
  {
    hide Consistent, Marks, Census, Settled, MayMove, Population;
    LogGrows(log, a);
    if InPlace(log + [a]) {
      ExplainedTell(d, devices, log, d1, devices1, plugAndPlay, a.id);
      MarksStep(d, log, d1, a, plugAndPlay);
      SettledOnline(d1, a, plugAndPlay);
      if plugAndPlay {
        CensusStep(d, devices, log, d1, devices1, a);
      }
    }
  }

  /** Marks only go, and one that is gone was asked for. */
  lemma ExplainedTell(d: Db, devices: set<Node>, log: seq<Answer>, d1: Db, devices1: set<Node>, plugAndPlay: bool,
                      id: Id)
    requires Explained(d, devices, log, d1, devices1, plugAndPlay) && InPlace(log)
    ensures id in d1.occupy ==> id in d.occupy
    ensures id in d.occupy && id !in d1.occupy ==> AskedFor(log, id)
  {}

  /** The device is known, or has been moved to an identifier for which it is known. */
  predicate Accounted(d: Db, log: seq<Answer>, x: Node) {
    MovedAway(log, x) || x in d.nodes || Entered(d, log, x)
  }

  /** What settling leaves undiscovered, exactly: of what was discovered, an identifier stays so if and
      only if it was not disputed, or all answers keep its mark, or every device that had it is
      accounted for by the answers. */
  lemma StaysDiscoveredExactly(d: Db, devices: set<Node>, log: seq<Answer>, d1: Db, devices1: set<Node>, id: Id)
    requires Marks(d, log, d1, true) && Census(d, devices, log, d1, devices1) && Consistent(d)
    requires InPlace(log) && Discovered(d, devices, id)
    ensures Discovered(d1, devices1, id) <==>
              || id !in d.occupy
              || AllKeep(d, log, id, true)
              || forall x | x in devices && x.id == id :: Accounted(d, log, x)
  {
  }

  class Scanner {
    var nodes: seq<Node>         // scan_db[0..db_ctr)
    var dbOnline: Bitmap         // db_online
    var dbOccupy: Bitmap         // db_occupy
    var plugAndPlay: bool        // external_nodes_plug_and_play
    var asked: nat               // how many commands were sent so far
    const ask: (nat, Id, Id) -> Reply       // the answer to the n-th command, for a range, in the search
    const confirm: (nat, Id) -> Reply       // the answer for a single identifier, in settling disputes
    const accepts: (nat, Node) -> bool      // whether a node acknowledges a new identifier
    ghost var devices: set<Node>            // who is there, with the identifiers of the moment
    ghost const calm: nat                   // from this command on the bus is not busy in the search

    ghost function State(): Db
      reads this
    {
      Db(nodes, Members(dbOnline), Members(dbOccupy))
    }

    /** The bus during the search: truthful answers, and busy only finitely often. */
    ghost predicate Honest()
      reads this`devices
    {
      forall n: nat, lo: Id, hi: Id ::
        Truthful(devices, lo, hi, ask(n, lo, hi)) && (n >= calm ==> !ask(n, lo, hi).ScanBusy?)
    }

    /** Some answer of the search reports the node. */
    ghost predicate Told(x: Node) {
      exists n: nat, lo: Id, hi: Id :: Carries(ask(n, lo, hi), x)
    }

    /** Whoever is in the table was there or has been reported. */
    ghost predicate OnlyTold(before: seq<Node>)
      reads this`nodes
    {
      forall x | x in nodes :: x in before || Told(x)
    }

    /** init_scan_db. */
    constructor (address: Id, serial: nat, plug: bool, ask: (nat, Id, Id) -> Reply, confirm: (nat, Id) -> Reply,
                 accepts: (nat, Node) -> bool, ghost devices: set<Node>, ghost calm: nat)
      ensures Consistent(State()) && State() == Db([Node(address, serial)], {address}, {})
      ensures this.ask == ask && this.confirm == confirm && this.accepts == accepts
      ensures this.devices == devices && this.calm == calm && plugAndPlay == plug && asked == 0
    {
      nodes := [Node(address, serial)];
      dbOnline, dbOccupy := SetBit(EMPTY, address), EMPTY;
      plugAndPlay, asked := plug, 0;
      this.ask, this.confirm, this.accepts, this.devices, this.calm := ask, confirm, accepts, devices, calm;
      new;
      EmptyHoldsNothing();
      SetBitAdds(EMPTY, address);
      assert nodes[0].id == address;
    }

    /** remove_id_from_db. */
    method RemoveIdFromDb(index: nat)
      modifies this`nodes, this`dbOnline, this`dbOccupy
      ensures State() == Removed(old(State()), index)
      ensures 0 < index < |old(nodes)| ==>
                var id := old(nodes)[index].id;
                && nodes == old(nodes)[..index] + old(nodes)[index + 1..]
                && State().online == old(State()).online - {id} && State().occupy == old(State()).occupy - {id}
    {
      if |nodes| > 1 && index < |nodes| && index > 0 {
        var id := nodes[index].id;
        ClearBitRemoves(dbOnline, id);
        ClearBitRemoves(dbOccupy, id);
        dbOnline := ClearBit(dbOnline, id);
        dbOccupy := ClearBit(dbOccupy, id);
        var i := index;
        while i < |nodes| - 1
          invariant index <= i < |nodes| == |old(nodes)|
          invariant nodes == old(nodes)[..index] + old(nodes)[index + 1..i + 1] + old(nodes)[i..]
          modifies this`nodes
        {
          nodes := nodes[i := nodes[i + 1]];
          i := i + 1;
        }
        nodes := nodes[..|nodes| - 1];
      }
    }

    /** The search of the table for an identifier. */
    method FindEntry(id: Id) returns (i: nat)
      ensures i == IndexOf(nodes, id)
    {
      i := 0;
      while i < |nodes|
        invariant i <= |nodes| && IndexOf(nodes, id) == i + IndexOf(nodes[i..], id)
      {
        if nodes[i].id == id {
          return;
        }
        i := i + 1;
      }
    }

    /** check_id_in_database. */
    method CheckIdInDatabase(node: Node)
      modifies this`nodes, this`dbOnline, this`dbOccupy
      ensures State() == Checked(old(State()), node, plugAndPlay)
    {
      SetBitAdds(dbOccupy, node.id);
      if Test(dbOnline, node.id) {
        var i := FindEntry(node.id);
        if i < |nodes| && nodes[i].sn != node.sn {
          if !plugAndPlay {
            RemoveIdFromDb(i);
          } else {
            dbOccupy := SetBit(dbOccupy, node.id);
          }
        }
      } else {
        SetBitAdds(dbOnline, node.id);
        ClearBitRemoves(dbOccupy, node.id);
        dbOnline := SetBit(dbOnline, node.id);
        dbOccupy := ClearBit(dbOccupy, node.id);
        nodes := nodes + [node];
      }
    }

    /** The two cases of bin_search for several nodes at one identifier. */
    method MarkConflict(id: Id)
      modifies this`nodes, this`dbOnline, this`dbOccupy
      ensures State() == Conflicting(old(State()), id, plugAndPlay)
    {
      SetBitAdds(dbOccupy, id);
      dbOccupy := SetBit(dbOccupy, id);
      if Test(dbOnline, id) && !plugAndPlay {
        var i := FindEntry(id);
        RemoveIdFromDb(i);
      }
    }

    /** bin_search. */
    method BinSearch(minId: Id, maxId: Id)
      requires Honest() && Consistent(State()) && maxId <= 254
      modifies this`nodes, this`dbOnline, this`dbOccupy, this`asked
      ensures Scanned(old(State()), State(), devices, minId, maxId)
      ensures plugAndPlay ==> forall id: Id | minId <= id <= maxId :: Discovered(State(), devices, id)
      ensures |nodes| <= |old(State()).online + DeviceIds(devices)| && asked >= old(asked)
      ensures OnlyTold(old(nodes))
      ensures !plugAndPlay ==> Weeded(old(State()), State(), devices, minId, maxId)
      decreases if minId <= maxId then maxId - minId + 1 else 0, 1, if asked < calm then calm - asked else 0
    {
      hide Consistent, Discovered, Scanned, Checked, Conflicting, Shared, Weeded, StillWelcome;
      ghost var d := State();
      SomeEntry(d);
      NothingScanned(d, devices, minId, maxId);
      EntriesBound(d, d, devices, minId, maxId);
      if minId > maxId {
        NothingToWeed(d, devices, minId, maxId);
        return;
      }
      var reply := ask(asked, minId, maxId);
      assert Truthful(devices, minId, maxId, reply);
      assert forall x :: Carries(reply, x) ==> Told(x);
      asked := asked + 1;
      assert State() == d;
      match reply {
        case UniqueId(node) =>
          TableGrows(d, node, plugAndPlay);
          CheckScans(d, devices, node, plugAndPlay, minId, maxId);
          if minId != maxId {
            CheckStaysWelcome(d, devices, node);
          } else if plugAndPlay {
            CheckDiscovers(d, devices, node);
          } else {
            CheckWeeds(d, devices, node);
          }
          CheckIdInDatabase(node);
          if minId != maxId {
            SearchHalves(minId, maxId, d);
          }
        case MultipleId =>
          if minId == maxId {
            ConflictScans(d, devices, minId, plugAndPlay);
            ConflictWeeds(d, devices, minId);
            TableGrows(d, Node(minId, 0), plugAndPlay);
            MarkConflict(minId);
          } else {
            AllWelcome(d, devices);
            SearchHalves(minId, maxId, d);
          }
        case UniqueIdFromMultiple(node) =>
          if minId == maxId {
            ConflictScans(d, devices, minId, plugAndPlay);
            ConflictWeeds(d, devices, minId);
            TableGrows(d, Node(minId, 0), plugAndPlay);
            MarkConflict(minId);
          } else {
            TableGrows(d, node, plugAndPlay);
            CheckScans(d, devices, node, plugAndPlay, minId, maxId);
            CheckStaysWelcome(d, devices, node);
            CheckIdInDatabase(node);
            SearchHalves(minId, maxId, d);
          }
        case NoneId =>
          forall id: Id | minId <= id <= maxId
            ensures Discovered(State(), devices, id)
          {
            NobodyToDiscover(State(), devices, minId, maxId, id);
          }
          NobodyToWeed(d, devices, minId, maxId);
        case ScanBusy =>
          BinSearch(minId, maxId);
      }
      EntriesBound(d, State(), devices, minId, maxId);
    }

    /** The two recursive calls of bin_search. */
    method SearchHalves(minId: Id, maxId: Id, ghost d: Db)
      requires Honest() && minId < maxId <= 254 && Scanned(d, State(), devices, minId, maxId)
      requires !plugAndPlay ==> StillWelcome(d, State(), devices)
      modifies this`nodes, this`dbOnline, this`dbOccupy, this`asked
      ensures Scanned(d, State(), devices, minId, maxId) && asked >= old(asked) && OnlyTold(old(nodes))
      ensures plugAndPlay ==> forall id: Id | minId <= id <= maxId :: Discovered(State(), devices, id)
      ensures !plugAndPlay ==> Weeded(d, State(), devices, minId, maxId)
      decreases maxId - minId + 1, 0, 0
    {
      hide Consistent, Discovered, Weeded, StillWelcome, SameOutside, DeviceIds;
      ghost var d0 := State();
      var middle := (minId + maxId) / 2;
      BinSearch(minId, middle);
      ghost var d1 := State();
      ScannedThen(d, old(State()), d1, devices, minId, maxId, minId, middle);
      BinSearch(middle + 1, maxId);
      ScannedThen(d, d1, State(), devices, minId, maxId, middle + 1, maxId);
      if plugAndPlay {
        forall id: Id | minId <= id <= middle
          ensures Discovered(State(), devices, id)
        {
          StaysDiscovered(d1, State(), devices, middle + 1, maxId, id);
        }
      } else {
        WeededHalves(d, d0, d1, State(), devices, minId, middle, maxId);
      }
    }

    /** get_idle_id: the smallest identifier below MAX_ID that is neither online nor disputed. */
    method GetIdleId() returns (id: Id)
      ensures id == 0xff <==> forall i: Id | 1 <= i < MAX_ID :: i in State().online || i in State().occupy
      ensures id != 0xff ==> 1 <= id < MAX_ID && id !in State().online && id !in State().occupy
                             && forall i: Id | 1 <= i < id :: i in State().online || i in State().occupy
    {
      id := 1;
      while id < MAX_ID
        invariant 1 <= id <= MAX_ID
        invariant forall i: Id | 1 <= i < id :: i in State().online || i in State().occupy
      {
        if !Test(dbOnline, id) && !Test(dbOccupy, id) {
          assert id !in State().online && id !in State().occupy;
          return;
        }
        id := id + 1;
      }
      id := 0xff;
    }

    /** The entry for a node that has acknowledged an idle identifier. */
    method AddAssigned(node: Node)
      modifies this`nodes, this`dbOnline
      ensures State() == Assigned(old(State()), node)
    {
      SetBitAdds(dbOnline, node.id);
      dbOnline := SetBit(dbOnline, node.id);
      nodes := nodes + [node];
    }

    /** The handling of one reply in dealwith_conflict_id: the mark of the disputed identifier goes if
        the reply carries it, and comes back if the identifier is known for another node; then the
        node that answered gets the idle identifier, if it acknowledges it. */
    method SettleReply(occupyId: Id, idleId: Id, node: Node) returns (moved: bool)
      requires Consistent(State()) && occupyId in State().occupy
      requires idleId !in State().online && idleId !in State().occupy
      modifies this`nodes, this`dbOnline, this`dbOccupy, this`asked
      ensures Consistent(State()) && (plugAndPlay ==> old(nodes) <= nodes) && asked >= old(asked)
      ensures moved ==> asked > old(asked)
      ensures var d1 := AfterReply(old(State()), occupyId, node, plugAndPlay);
              && (moved <==> node.id in d1.occupy && accepts(old(asked), Node(idleId, node.sn)))
              && State() == if moved then Assigned(d1, Node(idleId, node.sn)) else d1
      ensures forall id: Id | id != node.id && id != idleId :: Untouched(old(State()), State(), id)
      ensures State().online <= old(State()).online + {node.id, idleId}
      ensures State().occupy <= old(State()).occupy + {node.id}
      ensures node.id == occupyId ==> (occupyId in State().occupy <==> plugAndPlay && OtherSerial(old(State()), node))
      ensures idleId != node.id ==>
                (idleId in State().online <==> node.id in State().occupy && accepts(old(asked), Node(idleId, node.sn)))
      ensures idleId != node.id && idleId in State().online ==> Node(idleId, node.sn) in nodes
    {
      hide Consistent, Checked, Untouched;
      ghost var d := State();
      if occupyId == node.id {
        ClearBitRemoves(dbOccupy, occupyId);
        OccupyDoesNotMatter(State(), State().occupy - {occupyId});
        dbOccupy := ClearBit(dbOccupy, occupyId);
      }
      ghost var d1 := State();
      CheckedKeeps(d1, node, plugAndPlay);
      CheckedMark(d1, node, plugAndPlay);
      OnlineGrows(d1, node, plugAndPlay);
      CheckedUntouched(d, d1, node, plugAndPlay);
      CheckIdInDatabase(node);
      ghost var d2 := State();
      SettledUntouched(d2, d2, idleId);
      moved := false;
      if Test(dbOccupy, node.id) {
        assert node.id in d2.occupy;
        var newNode := Node(idleId, node.sn);
        moved := accepts(asked, newNode);
        asked := asked + 1;
        if moved {
          AppendKeeps(d2, newNode);
          SettledUntouched(d2, Assigned(d2, newNode), idleId);
          AddAssigned(newNode);
          assert nodes[|nodes| - 1] == newNode;
        }
      }
      UntouchedThen(d, d2, State(), node.id, idleId);
    }

    /** The question for one disputed identifier and the handling of the answer; tells whether to go on
        with the next identifier. Of a node that has the disputed identifier: the mark stays exactly if
        the answer keeps it. */
    method AskOne(occupyId: Id, idleId: Id) returns (goOn: bool, ghost a: Answer)
      requires Consistent(State()) && occupyId in State().occupy
      requires idleId !in State().online && idleId !in State().occupy
      modifies this`nodes, this`dbOnline, this`dbOccupy, this`asked, this`devices
      ensures a == Answer(occupyId, confirm(old(asked), occupyId), idleId, a.moved) && asked > old(asked)
      ensures MayMove(old(State()), a, plugAndPlay) && State() == Settled(old(State()), a, plugAndPlay)
      ensures devices == Population(old(devices), a) && GivenOne(a, old(asked), asked)
      ensures goOn <==> !(a.reply.MultipleId? || a.reply.UniqueIdFromMultiple?)
      ensures Consistent(State()) && (plugAndPlay ==> old(nodes) <= nodes)
      ensures InItsPlace(a.reply, occupyId) ==>
                (occupyId in State().occupy <==> Keeps(old(State()), a.reply, plugAndPlay))
      ensures a.reply.NoneId? || a.reply.ScanBusy? ==> occupyId !in State().occupy
    {
      hide Consistent, Untouched, AfterReply;
      var reply := confirm(asked, occupyId);
      asked := asked + 1;
      goOn := true;
      var moved := false;
      match reply {
        case UniqueId(node) =>
          moved := SettleReply(occupyId, idleId, node);
        case UniqueIdFromMultiple(node) =>
          moved := SettleReply(occupyId, idleId, node);
          goOn := false;
        case MultipleId =>
          goOn := false;
        case _ =>
          ClearBitRemoves(dbOccupy, occupyId);
          OccupyDoesNotMatter(State(), State().occupy - {occupyId});
          dbOccupy := ClearBit(dbOccupy, occupyId);
      }
      a := Answer(occupyId, reply, idleId, moved);
      devices := Population(devices, a);
    }

    /** The answers of log were given to the commands from `from` on, before `to`. */
    ghost predicate Given(log: seq<Answer>, from: nat, to: nat) {
      forall a | a in log :: GivenOne(a, from, to)
    }

    ghost predicate GivenOne(a: Answer, from: nat, to: nat) {
      && (exists n | from <= n < to :: a.reply == confirm(n, a.id))
      && (a.moved ==>
            && (a.reply.UniqueId? || a.reply.UniqueIdFromMultiple?)
            && exists n | from <= n < to :: accepts(n, Node(a.idle, a.reply.node.sn)))
    }

    lemma GivenNext(log: seq<Answer>, a: Answer, from: nat, n: nat, to: nat)
      requires Given(log, from, n) && from <= n <= to && GivenOne(a, n, to)
      ensures Given(log + [a], from, to)
    {
      assert forall b :: b in log + [a] <==> b in log || b == a;
    }

    /** dealwith_conflict_id. The answers to its questions, in log, say exactly which identifiers end
        resolved, who is in the table and where the devices are, provided that they come from nodes that
        have the identifier asked for. Unless the idle identifiers are exhausted every disputed
        identifier is asked for. The loop ends although the number of tries, an 8-bit counter that
        starts at 0 for all identifiers but the first, wraps around below 0. */
    method DealWithConflicts() returns (exhausted: bool, ghost log: seq<Answer>)
      requires Consistent(State())
      modifies this`nodes, this`dbOnline, this`dbOccupy, this`asked, this`devices
      ensures Consistent(State()) && (plugAndPlay ==> old(nodes) <= nodes) && asked >= old(asked)
      ensures Given(log, old(asked), asked)
      ensures exhausted ==> forall id: Id | Small(id) :: id in State().online || id in State().occupy
      ensures Explained(old(State()), old(devices), log, State(), devices, plugAndPlay)
      ensures InPlace(log) && !exhausted ==>
                forall id: Id | 1 <= id < 0xff && id in old(State()).occupy :: AskedFor(log, id)
    {
      hide Consistent, Explained, InPlace, Settled, MayMove, Population, Keeps, GivenOne;
      ghost var d, devices0 := State(), devices;
      var occupyId: Id := 1;
      var tryTimes := 3;
      exhausted, log := false, [];
      NothingToExplain(d, devices0, plugAndPlay);
      while occupyId != 0xff
        invariant Consistent(State()) && 1 <= occupyId <= 0xff && 0 <= tryTimes < 256 && !exhausted
        invariant plugAndPlay ==> old(nodes) <= nodes
        invariant asked >= old(asked) && Given(log, old(asked), asked)
        invariant Explained(d, devices0, log, State(), devices, plugAndPlay)
        invariant InPlace(log) ==> forall id: Id | 1 <= id < occupyId && id in d.occupy :: AskedFor(log, id)
        invariant tryTimes == (if occupyId == 1 then 3 else 0) || AskedFor(log, occupyId)
        decreases 0xff - occupyId, (tryTimes + 255) % 256
      {
        var goOn := true;
        if InPlace(log) {
          ExplainedTell(d, devices0, log, State(), devices, plugAndPlay, occupyId);
        }
        if Test(dbOccupy, occupyId) {
          tryTimes := (tryTimes + 255) % 256;
          if tryTimes != 0 {
            var idleId := GetIdleId();
            if idleId == 0xff {
              exhausted := true;
              break;
            }
            ghost var d1, devices1, n := State(), devices, asked;
            ghost var a;
            goOn, a := AskOne(occupyId, idleId);
            LogGrows(log, a);
            GivenNext(log, a, old(asked), n, asked);
            ExplainedStep(d, devices0, log, d1, devices1, a, plugAndPlay);
            log := log + [a];
          }
        }
        if goOn {
          occupyId := occupyId + 1;
          tryTimes := 0;
        }
      }
    }

    /** scan_sub_nodes: the search finds every device or marks its identifier as disputed; with plug and
        play the disputes are then settled. What this leaves undiscovered is exactly said by the answers
        in settling. */
    method ScanSubNodes() returns (exhausted: bool, ghost found: Db, ghost log: seq<Answer>)
      requires Honest() && Consistent(State())
      modifies this`nodes, this`dbOnline, this`dbOccupy, this`asked, this`devices
      ensures Consistent(State()) && Consistent(found) && Scanned(old(State()), found, old(devices), 1, 254)
      ensures asked >= old(asked) && Given(log, old(asked), asked)
      ensures !plugAndPlay ==> State() == found && devices == old(devices) && log == [] && !exhausted
      ensures !plugAndPlay ==> Weeded(old(State()), State(), devices, 1, 254)
      ensures plugAndPlay ==> forall id: Id | 1 <= id <= 254 :: Discovered(found, old(devices), id)
      ensures forall x | x in found.nodes :: x in old(nodes) || Told(x)
      ensures exhausted ==> forall id: Id | Small(id) :: id in State().online || id in State().occupy
      ensures plugAndPlay && InPlace(log) && !exhausted ==>
                forall id: Id | 1 <= id <= 254 && id in found.occupy :: AskedFor(log, id)
      ensures plugAndPlay && InPlace(log) ==>
                && Marks(found, log, State(), true) && Census(found, old(devices), log, State(), devices)
                && forall id: Id | 1 <= id <= 254 ::
                     Discovered(State(), devices, id) <==>
                       || id !in found.occupy
                       || AllKeep(found, log, id, true)
                       || forall x | x in old(devices) && x.id == id :: Accounted(found, log, x)
    {
      hide Consistent, Discovered, SameOutside, Marks, Census, AllKeep, Accounted, InPlace;
      exhausted, log := false, [];
      BinSearch(1, 254);
      found := State();
      ghost var n := asked;
      if plugAndPlay {
        exhausted, log := DealWithConflicts();
        GivenEarlier(log, old(asked), n, asked);
        if InPlace(log) {
          forall id: Id | 1 <= id <= 254
            ensures Discovered(State(), devices, id) <==>
                      || id !in found.occupy
                      || AllKeep(found, log, id, true)
                      || forall x | x in old(devices) && x.id == id :: Accounted(found, log, x)
          {
            StaysDiscoveredExactly(found, old(devices), log, State(), devices, id);
          }
        }
      }
    }

    lemma GivenEarlier(log: seq<Answer>, from: nat, n: nat, to: nat)
      requires from <= n && Given(log, n, to)
      ensures Given(log, from, to)
    {}

    /** modify_master_id_in_database. */
    method ModifyMasterId(oldId: Id, newId: Id)
      requires nodes != []
      modifies this`nodes, this`dbOnline
      ensures State() == MasterChanged(old(State()), oldId, newId)
      ensures nodes != [] && nodes[0].id == newId && nodes[0].sn == old(nodes[0].sn) && nodes[1..] == old(nodes[1..])
      ensures dbOccupy == old(dbOccupy) && newId in State().online && (oldId in State().online ==> oldId == newId)
      ensures forall id: Id | id != oldId && id != newId :: id in State().online <==> id in old(State()).online
    {
      nodes := nodes[0 := Node(newId, nodes[0].sn)];
      ClearBitRemoves(dbOnline, oldId);
      dbOnline := ClearBit(dbOnline, oldId);
      SetBitAdds(dbOnline, newId);
      dbOnline := SetBit(dbOnline, newId);
    }

    /** check_master_id_in_database: the next identifier, upwards or downwards, that no other node has.
        It ends because fewer nodes are known than there are identifiers. */
    method CheckMasterId(setId: Id, increase: bool, ghost free: Id) returns (r: Id)
      requires nodes != [] && 1 <= free <= 254 && free !in IdsOf(nodes[1..])
      ensures r !in IdsOf(nodes[1..])
      ensures (r == 0 ==> increase && setId == 0) && (r == 255 ==> !increase && setId == 255)
      ensures 1 <= r <= 254 ==>
                forall x: Id | 1 <= x <= 254 && Steps(setId, increase, x) < Steps(setId, increase, r) ::
                  x in IdsOf(nodes[1..])
      decreases Steps(setId, increase, free)
    {
      var id := setId;
      if setId == 0 && !increase {
        id := 254;
      }
      if setId == 255 && increase {
        id := 1;
      }
      var i := 1;
      while i < |nodes|
        invariant 1 <= i <= |nodes|
        invariant forall j | 1 <= j < i :: nodes[j].id != id
      {
        if nodes[i].id == id {
          break;
        }
        i := i + 1;
      }
      if i >= |nodes| {
        assert forall j | 0 <= j < |nodes[1..]| :: nodes[1..][j] == nodes[j + 1];
        return id;
      }
      assert nodes[1..][i - 1].id == id;
      if increase {
        r := CheckMasterId(id + 1, true, free);
      } else {
        r := CheckMasterId(id - 1, false, free);
      }
    }
  }

  // ----- two devices at one identifier -------------------------------------------------------------

  const FIRST := Node(5, 1)
  const SECOND := Node(5, 2)

  /** The first device answers whatever range it is in; only for the identifier itself do both collide. */
  function FirstAnswers(n: nat, lo: Id, hi: Id): Reply {
    if lo <= 5 <= hi then if lo == hi then MultipleId else UniqueIdFromMultiple(FIRST) else NoneId
  }

  lemma FirstAnswersTruthfully()
    ensures forall n: nat, lo: Id, hi: Id :: Truthful({FIRST, SECOND}, lo, hi, FirstAnswers(n, lo, hi))
    ensures Shared({FIRST, SECOND}, 5)
  {
    assert FIRST in {FIRST, SECOND} && SECOND in {FIRST, SECOND};
  }

  /** A run that loses a device: in settling the first device, if it is in the table already, answers
      first again, or the bus is busy. In either case the mark goes, and the second device is neither
      known nor marked in the end, although all answers are truthful and both devices are still there. */
  method DeviceLost(busy: bool) returns (s: Scanner)
    ensures FIRST in s.devices && SECOND in s.devices && SECOND !in s.nodes && 5 !in s.State().occupy
    ensures !Discovered(s.State(), s.devices, 5)
  {
    hide Consistent, Discovered, Marks, Census, AllKeep, Accounted, Truthful, SameOutside;
    var confirm := (n: nat, id: Id) => SecondSilent(busy, id);
    s := new Scanner(1, 0, true, FirstAnswers, confirm, (n, x) => false, {FIRST, SECOND}, 0);
    FirstAnswersTruthfully();
    var exhausted, found, log := s.ScanSubNodes();
    forall a | a in log
      ensures a.reply == SecondSilent(busy, a.id) && !a.moved
    {
      assert s.GivenOne(a, 0, s.asked);
    }
    SecondNotFound(found);
    assert found.occupy <= {5} by {
      assert DeviceIds({FIRST, SECOND}) == {5};
    }
    SecondLost(found, log, s.State(), s.devices, busy, exhausted);
  }

  function SecondSilent(busy: bool, id: Id): Reply {
    if busy then ScanBusy else if id == 5 then UniqueIdFromMultiple(FIRST) else NoneId
  }

  lemma SecondNotFound(found: Db)
    requires Discovered(found, {FIRST, SECOND}, 5)
    requires forall x | x in found.nodes :: x == Node(1, 0)
                || exists n: nat, lo: Id, hi: Id :: Carries(FirstAnswers(n, lo, hi), x)
    ensures 5 in found.occupy && forall x | x in found.nodes :: x == Node(1, 0) || x == FIRST
  {
    FirstAnswersTruthfully();
  }

  /** None of these answers keeps the mark or brings the second device in. */
  lemma SecondLost(found: Db, log: seq<Answer>, d1: Db, devices1: set<Node>, busy: bool,
                   exhausted: bool)
    requires Marks(found, log, d1, true) && Census(found, {FIRST, SECOND}, log, d1, devices1) && Consistent(found)
    requires 5 in found.occupy && found.occupy <= {5}
    requires forall x | x in found.nodes :: x == Node(1, 0) || x == FIRST
    requires forall a | a in log :: a.reply == SecondSilent(busy, a.id) && !a.moved
    requires !exhausted ==> AskedFor(log, 5)
    requires exhausted ==> forall id: Id | Small(id) :: id in d1.online || id in d1.occupy
    ensures FIRST in devices1 && SECOND in devices1 && SECOND !in d1.nodes && 5 !in d1.occupy
    ensures !Discovered(d1, devices1, 5)
  {
    assert !exhausted by {
      assert Small(2);
      forall x | x in d1.nodes
        ensures x == Node(1, 0) || x == FIRST
      {}
      assert 2 !in d1.online;
    }
    assert !OtherSerial(found, FIRST);
    assert !AllKeep(found, log, 5, true);
    assert !Entered(found, log, SECOND);
    assert Shared({FIRST, SECOND}, 5) by {
      FirstAnswersTruthfully();
    }
  }

  /** A settling that works: the second device answers, moves to the idle identifier 2, and then the
      first one answers alone. */
  lemma BothFound()
    ensures var d := Db([Node(1, 0), FIRST], {1, 5}, {5});
            var a, b := Answer(5, UniqueIdFromMultiple(SECOND), 2, true), Answer(5, UniqueId(FIRST), 3, false);
            var d1 := Settled(d, a, true);
            var devices := Population(Population({FIRST, SECOND}, a), b);
            && MayMove(d, a, true) && MayMove(d1, b, true) && devices == {FIRST, Node(2, 2)}
            && forall id: Id :: Discovered(Settled(d1, b, true), devices, id)
  {
    var d := Db([Node(1, 0), FIRST], {1, 5}, {5});
    assert IndexOf(d.nodes, 5) == 1;
    var a, b := Answer(5, UniqueIdFromMultiple(SECOND), 2, true), Answer(5, UniqueId(FIRST), 3, false);
    var d1 := Settled(d, a, true);
    assert d1.nodes == [Node(1, 0), FIRST, Node(2, 2)];
    assert IndexOf(d1.nodes, 5) == 1;
  }

  predicate Small(id: Id) {
    1 <= id < MAX_ID
  }

  ghost function SmallIds(): set<Id> {
    set id: Id | Small(id)
  }

  /** How many identifiers are tried before the free one is reached. */
  function Steps(id: Id, increase: bool, free: Id): nat
    requires 1 <= free <= 254
  {
    if increase then
      if id == 255 then free else if id <= free then free - id + 1 else 254 - id + free + 1
    else
      if id == 0 then 254 - free + 1 else if free <= id then id - free + 1 else id + 254 - free + 1
  }

  /** Some identifier is free for the master as long as fewer than 255 nodes are known. */
  lemma SomeIdIsFree(nodes: seq<Node>) returns (free: Id)
    requires 0 < |nodes| < 255
    ensures 1 <= free <= 254 && free !in IdsOf(nodes[1..])
  {
    var taken := IdsOf(nodes[1..]);
    IdsBound(nodes[1..]);
    if forall id: Id | 1 <= id <= 254 :: id in taken {
      AllTaken(taken, 254);
    } else {
      free :| 1 <= free <= 254 && free !in taken;
    }
  }

  lemma {:induction false} IdsBound(nodes: seq<Node>)
    ensures |IdsOf(nodes)| <= |nodes|
  {
    if nodes != [] {
      var rest := nodes[..|nodes| - 1];
      var last := nodes[|nodes| - 1];
      IdsBound(rest);
      assert nodes == rest + [last];
      assert IdsOf(nodes) == IdsOf(rest) + {last.id};
    }
  }

  lemma {:induction false} AllTaken(s: set<Id>, n: nat)
    requires n < 255 && forall id: Id | 1 <= id <= n :: id in s
    ensures |s| >= n
  {
    if n > 0 {
      var last: Id := n;
      AllTaken(s - {last}, n - 1);
    }
  }
}
