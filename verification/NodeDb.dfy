// The database of found nodes (co2/scan.c): the table scan_db and the sets db_online and db_occupy,
// which must tell the same story.

module NodeDb {
  import opened Bitmaps

  const MAX_ID: nat := 20    // entries in scan_db

  datatype Node = Node(id: Id, sn: nat)

  datatype Db = Db(
    nodes: seq<Node>,        // scan_db[0..db_ctr); the first is the master itself
    online: set<Id>,         // db_online
    occupy: set<Id>)         // db_occupy

  function IdsOf(nodes: seq<Node>): (s: set<Id>)
    ensures forall i | 0 <= i < |nodes| :: nodes[i].id in s
    ensures forall id | id in s :: exists i :: 0 <= i < |nodes| && nodes[i].id == id
  {
    set x | x in nodes :: x.id
  }

  ghost predicate DistinctIds(nodes: seq<Node>) {
    forall i, j | 0 <= i < j < |nodes| :: nodes[i].id != nodes[j].id
  }

  /** db_online is the set of the identifiers in the table, and each is there once. */
  ghost predicate Consistent(d: Db) {
    d.nodes != [] && DistinctIds(d.nodes) && d.online == IdsOf(d.nodes)
  }

  function IndexOf(nodes: seq<Node>, id: Id): (i: nat)
    ensures i <= |nodes|
    ensures forall j | 0 <= j < i :: nodes[j].id != id
    ensures i < |nodes| ==> nodes[i].id == id
  {
    if nodes == [] || nodes[0].id == id then 0 else 1 + IndexOf(nodes[1..], id)
  }

  /** remove_id_from_db; the master's entry stays. */
  function Removed(d: Db, index: nat): Db {
    if |d.nodes| > 1 && 0 < index < |d.nodes| then
      Db(d.nodes[..index] + d.nodes[index + 1..], d.online - {d.nodes[index].id}, d.occupy - {d.nodes[index].id})
    else d
  }

  /** check_id_in_database. */
  function Checked(d: Db, node: Node, plugAndPlay: bool): Db {
    if node.id in d.online then
      var i := IndexOf(d.nodes, node.id);
      if i < |d.nodes| && d.nodes[i].sn != node.sn then
        if plugAndPlay then d.(occupy := d.occupy + {node.id}) else Removed(d, i)
      else d
    else Db(d.nodes + [node], d.online + {node.id}, d.occupy - {node.id})
  }

  /** What bin_search does on finding several nodes with one identifier. */
  function Conflicting(d: Db, id: Id, plugAndPlay: bool): Db {
    var d1 := d.(occupy := d.occupy + {id});
    if id in d.online && !plugAndPlay then Removed(d1, IndexOf(d.nodes, id)) else d1
  }

  /** The entry that dealwith_conflict_id makes for a node that got a new identifier. */
  function Assigned(d: Db, node: Node): Db {
    d.(nodes := d.nodes + [node], online := d.online + {node.id})
  }

  /** modify_master_id_in_database. */
  function MasterChanged(d: Db, oldId: Id, newId: Id): Db
    requires d.nodes != []
  {
    d.(nodes := d.nodes[0 := Node(newId, d.nodes[0].sn)], online := d.online - {oldId} + {newId})
  }

  // ----- the database stays consistent -----------------------------------------------------------------

  lemma RemovedKeeps(d: Db, index: nat)
    requires Consistent(d)
    ensures Consistent(Removed(d, index))
  {
    if |d.nodes| > 1 && 0 < index < |d.nodes| {
      hide IdsOf;
      var r := Removed(d, index);
      assert forall i | 0 <= i < |r.nodes| :: r.nodes[i] == d.nodes[if i < index then i else i + 1];
      OthersStay(d.nodes, index);
      NoneIsNew(d.nodes, index);
    }
  }

  /** Who is left when an entry is taken out of a table. */
  lemma OthersStay(nodes: seq<Node>, index: nat)
    requires index < |nodes|
    ensures IdsOf(nodes) - {nodes[index].id} <= IdsOf(nodes[..index] + nodes[index + 1..])
  {
    var r := nodes[..index] + nodes[index + 1..];
    forall id | id in IdsOf(nodes) && id != nodes[index].id
      ensures id in IdsOf(r)
    {
      var i :| 0 <= i < |nodes| && nodes[i].id == id;
      assert r[if i < index then i else i - 1] == nodes[i];
    }
  }

  lemma NoneIsNew(nodes: seq<Node>, index: nat)
    requires index < |nodes| && DistinctIds(nodes)
    ensures IdsOf(nodes[..index] + nodes[index + 1..]) <= IdsOf(nodes) - {nodes[index].id}
  {
    var r := nodes[..index] + nodes[index + 1..];
    forall id | id in IdsOf(r)
      ensures id in IdsOf(nodes) && id != nodes[index].id
    {
      var i :| 0 <= i < |r| && r[i].id == id;
      assert nodes[if i < index then i else i + 1] == r[i];
    }
  }

  lemma AppendKeeps(d: Db, node: Node)
    requires Consistent(d) && node.id !in d.online
    ensures Consistent(Assigned(d, node))
  {
    var r := d.nodes + [node];
    forall id
      ensures id in IdsOf(r) <==> id in d.online || id == node.id
    {
      if id in d.online {
        var i :| 0 <= i < |d.nodes| && d.nodes[i].id == id;
        assert r[i] == d.nodes[i];
      }
      assert r[|d.nodes|] == node;
    }
  }

  lemma CheckedKeeps(d: Db, node: Node, plugAndPlay: bool)
    requires Consistent(d)
    ensures Consistent(Checked(d, node, plugAndPlay))
  {
    hide Consistent;
    if node.id in d.online {
      RemovedKeeps(d, IndexOf(d.nodes, node.id));
      OccupyDoesNotMatter(d, d.occupy + {node.id});
    } else {
      AppendKeeps(d, node);
      OccupyDoesNotMatter(Assigned(d, node), d.occupy - {node.id});
    }
  }

  lemma OccupyDoesNotMatter(d: Db, occupy: set<Id>)
    requires Consistent(d)
    ensures Consistent(d.(occupy := occupy))
  {}

  lemma ConflictingKeeps(d: Db, id: Id, plugAndPlay: bool)
    requires Consistent(d)
    ensures Consistent(Conflicting(d, id, plugAndPlay))
  {
    OccupyDoesNotMatter(d, d.occupy + {id});
    RemovedKeeps(d.(occupy := d.occupy + {id}), IndexOf(d.nodes, id));
  }

  /** The entry of another node that an answer about this identifier removes: with plug and play none, and
      never the master's. */
  predicate IsEntryToGo(d: Db, x: Node, id: Id, plugAndPlay: bool)
    requires d.nodes != []
  {
    !plugAndPlay && x.id == id && x != d.nodes[0]
  }

  lemma RemovedExactly(d: Db, x: Node)
    requires Consistent(d) && x in d.nodes && x != d.nodes[0]
    ensures var r := Removed(d, IndexOf(d.nodes, x.id));
            && (forall y :: y in r.nodes <==> y in d.nodes && y.id != x.id)
            && r.online == d.online - {x.id} && r.occupy == d.occupy - {x.id}
  {
    hide IdsOf;
    var i := IndexOf(d.nodes, x.id);
    var j :| 0 <= j < |d.nodes| && d.nodes[j] == x;
    assert i == j > 0;
    EntriesWithout(d.nodes, i);
  }

  lemma EntriesWithout(nodes: seq<Node>, i: nat)
    requires i < |nodes| && DistinctIds(nodes)
    ensures forall y :: y in nodes[..i] + nodes[i + 1..] <==> y in nodes && y.id != nodes[i].id
  {
    var r := nodes[..i] + nodes[i + 1..];
    forall y | y in nodes && y.id != nodes[i].id
      ensures y in r
    {
      var k :| 0 <= k < |nodes| && nodes[k] == y;
      assert r[if k < i then k else k - 1] == y;
    }
    forall y | y in r
      ensures y in nodes && y.id != nodes[i].id
    {
      var k :| 0 <= k < |r| && r[k] == y;
      assert nodes[if k < i then k else k + 1] == y;
    }
  }

  lemma Known(d: Db, id: Id) returns (x: Node)
    requires Consistent(d) && id in d.online
    ensures x in d.nodes && x.id == id && IndexOf(d.nodes, id) < |d.nodes| && d.nodes[IndexOf(d.nodes, id)] == x
    ensures forall y | y in d.nodes && y.id == id :: y == x
    ensures IndexOf(d.nodes, id) == 0 <==> x == d.nodes[0]
  {
    var j :| 0 <= j < |d.nodes| && d.nodes[j].id == id;
    x := d.nodes[IndexOf(d.nodes, id)];
  }

  /** Who is in the table, and what is marked, after a node has been reported: an unknown one comes in,
      another one's entry goes unless there is plug and play, which marks the identifier instead. */
  lemma CheckedExactly(d: Db, node: Node, plugAndPlay: bool)
    requires Consistent(d)
    ensures var r := Checked(d, node, plugAndPlay);
            && (forall x :: x in r.nodes <==>
                  || (x in d.nodes && (x == node || !IsEntryToGo(d, x, node.id, plugAndPlay)))
                  || (x == node && node.id !in d.online))
            && (forall id | id != node.id :: id in r.occupy <==> id in d.occupy)
            && (node.id in r.occupy <==>
                  && node.id in d.online
                  && if node in d.nodes then node.id in d.occupy
                     else plugAndPlay || (node.id == d.nodes[0].id && node.id in d.occupy))
  {
    if node.id in d.online {
      var x := Known(d, node.id);
      if x != d.nodes[0] {
        RemovedExactly(d, x);
      }
    }
  }

  /** Likewise after several nodes have answered for one identifier. */
  lemma ConflictingExactly(d: Db, id: Id, plugAndPlay: bool)
    requires Consistent(d)
    ensures var r := Conflicting(d, id, plugAndPlay);
            && (forall x :: x in r.nodes <==> x in d.nodes && !IsEntryToGo(d, x, id, plugAndPlay))
            && (forall u | u != id :: u in r.occupy <==> u in d.occupy)
            && (id in r.occupy <==> plugAndPlay || id !in d.online || id == d.nodes[0].id)
  {
    if id in d.online {
      var x := Known(d, id);
      if x != d.nodes[0] {
        RemovedExactly(d.(occupy := d.occupy + {id}), x);
      }
    }
  }

  /** Changing the master's identifier keeps the database consistent exactly when no other entry has
      the new one. */
  lemma MasterChangedKeepsExactly(d: Db, newId: Id)
    requires Consistent(d)
    ensures Consistent(MasterChanged(d, d.nodes[0].id, newId)) <==> newId !in IdsOf(d.nodes[1..])
  {
    hide IdsOf;
    var r := MasterChanged(d, d.nodes[0].id, newId);
    if newId !in IdsOf(d.nodes[1..]) {
      assert forall i | 0 < i < |r.nodes| :: r.nodes[i] == d.nodes[i] == d.nodes[1..][i - 1];
      forall id
        ensures id in IdsOf(r.nodes) <==> id in r.online
      {
        if id in IdsOf(r.nodes) {
          var i :| 0 <= i < |r.nodes| && r.nodes[i].id == id;
        }
        if id in r.online {
          if id == newId {
            assert r.nodes[0].id == id;
          } else {
            var i :| 0 <= i < |d.nodes| && d.nodes[i].id == id;
            assert r.nodes[i].id == id;
          }
        }
      }
    } else {
      var i :| 0 <= i < |d.nodes[1..]| && d.nodes[1..][i].id == newId;
      assert r.nodes[0].id == r.nodes[i + 1].id;
    }
  }

  /** A consistent table has as many entries as there are identifiers online: it fits into scan_db
      exactly when at most MAX_ID identifiers are known. */
  lemma {:induction false} TableSize(nodes: seq<Node>)
    requires DistinctIds(nodes)
    ensures |IdsOf(nodes)| == |nodes|
  {
    if nodes != [] {
      var last := nodes[|nodes| - 1];
      var rest := nodes[..|nodes| - 1];
      TableSize(rest);
      assert IdsOf(nodes) == IdsOf(rest) + {last.id} by {
        assert forall x :: x in nodes <==> x in rest || x == last by {
          assert nodes == rest + [last];
        }
      }
      assert last.id !in IdsOf(rest);
    }
  }
}
