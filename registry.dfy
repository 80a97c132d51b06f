/**
 * The swarm API's registry of running agents: a table from agent id to a
 * shared agent record. Records are handed out by reference, so marking one
 * terminated is seen by every holder. Creation and termination timestamps
 * are not modelled.
 */
module Registry {
  import opened Wrappers

  datatype AgentStatus = Running | Terminated

  /** `models.Agent`: its id never changes, its status does. */
  class AgentRecord {
    const id: int
    var status: AgentStatus

    constructor (id: int)
      ensures this.id == id && status == Running
    {
      this.id := id;
      status := Running;
    }
  }

  /** Gives a later `:|` on a non-empty set an existential to draw from. */
  lemma NonEmptyHasMember(s: set<int>)
    requires s != {}
    ensures exists x :: x in s
  {
    if forall x :: x !in s {
      assert false;
    }
  }

  datatype RegistryError = AlreadyExists(id: int) | NotFound(id: int)

  class AgentRegistry {
    var table: map<int, AgentRecord>

    /** Every record is stored under its own id, so no two ids share a record. */
    predicate Valid()
      reads this
    {
      forall id :: id in table ==> table[id].id == id
    }

    lemma RecordsDistinct(i: int, j: int)
      requires Valid() && i in table && j in table && i != j
      ensures table[i] != table[j]
    {
    }

    constructor ()
      ensures Valid() && table == map[]
    {
      table := map[];
    }

    /** `GetAgent`: the stored record, or nil. */
    function GetAgent(id: int): (r: Option<AgentRecord>)
      reads this
      ensures r.None? <==> id !in table
      ensures r.Some? ==> r.value == table[id]
    {
      if id in table then Some(table[id]) else None
    }

    /** `NewAgent`: an existing id is an error and changes nothing; a fresh id gets a new running agent. */
    method NewAgent(id: int) returns (r: Result<AgentRecord, RegistryError>)
      requires Valid()
      modifies this
      ensures Valid()
      ensures id in old(table) ==> r == Err(AlreadyExists(id)) && table == old(table)
      ensures id !in old(table) ==>
        && r.Ok? && fresh(r.value) && r.value.id == id && r.value.status == Running
        && table == old(table)[id := r.value]
        && GetAgent(id) == Some(r.value)
    {
      if id in table {
        return Err(AlreadyExists(id));
      }
      var agent := new AgentRecord(id);
      table := table[id := agent];
      r := Ok(agent);
    }

    /** `ListAgents`: every registered record once, in the table's (unspecified) iteration order. */
    method ListAgents() returns (r: seq<AgentRecord>)
      requires Valid()
      ensures |r| == |table|
      ensures forall i :: 0 <= i < |r| ==> r[i].id in table && table[r[i].id] == r[i]
      ensures forall id :: id in table ==> table[id] in r
      ensures forall i, j :: 0 <= i < j < |r| ==> r[i] != r[j]
    {
      r := [];
      var remaining := table.Keys;
      ghost var listed: set<int> := {};
      while remaining != {}
        invariant remaining + listed == table.Keys && remaining !! listed
        invariant |r| == |listed|
        invariant forall i :: 0 <= i < |r| ==> r[i].id in listed && table[r[i].id] == r[i]
        invariant forall id :: id in listed ==> table[id] in r
        invariant forall i, j :: 0 <= i < j < |r| ==> r[i] != r[j]
        decreases |remaining|
      {
        NonEmptyHasMember(remaining);
        var id :| id in remaining;
        assert |listed + {id}| == |listed| + 1;
        r := r + [table[id]];
        remaining := remaining - {id};
        listed := listed + {id};
      }
      assert listed == table.Keys;
    }

    /** `SetTerminated`: marks the record terminated if there is one; everything else stays as it was. */
    method SetTerminated(id: int)
      requires Valid()
      modifies table.Values
      ensures Valid() && table == old(table)
      ensures id in table ==> table[id].status == Terminated
      ensures forall other :: other in table && other != id ==> table[other].status == old(table[other].status)
    {
      var agent := GetAgent(id);
      if agent.None? {
        return;
      }
      agent.value.status := Terminated;
    }

    /** `DeleteAgent`: an absent id is an error; otherwise the id is removed and nothing else changes. */
    method DeleteAgent(id: int) returns (err: Option<RegistryError>)
      requires Valid()
      modifies this
      ensures Valid()
      ensures id !in old(table) ==> err == Some(NotFound(id)) && table == old(table)
      ensures id in old(table) ==>
        && err.None? && table == old(table) - {id}
        && GetAgent(id).None?
        && forall other :: other in old(table) && other != id ==> GetAgent(other) == Some(old(table)[other])
    {
      if id !in table {
        return Some(NotFound(id));
      }
      table := table - {id};
      err := None;
    }
  }
}
