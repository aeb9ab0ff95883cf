/** The run registry, between two calls, is a serving host of the lock protocol. */
module RegistryCoordination {
  import opened Faults
  import opened RunLedger
  import opened RegistrySpec
  import opened RegistryInvariant
  import opened RegistryRuns
  import HostCoordination

  function Ids(runs: seq<Run>): set<Id> {
    set i | 0 <= i < |runs| :: runs[i].id
  }

  /** A ledger reduced to which runs it records as settled. */
  function View(runs: seq<Run>): map<Id, bool> {
    map id | id in Ids(runs) :: runs[Position(runs, id)].Settled()
  }

  function HostView(r: Registry): HostCoordination.Host {
    var reserved := set i | 0 <= i < |r.pending| :: r.pending[i].id;
    var owned := set id | id in r.active && r.active[id].runUse;
    HostCoordination.Serving(View(r.runs), reserved, owned, HostCoordination.Idle)
  }

  /** Runs that this host does not own and that only memory takes for unsettled. */
  function Slipped(r: Registry): set<Id> {
    set id | id in Ids(r.runs) && id !in r.active && !View(r.runs)[id]
             && !(id in View(r.disk.ledger.runs) && !View(r.disk.ledger.runs)[id])
  }

  lemma ViewAt(runs: seq<Run>, i: nat)
    requires i < |runs| && DistinctRuns(runs)
    ensures runs[i].id in View(runs) && View(runs)[runs[i].id] == runs[i].Settled()
  {
    UniquePosition(runs, i);
  }

  /**
   With its tickets and held runs as the shared holders of the lock, the registry meets
   every obligation of a serving host, whatever happened to it before.
   */
  lemma RegistryIsServingHost(r: Registry, pid: nat)
    requires Inv(r)
    ensures var h := HostView(r);
            var holders := set id | id in h.reserved + h.owned :: HostCoordination.RunUse(pid, id);
            HostCoordination.HostFits(h, pid, HostCoordination.Lock(None, holders), View(r.disk.ledger.runs), Slipped(r))
  {
    var h := HostView(r);
    var disk := View(r.disk.ledger.runs);
    assert Holding(r) && PendingApart(r) && DiskKnows(r, r.disk.ledger);
    forall id | id in h.reserved || id in h.owned
      ensures id in h.owned ==> id in h.memory && id !in h.reserved && id !in Slipped(r)
      ensures id in h.reserved ==> id !in Slipped(r) && id !in h.memory
    {
      PendingIsNew(r, id);
      if id in h.owned {
        assert Has(r.runs, id);
        ViewAt(r.runs, Position(r.runs, id));
      }
    }
    forall id | id in h.memory && !h.memory[id] && id !in Slipped(r)
      ensures id in disk && !disk[id]
    {
      if id in r.active {
        OwnedUnsettledOnDisk(r, id);
      }
    }
  }

  lemma PendingIsNew(r: Registry, id: Id)
    requires PendingApart(r)
    ensures id in HostView(r).reserved ==> id !in Ids(r.runs)
  {
    if id in HostView(r).reserved {
      var k :| 0 <= k < |r.pending| && r.pending[k].id == id;
      assert !Has(r.runs, r.pending[k].id);
    }
  }

  lemma OwnedUnsettledOnDisk(r: Registry, id: Id)
    requires DistinctRuns(r.runs) && DistinctRuns(r.disk.ledger.runs) && DiskKnows(r, r.disk.ledger)
    requires id in r.active && id in View(r.runs) && !View(r.runs)[id]
    ensures id in View(r.disk.ledger.runs) && !View(r.disk.ledger.runs)[id]
  {
    var i := Position(r.runs, id);
    assert r.runs[i].id == id && !r.runs[i].Settled();
    var l := r.disk.ledger;
    var j :| 0 <= j < |l.runs| && l.runs[j].id == r.runs[i].id && !l.runs[j].Settled();
    ViewAt(l.runs, j);
  }
}
