/**
 A batch is handed no instance back: it looks for the pod its run created among the ledger entries
 that were not there before.
 */
module BatchRecovery {
  import opened Wrappers
  import opened IndexStore
  import opened LaunchProtocol

  /** One ledger entry; launching marks the provisional row written before the create. */
  datatype Entry = Entry(inst: Instance, launching: bool)

  function Ids(entries: seq<Entry>): set<Id> {
    set e | e in entries :: e.inst.id
  }

  predicate Eligible(e: Entry, before: set<Id>) {
    e.inst.id != "" && e.inst.id !in before && !e.launching
  }

  /** The first eligible entry. */
  function Recovered(entries: seq<Entry>, before: set<Id>): (r: Option<Instance>)
    ensures r.Some? ==> exists e :: e in entries && Eligible(e, before) && e.inst == r.value
    ensures r.None? ==> forall e :: e in entries ==> !Eligible(e, before)
  {
    if entries == [] then None
    else if Eligible(entries[0], before) then Some(entries[0].inst)
    else
      var r := Recovered(entries[1..], before);
      assert entries == [entries[0]] + entries[1..];
      r
  }

  method Recover(entries: seq<Entry>, before: set<Id>) returns (r: Option<Instance>)
    ensures r == Recovered(entries, before)
    ensures r.None? ==> forall e :: e in entries ==> e.inst.id == "" || e.inst.id in before || e.launching
    ensures r.Some? ==>
      exists k :: 0 <= k < |entries| && Some(entries[k].inst) == r
                  && entries[k].inst.id != "" && entries[k].inst.id !in before && !entries[k].launching
                  && forall j :: 0 <= j < k ==> entries[j].inst.id == "" || entries[j].inst.id in before || entries[j].launching
  {
    for i := 0 to |entries|
      invariant Recovered(entries, before) == Recovered(entries[i..], before)
      invariant forall j :: 0 <= j < i ==> entries[j].inst.id == "" || entries[j].inst.id in before || entries[j].launching
    {
      var e := entries[i];
      if e.inst.id == "" || e.inst.id in before {
        continue;
      }
      if e.launching {
        continue;
      }
      return Some(e.inst);
    }
    return None;
  }

  /**
   What one run does to the ledger: a provisional row, the real row unless recording it failed, the
   provisional row collapsed or not, and the real row forgotten after a destroy that went through.
   */
  function LedgerAfter(entries: seq<Entry>, provisional: Instance, o: Outcome, recorded: bool, collapsed: bool): seq<Entry> {
    match o
    case NoCompute => entries
    case NothingBooked => entries
    case CreateRaises => entries + [Entry(provisional, true)]
    case Ran(inst, teardown, raises) =>
      entries
      + (if recorded && collapsed then [] else [Entry(provisional, true)])
      + (if recorded && teardown != Confirmed then [Entry(inst, false)] else [])
  }

  /** The real row of this run is there to be found. */
  predicate Findable(entries: seq<Entry>, o: Outcome, recorded: bool) {
    o.Ran? && o.teardown != Confirmed && recorded && o.inst.id != "" && o.inst.id !in Ids(entries)
  }

  /** Recovery returns the run's own pod if its row is still recorded, and otherwise nothing: never another pod, never the provisional row. */
  lemma RecoversOwnPod(entries: seq<Entry>, provisional: Instance, o: Outcome, recorded: bool, collapsed: bool)
    ensures Recovered(LedgerAfter(entries, provisional, o, recorded, collapsed), Ids(entries))
            == if Findable(entries, o, recorded) then Some(o.inst) else None
  {
    var after := LedgerAfter(entries, provisional, o, recorded, collapsed);
    assert forall e :: e in after ==> e in entries || e == Entry(provisional, true) || (o.Ran? && e == Entry(o.inst, false));
    assert forall e :: e in entries ==> e.inst.id in Ids(entries);
    if Findable(entries, o, recorded) {
      assert Entry(o.inst, false) in after;
    }
  }
}
