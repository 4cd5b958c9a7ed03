/** The ledger store and the two commands that book an instance outright, provision and deploy. */
module Provision {
  import opened Wrappers
  import opened IndexStore
  import opened ProvisionLedger
  import opened Runs
  import opened Filters
  import opened DoubleBooking

  class Ledger {
    var entries: seq<Entry>
    var writes: nat
    const fate: nat -> Fate

    constructor (entries: seq<Entry>, fate: nat -> Fate)
      ensures this.entries == entries && this.fate == fate && writes == 0
    {
      this.entries := entries;
      this.fate := fate;
      this.writes := 0;
    }

    ghost predicate Healthy() {
      forall n: nat :: fate(n) == Done
    }

    method Write(entries': seq<Entry>) returns (raised: bool)
      modifies this
      ensures entries == entries' || (raised && entries == old(entries))
      ensures !raised ==> entries == entries'
      ensures Healthy() ==> !raised
    {
      var (now, failed) := Written(fate(writes), entries, entries');
      writes, entries, raised := writes + 1, now, failed;
    }

    method Record(e: Entry) returns (raised: bool)
      modifies this
      ensures entries == old(entries) + [e] || (raised && entries == old(entries))
      ensures !raised ==> entries == old(entries) + [e]
      ensures Healthy() ==> !raised
    {
      raised := Write(entries + [e]);
    }

    /** Every row with that id. */
    method Forget(id: Id) returns (raised: bool)
      modifies this
      ensures entries == Kept(old(entries), WithId(id)) || (raised && entries == old(entries))
      ensures !raised ==> entries == Kept(old(entries), WithId(id))
      ensures Healthy() ==> !raised
    {
      var kept := Keep(entries, WithId(id));
      raised := false;
      if |kept| != |entries| {
        raised := Write(kept);
      } else {
        NothingDropped(entries, WithId(id));
      }
    }

    /** Only launching rows; with a real id given, only if that id has a real row. */
    method ForgetProvisional(id: Id, realId: Option<Id>) returns (removed: bool, raised: bool)
      modifies this
      ensures realId.Some? && !HasReal(old(entries), realId.value) ==> entries == old(entries)
      ensures entries == Kept(old(entries), Launching(id)) || entries == old(entries)
      ensures Healthy() ==> !raised
      ensures Healthy() && (realId.Some? ==> HasReal(old(entries), realId.value)) ==> entries == Kept(old(entries), Launching(id))
    {
      removed, raised := false, false;
      if realId.Some? && !HasReal(entries, realId.value) {
        return;
      }
      var kept := Keep(entries, Launching(id));
      if |kept| == |entries| {
        NothingDropped(entries, Launching(id));
        return;
      }
      raised := Write(kept);
      removed := !raised;
    }
  }

  datatype Exit = Booked | Refused | EmptyId | Raised

  class Booker {
    const ledger: Ledger
    ghost var name: Id
    ghost var pod: Pod
    ghost var trace: seq<World>

    constructor (ledger: Ledger)
      ensures this.ledger == ledger && pod == Unbooked
    {
      this.ledger := ledger;
      this.pod := Unbooked;
    }

    ghost function Now(): World
      reads this, ledger
    {
      World(name, ledger.entries, pod)
    }

    ghost predicate Tracing()
      reads this, ledger
    {
      IsRun(trace) && trace[|trace| - 1] == Now()
    }

    ghost method Snap()
      modifies this`trace
      ensures trace == old(trace) + [Now()]
      ensures IsRun(old(trace)) && Step(old(trace)[|old(trace)| - 1], Now()) ==> Tracing()
    {
      var w := Now();
      if IsRun(trace) && Step(trace[|trace| - 1], w) {
        PathSnoc(Step, trace, w);
      }
      trace := trace + [w];
    }

    /** The row before the create; None when it could not be written. */
    method RecordProvisional(runId: Id) returns (row: Option<Id>)
      requires pod == Unbooked
      modifies this`trace, this`name, ledger
      ensures row.Some? ==> row.value == runId == name && runId != "" && Tracing() && HasLaunching(ledger.entries, name)
      ensures NoNewKeys(old(ledger.entries), ledger.entries)
      ensures ledger.Healthy() ==> ledger.entries == Reserved(old(ledger.entries), runId) && (row.Some? <==> runId != "")
    {
      row := None;
      LaunchingNoNewKeys(ledger.entries, runId);
      if runId != "" {
        var raised := ledger.Record(Entry(runId, true, None));
        if !raised {
          name := runId;
          trace := [Now()];
          assert ledger.entries[|ledger.entries| - 1] == Entry(runId, true, None);
          row := Some(runId);
        }
      }
    }

    method ForgetProvisionalRow(row: Option<Id>)
      modifies this`trace, ledger
      ensures row.Some? && old(Tracing()) && row.value == name && pod.Unbooked? ==> Tracing()
      ensures NoNewKeys(old(ledger.entries), ledger.entries)
      ensures ledger.Healthy() ==>
        ledger.entries == if row.Some? then Kept(old(ledger.entries), Launching(row.value)) else old(ledger.entries)
    {
      if row.Some? {
        KeptNoNewKeys(ledger.entries, Launching(row.value));
        var _, _ := ledger.ForgetProvisional(row.value, None);
        Snap();
      }
    }

    /** Best effort: a failure leaves the launching row to the reconciler. */
    method RecordReal(e: Entry)
      modifies this`trace, ledger
      ensures old(Tracing()) ==> Tracing()
      ensures ledger.entries == old(ledger.entries) + [e] || ledger.entries == old(ledger.entries)
      ensures ledger.Healthy() ==> ledger.entries == old(ledger.entries) + [e]
    {
      var _ := ledger.Record(e);
      assert ledger.entries != old(ledger.entries) ==> ledger.entries[|ledger.entries| - 1] == e;
      Snap();
    }

    method Collapse(row: Option<Id>, id: Id)
      modifies this`trace, ledger
      ensures row.Some? && old(Tracing()) && row.value == name && pod == Alive(id) && id != "" ==> Tracing()
      ensures ledger.entries == old(ledger.entries) || (row.Some? && ledger.entries == Kept(old(ledger.entries), Launching(row.value)))
      ensures ledger.Healthy() && HasReal(old(ledger.entries), id) ==>
        ledger.entries == if row.Some? then Collapsed(old(ledger.entries), row.value) else old(ledger.entries)
    {
      if row.Some? && row.value != "" {
        var _, _ := ledger.ForgetProvisional(row.value, Some(id));
        Snap();
      }
    }

    /** After the create: an error tears the instance down if it can, and is raised. */
    method Finish(after: After) returns (exit: Exit)
      requires pod.Alive?
      modifies this`trace, this`pod
      ensures old(Tracing()) ==> Tracing()
      ensures exit == if after.Ready? then Booked else Raised
      ensures pod == if after.FailsDestroyed? then Gone(old(pod).id) else old(pod)
    {
      match after
      case Ready => exit := Booked;
      case FailsDestroyed =>
        pod := Gone(pod.id);
        Snap();
        exit := Raised;
      case FailsLeft => exit := Raised;
    }

    /** Up to the create; Some when it returned an instance. */
    method Book(runId: Id, create: Create) returns (row: Option<Id>, made: bool)
      requires pod == Unbooked
      modifies this`trace, this`name, this`pod, ledger
      ensures row.Some? ==> Tracing() && row.value == name && row.value != ""
      ensures made <==> create.Returns?
      ensures made ==> pod == Alive(create.id)
      ensures create.NothingBooked? ==> pod.Unbooked?
      ensures create.Raises? ==> pod.Booking?
      ensures ledger.Healthy() ==> row == if runId == "" then None else Some(runId)
      ensures ledger.Healthy() ==>
        var es := Reserved(old(ledger.entries), runId);
        ledger.entries == if create.NothingBooked? then Collapsed(es, runId) else es
      ensures NoNewKeys(old(ledger.entries), ledger.entries)
    {
      hide OnePerKey, IsRun;
      row := RecordProvisional(runId);
      pod := Booking;
      Snap();
      made := false;
      match create
      case NothingBooked =>
        pod := Unbooked;
        Snap();
        ForgetProvisionalRow(row);
      case Raises =>
      case Returns(id, tagged) =>
        pod := Alive(id);
        Snap();
        made := true;
    }

    /** The real row, then the collapse. */
    method RecordAndCollapse(row: Option<Id>, id: Id, key: Option<string>)
      modifies this`trace, ledger
      ensures row.Some? && old(Tracing()) && row.value == name && pod == Alive(id) && id != "" ==> Tracing()
      ensures OnePerKey(old(ledger.entries)) && (key.Some? ==> FindKey(old(ledger.entries), key.value).None?) ==> OnePerKey(ledger.entries)
      ensures ledger.Healthy() ==>
        var es := old(ledger.entries) + [Entry(id, false, key)];
        ledger.entries == if row.Some? then Collapsed(es, row.value) else es
    {
      ghost var m := ledger.entries;
      var e := Entry(id, false, key);
      RecordReal(e);
      ghost var before := ledger.entries;
      if OnePerKey(m) && (key.Some? ==> FindKey(m, key.value).None?) {
        AppendOnePerKey(m, e);
      }
      if before == m + [e] {
        assert e == before[|m|] && e in before;
      }
      Collapse(row, id);
      if OnePerKey(before) && row.Some? {
        KeptOnePerKey(before, Launching(row.value));
      }
    }

    /** A recorded row of the key, unless the provider says that its instance is gone and the row can be forgotten. */
    method RefusedBy(key: string, isGone: Id -> bool, ghost c: Call) returns (refused: bool)
      requires c.ProvisionCall? && c.key == key && c.isGone == isGone
      modifies ledger
      ensures OnePerKey(old(ledger.entries)) ==> OnePerKey(ledger.entries) && (!refused ==> FindKey(ledger.entries, key).None?)
      ensures ledger.Healthy() ==> (refused <==> !Goes(old(ledger.entries), c))
      ensures ledger.Healthy() ==> ledger.entries == if refused then old(ledger.entries) else Opened(old(ledger.entries), c)
    {
      hide OnePerKey;
      var already := FindKey(ledger.entries, key);
      if already.None? {
        return false;
      }
      if already.value.id == "" || !isGone(already.value.id) {
        return true;
      }
      if OnePerKey(ledger.entries) {
        KeptOnePerKey(ledger.entries, WithId(already.value.id));
        ForgottenKey(ledger.entries, key);
      }
      refused := ledger.Forget(already.value.id);
    }

    /** The real row comes before anything that can fail. */
    method BookProvision(key: string, runId: Id, create: Create, after: After, ghost c: Call) returns (exit: Exit, row: Option<Id>)
      requires pod == Unbooked
      requires c.ProvisionCall? && c.key == key && c.runId == runId && c.create == create && c.after == after
      modifies this`trace, this`name, this`pod, ledger
      ensures row.Some? ==> Tracing() && AllHandled(trace)
      ensures OnePerKey(old(ledger.entries)) && FindKey(old(ledger.entries), key).None? ==> OnePerKey(ledger.entries)
      ensures exit != Refused
      ensures ledger.Healthy() ==> ledger.entries == BookedOn(old(ledger.entries), c) && pod == PodOf(c)
    {
      hide IsRun, OnePerKey, AllHandled, FindKey, Reserved, Kept;
      var made;
      row, made := Book(runId, create);
      if FindKey(old(ledger.entries), key).None? {
        KeyStaysFree(old(ledger.entries), ledger.entries, key);
      }
      if !made {
        exit := Raised;
      } else if create.id == "" {
        exit := EmptyId;
      } else {
        RecordAndCollapse(row, create.id, if create.tagged then Some(key) else None);
        exit := Finish(after);
      }
      if row.Some? {
        RunsKeepHandle(trace);
      }
    }

    /** kinoforge provision. */
    method ProvisionCommand(key: string, runId: Id, readable: bool, isGone: Id -> bool, create: Create, after: After) returns (exit: Exit, row: Option<Id>)
      requires pod == Unbooked
      modifies this`trace, this`name, this`pod, ledger
      ensures row.Some? ==> Tracing() && AllHandled(trace)
      ensures readable && OnePerKey(old(ledger.entries)) ==> OnePerKey(ledger.entries)
      ensures readable && ledger.Healthy() ==>
        var c := ProvisionCall(key, runId, isGone, create, after);
        && ledger.entries == EntriesAfter(old(ledger.entries), c)
        && pod == PodAfter(old(ledger.entries), c)
        && (exit == Refused <==> !Goes(old(ledger.entries), c))
      ensures readable && ledger.Healthy() ==>
        (exit == Refused <==>
           var row := FindKey(old(ledger.entries), key);
           row.Some? && (row.value.id == "" || !isGone(row.value.id)))
    {
      hide IsRun, OnePerKey, AllHandled, BookedOn, PodOf, Opened;
      ghost var c := ProvisionCall(key, runId, isGone, create, after);
      if readable {
        var refused := RefusedBy(key, isGone, c);
        if refused {
          return Refused, None;
        }
      }
      exit, row := BookProvision(key, runId, create, after, c);
    }

    /**
     kinoforge deploy.  Ready comes before the real row, and an empty id is not looked at: with one,
     the collapse gives up the only usable handle.
     */
    method DeployCommand(key: string, runId: Id, create: Create, after: After) returns (exit: Exit, row: Option<Id>)
      requires pod == Unbooked
      modifies this`trace, this`name, this`pod, ledger
      ensures row.Some? && !(create.Returns? && create.id == "" && after.Ready?) ==>
        Tracing() && AllHandled(trace)
      ensures row.Some? && ledger.Healthy() && create.Returns? && create.id == "" && after.Ready? ==> !HasHandle(Now())
      ensures OnePerKey(old(ledger.entries)) ==> OnePerKey(ledger.entries)
      ensures ledger.Healthy() ==>
        var c := DeployCall(key, runId, create, after);
        && ledger.entries == EntriesAfter(old(ledger.entries), c)
        && pod == PodAfter(old(ledger.entries), c)
        && (exit == Refused <==> !Goes(old(ledger.entries), c))
      ensures ledger.Healthy() ==> (exit == Refused <==> FindKey(old(ledger.entries), key).Some?)
    {
      hide IsRun, OnePerKey, AllHandled, Reserved, Kept;
      var already := FindKey(ledger.entries, key);
      if already.Some? {
        return Refused, None;
      }
      var made;
      ghost var unbooked := ledger.entries;
      row, made := Book(runId, create);
      if FindKey(unbooked, key).None? {
        KeyStaysFree(unbooked, ledger.entries, key);
      }
      if !made {
        exit := Raised;
      } else {
        exit := Finish(after);
        if after.Ready? {
          RecordAndCollapse(row, create.id, if create.tagged then Some(key) else None);
        }
      }
      if row.Some? && !(create.Returns? && create.id == "" && after.Ready?) {
        RunsKeepHandle(trace);
      }
    }
  }

  // ---------------------------------------------------------------- sequences of calls

  /**
   Calls one after the other, the ledger readable: never two rows for one key, whatever writes fail.
   When none fails the rows and the pods that may be alive are those of the fleet.
   */
  method RunCalls(ledger: Ledger, calls: seq<Call>) returns (ghost up: seq<Held>)
    requires OnePerKey(ledger.entries)
    modifies ledger
    ensures OnePerKey(ledger.entries)
    ensures ledger.Healthy() ==> Fleet(ledger.entries, up) == AllApplied(Fleet(old(ledger.entries), []), CalledAll(calls))
  {
    hide OnePerKey, EntriesAfter, PodAfter, Goes, Joined;
    up := [];
    for i := 0 to |calls|
      invariant OnePerKey(ledger.entries)
      invariant ledger.Healthy() ==> Fleet(ledger.entries, up) == AllApplied(Fleet(old(ledger.entries), []), CalledAll(calls[..i]))
    {
      var booker := new Booker(ledger);
      match calls[i] {
        case ProvisionCall(key, runId, isGone, create, after) =>
          var _, _ := booker.ProvisionCommand(key, runId, true, isGone, create, after);
        case DeployCall(key, runId, create, after) =>
          var _, _ := booker.DeployCommand(key, runId, create, after);
      }
      up := Joined(up, calls[i].key, booker.pod);
      assert CalledAll(calls[..i + 1])[..i] == CalledAll(calls[..i]);
    }
    assert calls[..|calls|] == calls;
  }
}
