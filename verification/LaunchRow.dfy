/**
 The launch row of an ephemeral command, written around one orchestrator call: reserve, upgrade when
 the instance exists, settle.  Every method records the worlds it passes through; the contracts say
 that they form a run of LaunchProtocol, whatever writes fail, and what the index holds at the end
 when none does.
 */
module LaunchRow {
  import opened Wrappers
  import opened IndexStore
  import opened LaunchProtocol
  import opened Runs
  import opened BatchRecovery

  class LaunchRow {
    const id: Id
    const stamp: string
    var upgradedId: Option<Id>

    constructor (id: Id, stamp: string)
      ensures this.id == id && this.stamp == stamp && upgradedId == None
    {
      this.id := id;
      this.stamp := stamp;
      this.upgradedId := None;
    }
  }

  /** The ephemeral session: strict when it suppresses ledger writes; aliases when resources are named by run id. */
  class Session {
    const strict: bool
    const aliases: bool
    var unconfirmed: set<Id>

    method MarkDestroyUnconfirmed(id: Id)
      modifies this
      ensures unconfirmed == old(unconfirmed) + {id}
    {
      unconfirmed := unconfirmed + {id};
    }

    /** The provider-side name of a launch; token is the random part minted for the run id. */
    function ResourceName(runId: string, provider: string, token: string): (name: Id)
      ensures runId != "" ==> name != ""
      ensures aliases ==> name == runId
      ensures !aliases ==> (if provider == "modal" then "eph-" else "kinoforge-") <= name && |token| <= |name| && name[|name| - |token|..] == token
    {
      if aliases then runId else (if provider == "modal" then "eph-" else "kinoforge-") + token
    }

    /** No news of a failed destroy counts as a confirmed one. */
    predicate DestroyWasConfirmed(id: Id)
      reads this
    {
      id !in unconfirmed
    }
  }

  function Moved(m: Rows, id: Id, row: Row, supersedes: Option<Id>): Rows {
    if supersedes.Some? && supersedes.value != id then m[id := row] - {supersedes.value} else m[id := row]
  }

  /** id is the pod's, and unless the pod is gone a row under it names the pod. */
  predicate Nameable(p: Pod, id: Id) {
    HasId(p) && p.id == id && (p.Alive? ==> id != "")
  }

  class Command {
    const index: EphemeralIndex
    const session: Session
    const cfg: Config
    ghost var name: Id
    ghost var stamp: string
    ghost var pod: Pod
    /** The worlds since the reservation. */
    ghost var trace: seq<World>

    constructor (index: EphemeralIndex, session: Session, cfg: Config)
      ensures this.index == index && this.session == session && this.cfg == cfg && pod == Unbooked
    {
      this.index := index;
      this.session := session;
      this.cfg := cfg;
      this.pod := Unbooked;
    }

    ghost function Now(): World
      reads this, index, session
    {
      World(name, stamp, index.Contents(), pod, session.unconfirmed)
    }

    /** The recorded worlds form a run that ends now. */
    ghost predicate Tracing()
      reads this, index, session
    {
      IsRun(trace) && trace[|trace| - 1] == Now()
    }

    /** The last recorded world is the present one. */
    ghost predicate Current()
      reads this, index, session
    {
      trace != [] && trace[|trace| - 1] == Now()
    }

    ghost method Snap()
      modifies this`trace
      ensures trace == old(trace) + [Now()]
      ensures IsRun(old(trace)) && Step(old(trace)[|old(trace)| - 1], Now()) ==> Tracing()
    {
      var w := Now();
      if IsRun(trace) && Step(trace[|trace| - 1], w) {
        PathSnoc(Step, trace, w);
      }
      trace := trace + [w];
    }

    /** Writes the row before anything is booked; None when nothing was written or the write failed. */
    method Reserve(runId: string, token: string, now: string) returns (launch: LaunchRow?)
      requires pod == Unbooked
      modifies this`trace, this`name, this`stamp, index
      ensures launch != null ==>
        (fresh(launch) && session.strict && launch.id == session.ResourceName(runId, cfg.provider, token) == name && name != ""
         && launch.stamp == now == stamp && launch.upgradedId == None && Tracing() && Current() && index.Contents() == old(index.Contents())[name := ReservedRow(cfg, stamp)])
      ensures launch != null ==>
        launch.id in index.Contents() && index.Contents()[launch.id] == Row(cfg.warmAttachKey, cfg.kinoforgeKey, map[], cfg.provider, now)
      ensures index.Healthy() ==> (launch != null <==> session.strict && cfg.compute && runId != "")
    {
      launch := null;
      if session.strict && cfg.compute && runId != "" {
        var rowId := session.ResourceName(runId, cfg.provider, token);
        var raised := index.Add(rowId, ReservedRow(cfg, now));
        if !raised {
          launch := new LaunchRow(rowId, now);
          name, stamp := rowId, now;
          trace := [Now()];
        }
      }
    }

    /** Drops one row; a failure is logged and left to the sweeper. */
    method Release(id: Option<Id>)
      modifies this`trace, index
      ensures old(trace) <= trace && (old(Current()) ==> Current())
      ensures old(Tracing()) && (id.Some? ==> MayDrop(old(Now()), id.value)) ==> Tracing()
      ensures index.Healthy() && id.Some? ==> index.Contents() == old(index.Contents()) - {id.value}
      ensures id.None? ==> index.Contents() == old(index.Contents())
      ensures id.Some? ==> index.Contents() == old(index.Contents()) || index.Contents() == old(index.Contents()) - {id.value}
    {
      if id.None? {
        return;
      }
      ghost var before := Now();
      var _ := index.Remove(id.value);
      assert Now() == before || Now() == before.(index := before.index - {id.value});
      if MayDrop(before, id.value) {
        assert Now() == before || Drops(before, Now(), id.value);
      }
      Snap();
    }

    /** The real row first, then the reserved one is dropped, unless they are the same row. */
    method IndexAdd(inst: Instance, stamp': string, supersedes: Option<Id>) returns (raised: bool)
      modifies this`trace, index
      ensures old(trace) <= trace && (old(Current()) ==> Current())
      ensures old(Tracing()) && Nameable(pod, inst.id) && stamp' == stamp ==> Tracing()
      ensures index.Healthy() ==>
        (!raised && index.Contents() == Moved(old(index.Contents()), inst.id, RealRow(cfg, inst, stamp'), supersedes))
      ensures index.Healthy() ==>
        inst.id in index.Contents()
        && index.Contents()[inst.id] == Row(cfg.warmAttachKey, cfg.kinoforgeKey, inst.endpoints, inst.provider, stamp')
        && (supersedes.Some? && supersedes.value != inst.id ==> supersedes.value !in index.Contents())
    {
      ghost var before := Now();
      raised := index.Add(inst.id, RealRow(cfg, inst, stamp'));
      if Nameable(pod, inst.id) && stamp' == stamp {
        assert Now() == before || Upgrades(before, Now());
      }
      Snap();
      if !raised && supersedes.Some? && supersedes.value != inst.id {
        Release(supersedes);
      }
    }

    /** The hook that runs as soon as the instance exists. */
    method Upgrade(launch: LaunchRow, inst: Instance) returns (raised: bool)
      modifies this`trace, index, launch`upgradedId
      ensures old(trace) <= trace && (old(Current()) ==> Current())
      ensures old(Tracing()) && Nameable(pod, inst.id) && launch.stamp == stamp ==> Tracing()
      ensures launch.upgradedId == old(launch.upgradedId) || launch.upgradedId == Some(inst.id)
      ensures index.Healthy() ==>
        (launch.upgradedId == Some(inst.id)
         && index.Contents() == Moved(old(index.Contents()), inst.id, RealRow(cfg, inst, launch.stamp), Some(launch.id)))
    {
      raised := IndexAdd(inst, launch.stamp, Some(launch.id));
      if !raised {
        launch.upgradedId := Some(inst.id);
      }
    }

    /** What the orchestrator returned is all there is: no instance and no pod, or an instance gone or marked. */
    ghost predicate Honest(returned: Option<Instance>)
      reads this, session
    {
      match returned
      case None => !MayLive(pod)
      case Some(inst) => Nameable(pod, inst.id) && (pod.Alive? ==> inst.id in session.unconfirmed)
    }

    /** The index once nothing is meant to survive: nothing of the launch is left, unless its destroy is in doubt. */
    ghost function AfterUnused(m: Rows, launch: LaunchRow, returned: Option<Instance>): Rows
      reads session, launch
    {
      if returned.Some? && returned.value.id in session.unconfirmed then AfterReuse(m, launch, returned.value)
      else m - {launch.id} - AsSet(launch.upgradedId) - (if returned.Some? then {returned.value.id} else {})
    }

    ghost function AfterReuse(m: Rows, launch: LaunchRow, inst: Instance): Rows {
      Moved(m, inst.id, RealRow(cfg, inst, launch.stamp), Some(launch.id))
    }

    /** Resolves the launch row where no pod is meant to survive. */
    method SettleUnused(launch: LaunchRow?, returned: Option<Instance>) returns (raised: bool)
      requires launch != null ==> session.strict
      modifies this`trace, index
      ensures old(trace) <= trace && (old(Current()) ==> Current())
      ensures launch != null && old(Tracing()) && launch.stamp == stamp && Honest(returned) ==> Tracing()
      ensures launch != null && index.Healthy() ==>
        (!raised && index.Contents() == AfterUnused(old(index.Contents()), launch, returned))
      ensures launch == null ==> !raised && index.Contents() == old(index.Contents())
    {
      hide IsRun, RealRow, Moved;
      raised := false;
      if launch == null {
        return;
      }
      if returned.Some? && session.strict && !session.DestroyWasConfirmed(returned.value.id) {
        raised := IndexAdd(returned.value, launch.stamp, Some(launch.id));
        return;
      }
      Release(Some(launch.id));
      if launch.upgradedId.Some? && launch.upgradedId.value != launch.id {
        Release(launch.upgradedId);
      }
      if returned.Some? && returned.value.id != launch.id {
        Release(Some(returned.value.id));
      }
    }

    ghost predicate Agrees(attached: bool, returned: Option<Instance>, noReuse: bool)
      reads this, session
    {
      if Survives(attached, returned, noReuse) then Nameable(pod, returned.value.id) else Honest(returned)
    }

    /** After a command's orchestrator call has returned. */
    method FinishLaunchRow(launch: LaunchRow?, attached: bool, returned: Option<Instance>, noReuse: bool, now: string) returns (raised: bool)
      requires launch != null ==> session.strict
      modifies this`trace, index
      ensures old(trace) <= trace && (old(Current()) ==> Current())
      ensures launch != null && old(Tracing()) && launch.stamp == stamp && Agrees(attached, returned, noReuse) ==> Tracing()
      ensures launch != null && index.Healthy() && Survives(attached, returned, noReuse) ==>
        (!raised && index.Contents() == AfterReuse(old(index.Contents()), launch, returned.value))
      ensures launch != null && index.Healthy() && !Survives(attached, returned, noReuse) ==>
        (!raised && index.Contents() == AfterUnused(old(index.Contents()), launch, returned))
    {
      if Survives(attached, returned, noReuse) {
        raised := IndexAdd(returned.value, if launch != null then launch.stamp else now, if launch != null then Some(launch.id) else None);
      } else {
        raised := SettleUnused(launch, returned);
      }
    }

    /**
     One cold orchestrator call.  The hook's failure is contained; None is a raise.  Its contract with
     the command: an instance that was created is what it returns.
     */
    method Orchestrate(launch: LaunchRow?, o: Outcome) returns (r: Option<Option<Instance>>)
      requires pod == Unbooked
      modifies this`trace, this`pod, index, session, launch
      ensures old(trace) <= trace && (old(Current()) ==> Current())
      ensures pod == PodAfter(o)
      ensures r == if !Returns(o) then None else Some(if o.Ran? then Some(o.inst) else None)
      ensures session.unconfirmed == old(session.unconfirmed) +
        if o.Ran? && (o.teardown == Unconfirmed || o.teardown == Doubted) then {o.inst.id} else {}
      ensures launch != null && old(Tracing()) && launch.stamp == stamp && HasRow(old(index.Contents()), name) && !Nameless(o) ==> Tracing()
      ensures launch != null && index.Healthy() && old(Current()) && launch.id == name != "" && Nameless(o) ==> !AllNamed(trace)
      ensures launch != null && index.Healthy() ==>
        (index.Contents() == if o.Ran? then AfterReuse(old(index.Contents()), launch, o.inst) else old(index.Contents()))
      ensures launch != null && index.Healthy() ==> launch.upgradedId == if o.Ran? then Some(o.inst.id) else old(launch.upgradedId)
    {
      hide IsRun;
      if o.NoCompute? {
        return Some(None);
      }
      pod := Booking;
      Snap();
      if o.NothingBooked? {
        pod := Unbooked;
        Snap();
        return None;
      }
      if o.CreateRaises? {
        return None;
      }
      Created(launch, o.inst);
      TearDown(o.inst, o.teardown);
      return if o.raises then None else Some(Some(o.inst));
    }

    /** The instance exists, and the hook fires; its failure is contained. */
    method Created(launch: LaunchRow?, inst: Instance)
      requires pod == Booking
      modifies this`trace, this`pod, index, launch
      ensures pod == Alive(inst.id)
      ensures old(trace) <= trace && (old(Current()) ==> Current())
      ensures launch != null && old(Tracing()) && launch.stamp == stamp && inst.id != "" ==> Tracing()
      ensures launch != null && index.Healthy() && old(Current()) && launch.id == name != "" && inst.id == "" ==> !AllNamed(trace)
      ensures launch != null && index.Healthy() ==>
        (index.Contents() == AfterReuse(old(index.Contents()), launch, inst) && launch.upgradedId == Some(inst.id))
    {
      pod := Alive(inst.id);
      Snap();
      if launch != null {
        var _ := Upgrade(launch, inst);
      }
      assert launch != null && index.Healthy() && launch.id == name != "" && inst.id == "" ==> !Named(Now());
    }

    method TearDown(inst: Instance, t: Teardown)
      requires pod == Alive(inst.id)
      modifies this`trace, this`pod, session
      ensures old(trace) <= trace && (old(Current()) ==> Current())
      ensures pod == if t == Confirmed || t == Doubted then Gone(inst.id) else Alive(inst.id)
      ensures session.unconfirmed == old(session.unconfirmed) + if t == Unconfirmed || t == Doubted then {inst.id} else {}
      ensures old(Tracing()) ==> Tracing()
    {
      if t == Confirmed || t == Doubted {
        pod := Gone(inst.id);
        Snap();
      }
      if t == Unconfirmed || t == Doubted {
        session.MarkDestroyUnconfirmed(inst.id);
        Snap();
      }
    }

    /** The orchestrator call and what follows it. */
    method RunLaunched(launch: LaunchRow?, o: Outcome, noReuse: bool, now: string) returns (raised: bool)
      requires pod == Unbooked && session.unconfirmed == {} && Possible(o, noReuse)
      requires launch != null ==> session.strict && launch.upgradedId == None && launch.stamp == stamp && launch.id == name
      modifies this`trace, this`pod, index, session, launch
      ensures pod == PodAfter(o)
      ensures old(trace) <= trace && (old(Current()) ==> Current())
      ensures launch != null && old(Tracing()) && HasRow(old(index.Contents()), name) && !Nameless(o) ==> Tracing()
      ensures launch != null && index.Healthy() && old(Current()) && name != "" && Nameless(o) ==> !AllNamed(trace)
      ensures launch != null && index.Healthy() ==>
        (raised == !Returns(o) && index.Contents() == AfterRun(old(index.Contents()), cfg, name, launch.stamp, o))
    {
      hide IsRun, Moved, RealRow;
      ghost var m := index.Contents();
      var r := Orchestrate(launch, o);
      raised := r.None?;
      if r.Some? {
        raised := FinishLaunchRow(launch, false, r.value, noReuse, now);
      }
      if launch != null {
        RunAdds(m, cfg, name, stamp, o);
      }
    }

    /**
     A whole cold command.  Whatever writes fail and wherever it is cut off, once reserved the pod is
     named, unless the create handed over an instance without an id: then, with no failed write, the
     hook gives up the only row that named it.  When no write fails the index is exactly Settled.
     */
    method Generate(runId: string, token: string, now: string, o: Outcome, noReuse: bool) returns (launch: LaunchRow?, raised: bool)
      requires pod == Unbooked && session.unconfirmed == {} && Possible(o, noReuse)
      modifies this`trace, this`pod, this`name, this`stamp, index, session
      ensures pod == PodAfter(o)
      ensures launch != null ==> Current()
      ensures launch != null && !Nameless(o) ==> Tracing() && AllNamed(trace)
      ensures launch != null && index.Healthy() ==> (AllNamed(trace) <==> !Nameless(o))
      ensures launch != null && index.Healthy() && Nameless(o) && pod.Alive? ==> !Named(Now())
      ensures launch != null && index.Healthy() ==>
        (raised == !Returns(o)
         && index.Contents() == Settled(old(index.Contents()), cfg, session.ResourceName(runId, cfg.provider, token), now, o))
      ensures launch != null && index.Healthy() && o.Ran? && (o.teardown != Confirmed || o.raises) ==>
        o.inst.id in index.Contents()
        && index.Contents()[o.inst.id] == Row(cfg.warmAttachKey, cfg.kinoforgeKey, o.inst.endpoints, o.inst.provider, now)
      ensures launch != null && index.Healthy() && (o.NothingBooked? || o.CreateRaises?) ==>
        launch.id in index.Contents() && index.Contents()[launch.id] == Row(cfg.warmAttachKey, cfg.kinoforgeKey, map[], cfg.provider, now)
    {
      hide IsRun, Named, AllNamed, Settled, AfterRun;
      ghost var m := index.Contents();
      launch := Reserve(runId, token, now);
      raised := RunLaunched(launch, o, noReuse, now);
      if launch != null {
        if !Nameless(o) {
          RunsStayNamed(trace);
        }
        RunSettles(m, cfg, name, now, o);
        SettledRows(m, cfg, name, now, o);
        if Nameless(o) && pod.Alive? {
          NamelessUnnamed(m, cfg, name, now, o, session.unconfirmed);
        }
      }
    }

    /** After a batch has returned: the instance is looked up instead of handed over. */
    method SettleBatch(launch: LaunchRow?, single: bool, entries: seq<Entry>, before: set<Id>) returns (raised: bool)
      requires launch != null ==> session.strict
      modifies this`trace, index
      ensures old(trace) <= trace && (old(Current()) ==> Current())
      ensures launch != null && old(Tracing()) && launch.stamp == stamp && AgreesWith(Recovered(entries, before), single) ==> Tracing()
      ensures launch != null && index.Healthy() ==>
        (!raised && index.Contents() == AfterBatch(old(index.Contents()), launch, Recovered(entries, before), single))
    {
      raised := false;
      if launch == null {
        return;
      }
      var returned := Recover(entries, before);
      if !single {
        if returned.Some? {
          raised := IndexAdd(returned.value, launch.stamp, Some(launch.id));
        }
        return;
      }
      raised := SettleUnused(launch, returned);
    }

    ghost predicate AgreesWith(returned: Option<Instance>, single: bool)
      reads this, session
    {
      if single then Honest(returned) else returned.Some? ==> Nameable(pod, returned.value.id)
    }

    ghost function AfterBatch(m: Rows, launch: LaunchRow, returned: Option<Instance>, single: bool): Rows
      reads session, launch
    {
      if single then AfterUnused(m, launch, returned)
      else if returned.Some? then AfterReuse(m, launch, returned.value)
      else m
    }

    method RunBatch(launch: LaunchRow?, o: Outcome, noReuse: bool, entries: seq<Entry>, provisional: Instance, recorded: bool, collapsed: bool)
      returns (raised: bool)
      requires pod == Unbooked && session.unconfirmed == {} && Possible(o, noReuse)
      requires launch != null ==> session.strict && launch.upgradedId == None && launch.stamp == stamp && launch.id == name
      modifies this`trace, this`pod, index, session, launch
      ensures old(trace) <= trace && (old(Current()) ==> Current())
      ensures pod == PodAfter(o)
      ensures launch != null && old(Tracing()) && HasRow(old(index.Contents()), name) && !LosesPod(entries, o, recorded) ==> Tracing()
      ensures launch != null && index.Healthy() && old(Current()) && name != "" && Nameless(o) ==> !AllNamed(trace)
      ensures launch != null && index.Healthy() ==>
        (raised == !Returns(o)
         && index.Contents() == if Missed(entries, o, recorded) then old(index.Contents()) - {name, o.inst.id}
                                else if o.NoCompute? && !noReuse then old(index.Contents())
                                else AfterRun(old(index.Contents()), cfg, name, launch.stamp, o))
    {
      hide IsRun, Moved, RealRow;
      ghost var m := index.Contents();
      var r := Orchestrate(launch, o);
      raised := r.None?;
      RecoversOwnPod(entries, provisional, o, recorded, collapsed);
      if r.Some? {
        raised := SettleBatch(launch, noReuse, LedgerAfter(entries, provisional, o, recorded, collapsed), Ids(entries));
      }
      if launch != null {
        RunAdds(m, cfg, name, stamp, o);
      }
    }

    /**
     A whole batch.  The protocol holds except in two cases, which are exact: the create handed over an
     instance without an id; or the destroy is unconfirmed and the pod's own ledger row cannot be
     found, so that the settlement takes the pod for gone and drops both of its names.  Unlike
     Generate, a reusing batch that booked no compute leaves its reserved row behind.
     */
    method Batch(batchId: string, token: string, now: string, o: Outcome, noReuse: bool,
                 entries: seq<Entry>, provisional: Instance, recorded: bool, collapsed: bool) returns (launch: LaunchRow?, raised: bool)
      requires pod == Unbooked && session.unconfirmed == {} && Possible(o, noReuse)
      modifies this`trace, this`pod, this`name, this`stamp, index, session
      ensures pod == PodAfter(o)
      ensures launch != null ==> Current()
      ensures launch != null && !LosesPod(entries, o, recorded) ==> Tracing() && AllNamed(trace)
      ensures launch != null && index.Healthy() ==> (AllNamed(trace) <==> !LosesPod(entries, o, recorded))
      ensures launch != null && index.Healthy() && LosesPod(entries, o, recorded) && pod.Alive? ==> !Named(Now())
      ensures launch != null && index.Healthy() && !Missed(entries, o, recorded) ==>
        (raised == !Returns(o)
         && var rowId := session.ResourceName(batchId, cfg.provider, token);
            index.Contents() == if o.NoCompute? && !noReuse then old(index.Contents())[rowId := ReservedRow(cfg, now)]
                                else Settled(old(index.Contents()), cfg, rowId, now, o))
      ensures launch != null && index.Healthy() && !Missed(entries, o, recorded) && o.Ran? && (o.teardown != Confirmed || o.raises) ==>
        o.inst.id in index.Contents()
        && index.Contents()[o.inst.id] == Row(cfg.warmAttachKey, cfg.kinoforgeKey, o.inst.endpoints, o.inst.provider, now)
      ensures launch != null && index.Healthy() && (o.NothingBooked? || o.CreateRaises? || (o.NoCompute? && !noReuse)) ==>
        launch.id in index.Contents() && index.Contents()[launch.id] == Row(cfg.warmAttachKey, cfg.kinoforgeKey, map[], cfg.provider, now)
    {
      hide IsRun, AllNamed, Settled, AfterRun, Findable, Moved;
      ghost var m := index.Contents();
      launch := Reserve(batchId, token, now);
      raised := RunBatch(launch, o, noReuse, entries, provisional, recorded, collapsed);
      if launch != null {
        if !LosesPod(entries, o, recorded) {
          RunsStayNamed(trace);
        }
        RunSettles(m, cfg, name, now, o);
        SettledRows(m, cfg, name, now, o);
        if Nameless(o) && pod.Alive? {
          NamelessUnnamed(m, cfg, name, now, o, session.unconfirmed);
        }
        if !Named(Now()) {
          UnnamedNow(trace);
        }
      }
    }
  }

  /** Recovery comes back empty-handed although the destroy was never confirmed. */
  predicate Missed(entries: seq<Entry>, o: Outcome, recorded: bool) {
    o.Ran? && !o.raises && (o.teardown == Unconfirmed || o.teardown == Doubted) && !Findable(entries, o, recorded)
  }

  /** The two ways a batch loses the last name of a pod that may be alive. */
  predicate LosesPod(entries: seq<Entry>, o: Outcome, recorded: bool) {
    Nameless(o) || (Missed(entries, o, recorded) && o.teardown == Unconfirmed)
  }

  lemma UnnamedNow(ws: seq<World>)
    requires ws != [] && !Named(ws[|ws| - 1])
    ensures !AllNamed(ws)
  {
  }

  /** Without an id the settled index does not name a pod that is alive. */
  lemma NamelessUnnamed(m: Rows, cfg: Config, name: Id, stamp: string, o: Outcome, unconfirmed: set<Id>)
    requires Nameless(o) && PodAfter(o).Alive? && name != ""
    ensures !Named(World(name, stamp, Settled(m, cfg, name, stamp, o), PodAfter(o), unconfirmed))
  {
  }

  /** What a run makes of an index in which the launch is reserved. */
  function AfterRun(m: Rows, cfg: Config, name: Id, stamp: string, o: Outcome): Rows {
    match o
    case NoCompute => m - {name}
    case NothingBooked => m
    case CreateRaises => m
    case Ran(inst, teardown, raises) =>
      if teardown == Confirmed && !raises then m - {name, inst.id}
      else Moved(m, inst.id, RealRow(cfg, inst, stamp), Some(name))
  }

  /** Upgrading twice is upgrading once; upgrading and then dropping both ids is dropping both. */
  lemma RunAdds(m: Rows, cfg: Config, name: Id, stamp: string, o: Outcome)
    ensures o.Ran? ==>
      var row := RealRow(cfg, o.inst, stamp);
      var once := Moved(m, o.inst.id, row, Some(name));
      Moved(once, o.inst.id, row, Some(name)) == once && once - {name} - {o.inst.id} - {o.inst.id} == m - {name, o.inst.id}
    ensures o.Ran? ==>
      Moved(m, o.inst.id, RealRow(cfg, o.inst, stamp), Some(name)) - {name} - {o.inst.id} - {} == m - {name, o.inst.id}
    ensures m - {name} - {} - {} == m - {name}
  {
  }

  lemma RunSettles(m: Rows, cfg: Config, name: Id, stamp: string, o: Outcome)
    ensures AfterRun(m[name := ReservedRow(cfg, stamp)], cfg, name, stamp, o) == Settled(m, cfg, name, stamp, o)
  {
  }

  /** A cold create that will be reused. */
  predicate Survives(attached: bool, returned: Option<Instance>, noReuse: bool) {
    returned.Some? && !attached && !noReuse
  }

  function AsSet(x: Option<Id>): set<Id> {
    if x.Some? then {x.value} else {}
  }
}
