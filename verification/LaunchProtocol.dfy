/**
 The write-ahead protocol of an ephemeral launch, as a step relation.  A world is what a crash leaves
 behind: the index on disk, the pod, and the session's unconfirmed destroys.  The name reserved for
 the launch is also the provider-side resource name, so a row under it is a handle on the pod.
 */
module LaunchProtocol {
  import opened IndexStore
  import opened Runs

  /** Booking: the provider was asked and nothing says that no pod came of it. */
  datatype Pod = Unbooked | Booking | Alive(id: Id) | Gone(id: Id)

  datatype World = World(name: Id, stamp: string, index: Rows, pod: Pod, unconfirmed: set<Id>)

  predicate MayLive(p: Pod) {
    p.Booking? || p.Alive?
  }

  /** A row one can find a pod by: a row under an empty id names nothing. */
  predicate HasRow(m: Rows, id: Id) {
    id != "" && id in m
  }

  /** A pod that may be alive has a row, under the reserved name or its own id. */
  predicate Named(w: World) {
    && (w.pod.Booking? ==> HasRow(w.index, w.name))
    && (w.pod.Alive? ==> HasRow(w.index, w.name) || HasRow(w.index, w.pod.id))
  }

  predicate AllNamed(ws: seq<World>) {
    forall k :: 0 <= k < |ws| ==> Named(ws[k])
  }

  // ---------------------------------------------------------------- steps

  predicate Books(w: World, w': World) {
    w.pod.Unbooked? && HasRow(w.index, w.name) && w' == w.(pod := Booking)
  }

  predicate Refuses(w: World, w': World) {
    w.pod.Booking? && w' == w.(pod := Unbooked)
  }

  predicate Creates(w: World, w': World) {
    w.pod.Booking? && w'.pod.Alive? && w' == w.(pod := w'.pod)
  }

  predicate HasId(p: Pod) {
    p.Alive? || p.Gone?
  }

  /** The real row, with the launch's stamp. */
  predicate Upgrades(w: World, w': World) {
    && HasId(w.pod) && w.pod.id in w'.index && w'.index[w.pod.id].stamp == w.stamp
    && w' == w.(index := w.index[w.pod.id := w'.index[w.pod.id]])
  }

  predicate MayDrop(w: World, k: Id) {
    MayLive(w.pod) ==> w.pod.Alive? && k != w.pod.id && HasRow(w.index, w.pod.id)
  }

  predicate Drops(w: World, w': World, k: Id) {
    MayDrop(w, k) && w' == w.(index := w.index - {k})
  }

  predicate Marks(w: World, w': World) {
    HasId(w.pod) && w' == w.(unconfirmed := w.unconfirmed + {w.pod.id})
  }

  predicate Confirms(w: World, w': World) {
    w.pod.Alive? && w' == w.(pod := Gone(w.pod.id))
  }

  /** One store write or one change of the pod; a failed write changes nothing. */
  ghost predicate Step(w: World, w': World) {
    || w' == w
    || Books(w, w') || Refuses(w, w') || Creates(w, w') || Upgrades(w, w')
    || (exists k :: Drops(w, w', k))
    || Marks(w, w') || Confirms(w, w')
  }

  ghost predicate IsRun(ws: seq<World>) {
    IsPath(Step, ws) && ws[0].pod.Unbooked?
  }

  lemma StepKeepsNamed(w: World, w': World)
    requires Named(w) && Step(w, w')
    ensures Named(w')
  {
  }

  /** Wherever a run is cut off, a pod that may be alive is named in the index. */
  lemma RunsStayNamed(ws: seq<World>)
    requires IsRun(ws)
    ensures AllNamed(ws)
  {
    forall w, w' | Named(w) && Step(w, w') ensures Named(w') {
      StepKeepsNamed(w, w');
    }
    hide Step;
    forall k | 0 <= k < |ws| ensures Named(ws[k]) {
      PathKeeps(Step, Named, ws, k);
    }
  }

  // ---------------------------------------------------------------- what one launch leaves behind

  /** Doubted: destroyed, but the bookkeeping after it failed, which marks it unconfirmed too. */
  datatype Teardown = Kept | Confirmed | Unconfirmed | Doubted

  /**
   What the orchestrator can do with a cold launch: book no compute; raise an error declared as
   "nothing booked"; raise out of the create; or create an instance, run, tear it down or not, and
   return or raise.
   */
  datatype Outcome =
    | NoCompute
    | NothingBooked
    | CreateRaises
    | Ran(inst: Instance, teardown: Teardown, raises: bool)

  /** A run that returns destroyed its pod exactly when it was told not to reuse it. */
  predicate Possible(o: Outcome, single: bool) {
    o.Ran? && !o.raises ==> (o.teardown == Kept <==> !single)
  }

  predicate Returns(o: Outcome) {
    o.NoCompute? || (o.Ran? && !o.raises)
  }

  /** The create handed over an instance without an id. */
  predicate Nameless(o: Outcome) {
    o.Ran? && o.inst.id == ""
  }

  function PodAfter(o: Outcome): Pod {
    match o
    case NoCompute => Unbooked
    case NothingBooked => Unbooked
    case CreateRaises => Booking
    case Ran(inst, teardown, raises) => if teardown == Confirmed || teardown == Doubted then Gone(inst.id) else Alive(inst.id)
  }

  function ReservedRow(cfg: Config, stamp: string): Row {
    Row(cfg.warmAttachKey, cfg.kinoforgeKey, map[], cfg.provider, stamp)
  }

  function RealRow(cfg: Config, inst: Instance, stamp: string): Row {
    Row(cfg.warmAttachKey, cfg.kinoforgeKey, inst.endpoints, inst.provider, stamp)
  }

  /** The index after a launch all of whose writes succeeded. */
  function Settled(m: Rows, cfg: Config, name: Id, stamp: string, o: Outcome): Rows {
    match o
    case NoCompute => m - {name}
    case NothingBooked => m[name := ReservedRow(cfg, stamp)]
    case CreateRaises => m[name := ReservedRow(cfg, stamp)]
    case Ran(inst, teardown, raises) =>
      if teardown == Confirmed && !raises then m - {name, inst.id}
      else (m - {name})[inst.id := RealRow(cfg, inst, stamp)]
  }

  /**
   One row for a pod that survives or whose destroy is in doubt, under its own id, with the endpoints
   and the provider of the instance, the keys of the configuration and the launch's stamp; none for a
   pod that is gone; nobody else's touched.
   */
  lemma SettledExactly(m: Rows, cfg: Config, name: Id, stamp: string, o: Outcome, k: Id)
    requires Returns(o)
    ensures var m' := Settled(m, cfg, name, stamp, o);
            && (HasId(PodAfter(o)) && o.teardown != Confirmed && (k == name || k == PodAfter(o).id) ==>
                  (k in m' <==> k == PodAfter(o).id)
                  && (k in m' ==> m'[k].endpoints == o.inst.endpoints && m'[k].provider == o.inst.provider && m'[k].stamp == stamp
                                  && m'[k].warmAttachKey == cfg.warmAttachKey && m'[k].kinoforgeKey == cfg.kinoforgeKey))
            && (HasId(PodAfter(o)) && o.teardown == Confirmed && (k == name || k == PodAfter(o).id) ==> k !in m')
            && (PodAfter(o).Unbooked? && k == name ==> k !in m')
            && (k != name && (PodAfter(o).Unbooked? || k != PodAfter(o).id) ==>
                  (k in m' <==> k in m) && (k in m ==> m'[k] == m[k]))
  {
  }

  /** What the rows that stay say. */
  lemma SettledRows(m: Rows, cfg: Config, name: Id, stamp: string, o: Outcome)
    ensures var m' := Settled(m, cfg, name, stamp, o);
            && (o.NothingBooked? || o.CreateRaises? ==>
                  name in m' && m'[name] == Row(cfg.warmAttachKey, cfg.kinoforgeKey, map[], cfg.provider, stamp))
            && (o.Ran? && (o.teardown != Confirmed || o.raises) ==>
                  o.inst.id in m' && m'[o.inst.id] == Row(cfg.warmAttachKey, cfg.kinoforgeKey, o.inst.endpoints, o.inst.provider, stamp))
  {
  }

  /**
   What a run that raises leaves.  Without an instance the reserved row stays, whether a pod was booked
   or not; with one its real row stays, also when its destroy was confirmed before the raise: then the
   row names a pod that is gone, and is left to the sweeper.
   */
  lemma RaisingLeaves(m: Rows, cfg: Config, name: Id, stamp: string, o: Outcome, k: Id)
    requires !Returns(o)
    ensures var m' := Settled(m, cfg, name, stamp, o);
            && (!o.Ran? ==> name in m' && m'[name] == Row(cfg.warmAttachKey, cfg.kinoforgeKey, map[], cfg.provider, stamp))
            && (o.Ran? && (k == name || k == o.inst.id) ==> (k in m' <==> k == o.inst.id))
            && (o.Ran? ==> m'[o.inst.id] == Row(cfg.warmAttachKey, cfg.kinoforgeKey, o.inst.endpoints, o.inst.provider, stamp))
            && (o.Ran? && o.teardown == Confirmed ==> PodAfter(o) == Gone(o.inst.id) && o.inst.id in m')
            && (k != name && !(o.Ran? && k == o.inst.id) ==> (k in m' <==> k in m) && (k in m ==> m'[k] == m[k]))
  {
  }
}
