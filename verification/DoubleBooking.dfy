/**
 When two pods that may be alive can share a capability key.  Every call is a function of the ledger;
 a fleet is the ledger and the pods that may be alive.  A call is loose when it leaves a pod behind
 and no row with the key.  Proved: after a call that left a pod, any further call of the key that
 leaves a pod makes a second one if and only if the first call was loose; and runs without loose calls
 never have two.
 */
module DoubleBooking {
  import opened Wrappers
  import opened IndexStore
  import opened Filters
  import opened ProvisionLedger

  /** What create_instance does: an error declared as booking nothing, any other error, or an instance. */
  datatype Create = NothingBooked | Raises | Returns(id: Id, tagged: bool)

  /** What happens after the create: all well, or an error and a destroy that works or not. */
  datatype After = Ready | FailsDestroyed | FailsLeft

  datatype Call =
    | ProvisionCall(key: string, runId: Id, isGone: Id -> bool, create: Create, after: After)
    | DeployCall(key: string, runId: Id, create: Create, after: After)

  // ---------------------------------------------------------------- one call on a ledger that can be written

  /** The recorded row of the key may be given up: provision was told that its instance is gone. */
  predicate GivesUp(c: Call, e: Entry) {
    c.ProvisionCall? && e.id != "" && c.isGone(e.id)
  }

  predicate Goes(es: seq<Entry>, c: Call) {
    FindKey(es, c.key).Some? ==> GivesUp(c, FindKey(es, c.key).value)
  }

  /** The ledger the call books on. */
  function Opened(es: seq<Entry>, c: Call): seq<Entry> {
    if FindKey(es, c.key).Some? then Kept(es, WithId(FindKey(es, c.key).value.id)) else es
  }

  function Reserved(es: seq<Entry>, runId: Id): seq<Entry> {
    if runId == "" then es else es + [Entry(runId, true, None)]
  }

  function Collapsed(es: seq<Entry>, runId: Id): seq<Entry> {
    if runId == "" then es else Kept(es, Launching(runId))
  }

  /** provision writes the real row at once but wants an id; deploy writes it when the instance is ready. */
  predicate WritesRow(c: Call)
    requires c.create.Returns?
  {
    if c.ProvisionCall? then c.create.id != "" else c.after.Ready?
  }

  function RealRow(c: Call): Entry
    requires c.create.Returns?
  {
    Entry(c.create.id, false, if c.create.tagged then Some(c.key) else None)
  }

  function BookedOn(es: seq<Entry>, c: Call): seq<Entry> {
    match c.create
    case NothingBooked => Collapsed(Reserved(es, c.runId), c.runId)
    case Raises => Reserved(es, c.runId)
    case Returns(id, _) =>
      if WritesRow(c) then Collapsed(Reserved(es, c.runId) + [RealRow(c)], c.runId) else Reserved(es, c.runId)
  }

  function EntriesAfter(es: seq<Entry>, c: Call): seq<Entry> {
    if Goes(es, c) then BookedOn(Opened(es, c), c) else es
  }

  /** The pod of a call that was not refused; an empty id ends provision before anything is torn down. */
  function PodOf(c: Call): Pod {
    match c.create
    case NothingBooked => Unbooked
    case Raises => Booking
    case Returns(id, _) =>
      if c.after.FailsDestroyed? && !(c.ProvisionCall? && id == "") then Gone(id) else Alive(id)
  }

  function PodAfter(es: seq<Entry>, c: Call): Pod {
    if Goes(es, c) then PodOf(c) else Unbooked
  }

  predicate LeavesPod(c: Call) {
    PodOf(c).Booking? || PodOf(c).Alive?
  }

  /** A pod stays and no row has the key: the create raised, or its instance has no key tag, or no real row is written. */
  predicate Loose(c: Call) {
    match c.create
    case NothingBooked => false
    case Raises => true
    case Returns(id, tagged) =>
      if c.ProvisionCall? then id == "" || (!tagged && !c.after.FailsDestroyed?)
      else c.after.FailsLeft? || (!tagged && c.after.Ready?)
  }

  // ---------------------------------------------------------------- the fleet

  /** A pod that may be alive and the key it was booked for. */
  datatype Held = Held(key: string, pod: Pod)

  datatype Fleet = Fleet(entries: seq<Entry>, up: seq<Held>)

  /** One call, or the end of a pod. */
  datatype Event = Called(call: Call) | Died(i: nat)

  /** The provider calls no pod gone that may be alive. */
  predicate Honest(s: Fleet, c: Call) {
    c.ProvisionCall? ==> forall h :: h in s.up && h.pod.Alive? ==> !c.isGone(h.pod.id)
  }

  predicate Possible(s: Fleet, e: Event) {
    match e
    case Called(c) => Honest(s, c)
    case Died(i) => i < |s.up|
  }

  /** The pod, if it may be alive, is one more that is up. */
  function Joined(up: seq<Held>, key: string, pod: Pod): seq<Held> {
    if pod.Booking? || pod.Alive? then up + [Held(key, pod)] else up
  }

  function Applied(s: Fleet, e: Event): Fleet {
    match e
    case Called(c) => Fleet(EntriesAfter(s.entries, c), Joined(s.up, c.key, PodAfter(s.entries, c)))
    case Died(i) => if i < |s.up| then s.(up := s.up[..i] + s.up[i + 1..]) else s
  }

  function AllApplied(s: Fleet, events: seq<Event>): Fleet {
    if events == [] then s else Applied(AllApplied(s, events[..|events| - 1]), events[|events| - 1])
  }

  predicate IsRunFrom(s: Fleet, events: seq<Event>) {
    forall k :: 0 <= k < |events| ==> Possible(AllApplied(s, events[..k]), events[k])
  }

  predicate OnePod(up: seq<Held>, key: string) {
    forall i, j :: 0 <= i < j < |up| && up[i].key == key ==> up[j].key != key
  }

  /** The row of the key is that of this very pod. */
  predicate HasRow(es: seq<Entry>, h: Held) {
    h.pod.Alive? && RowOf(es, h.pod.id, h.key)
  }

  predicate RowOf(es: seq<Entry>, id: Id, key: string) {
    Entry(id, false, Some(key)) in es
  }

  predicate Covered(s: Fleet, key: string) {
    forall h :: h in s.up && h.key == key ==> HasRow(s.entries, h)
  }

  predicate Tight(s: Fleet, key: string) {
    OnePerKey(s.entries) && OnePod(s.up, key) && Covered(s, key)
  }

  // ---------------------------------------------------------------- what a call does to the rows

  /** Booking adds the real row when there is one, and no other row with a key. */
  lemma BookedRows(es: seq<Entry>, c: Call, id: Id, key: string)
    ensures RowOf(BookedOn(es, c), id, key) <==>
            RowOf(es, id, key) || (c.create.Returns? && WritesRow(c) && RealRow(c) == Entry(id, false, Some(key)))
  {
    var (more, e) := (Reserved(es, c.runId), Entry(id, false, Some(key)));
    assert e in more <==> e in es;
    if c.create.Returns? && WritesRow(c) {
      assert e in more + [RealRow(c)] <==> e in more || e == RealRow(c);
    }
  }

  lemma BookedOnePerKey(es: seq<Entry>, c: Call)
    requires OnePerKey(es) && FindKey(es, c.key).None?
    ensures OnePerKey(BookedOn(es, c))
    ensures !(c.create.Returns? && WritesRow(c) && c.create.tagged) ==> FindKey(BookedOn(es, c), c.key).None?
  {
    hide OnePerKey, FindKey;
    var more := Reserved(es, c.runId);
    LaunchingNoNewKeys(es, c.runId);
    KeyStaysFree(es, more, c.key);
    if c.create.Returns? && WritesRow(c) {
      var all := more + [RealRow(c)];
      AppendOnePerKey(more, RealRow(c));
      KeptOnePerKey(all, Launching(c.runId));
      if !c.create.tagged {
        UntaggedKeepsFree(more, RealRow(c), c.key);
        KeptNoNewKeys(all, Launching(c.runId));
        KeyStaysFree(all, Kept(all, Launching(c.runId)), c.key);
      }
    } else if c.create.NothingBooked? {
      KeptOnePerKey(more, Launching(c.runId));
      KeptNoNewKeys(more, Launching(c.runId));
      KeyStaysFree(more, Kept(more, Launching(c.runId)), c.key);
    }
  }

  lemma UntaggedKeepsFree(es: seq<Entry>, e: Entry, key: string)
    requires FindKey(es, key).None? && e.key.None?
    ensures FindKey(es + [e], key).None?
  {
    assert forall x :: x in es + [e] ==> x in es || x == e;
  }

  /** A call books on a ledger without a row of its key. */
  lemma OpenedIsFree(es: seq<Entry>, c: Call)
    requires OnePerKey(es) && Goes(es, c)
    ensures OnePerKey(Opened(es, c)) && FindKey(Opened(es, c), c.key).None?
  {
    if FindKey(es, c.key).Some? {
      KeptOnePerKey(es, WithId(FindKey(es, c.key).value.id));
      ForgottenKey(es, c.key);
    }
  }

  lemma CallKeepsOnePerKey(es: seq<Entry>, c: Call)
    requires OnePerKey(es)
    ensures OnePerKey(EntriesAfter(es, c))
  {
    if Goes(es, c) {
      OpenedIsFree(es, c);
      BookedOnePerKey(Opened(es, c), c);
    }
  }

  // ---------------------------------------------------------------- one call on a fleet

  /** A call gives up no row of a pod that may be alive. */
  lemma RowsStay(s: Fleet, c: Call, h: Held)
    requires Honest(s, c) && h in s.up && HasRow(s.entries, h)
    ensures HasRow(EntriesAfter(s.entries, c), h)
  {
    if Goes(s.entries, c) {
      assert RowOf(Opened(s.entries, c), h.pod.id, h.key);
      BookedRows(Opened(s.entries, c), c, h.pod.id, h.key);
    }
  }

  /** A call that is not refused found no pod of its key up. */
  lemma NoneUp(s: Fleet, c: Call)
    requires Tight(s, c.key) && Honest(s, c) && Goes(s.entries, c)
    ensures forall h :: h in s.up ==> h.key != c.key
  {
    forall h | h in s.up ensures h.key != c.key {
      if h.key == c.key {
        RowIsFound(s.entries, h.pod.id, h.key);
      }
    }
  }

  lemma RowIsFound(es: seq<Entry>, id: Id, key: string)
    requires OnePerKey(es) && RowOf(es, id, key)
    ensures FindKey(es, key) == Some(Entry(id, false, Some(key)))
  {
    var found := FindKey(es, key).value;
    var i :| 0 <= i < |es| && es[i] == Entry(id, false, Some(key));
    var j :| 0 <= j < |es| && es[j] == found;
    assert i == j;
  }

  /** From a fleet with at most one pod of a key, and that one recorded, one more call leaves at most one. */
  lemma CallKeepsOne(s: Fleet, c: Call, key: string)
    requires Tight(s, key) && Honest(s, c)
    ensures OnePod(Applied(s, Called(c)).up, key)
  {
    if c.key == key && Goes(s.entries, c) {
      NoneUp(s, c);
    }
  }

  /** And the one is recorded, unless the call is loose. */
  lemma CallKeepsTight(s: Fleet, c: Call, key: string)
    requires Tight(s, key) && Honest(s, c) && (c.key == key ==> !Loose(c))
    ensures Tight(Applied(s, Called(c)), key)
  {
    var s' := Applied(s, Called(c));
    CallKeepsOnePerKey(s.entries, c);
    CallKeepsOne(s, c, key);
    forall h | h in s'.up && h.key == key ensures HasRow(s'.entries, h) {
      if h in s.up {
        RowsStay(s, c, h);
      } else {
        BookedRows(Opened(s.entries, c), c, h.pod.id, key);
      }
    }
  }

  lemma DeathKeepsTight(s: Fleet, i: nat, key: string)
    requires Tight(s, key) && i < |s.up|
    ensures Tight(Applied(s, Died(i)), key)
  {
    hide HasRow, OnePerKey;
    var s' := Applied(s, Died(i));
    assert forall k :: 0 <= k < |s'.up| ==> s'.up[k] == s.up[if k < i then k else k + 1];
  }

  // ---------------------------------------------------------------- when a second pod

  /**
   A call that was not refused left a pod.  Any further call of the key that leaves a pod makes a second
   one if and only if the first call was loose.
   */
  lemma SecondPodExactly(s: Fleet, c: Call, again: Call)
    requires Tight(s, c.key) && Honest(s, c) && Goes(s.entries, c) && LeavesPod(c)
    requires again.key == c.key && LeavesPod(again) && Honest(Applied(s, Called(c)), again)
    ensures var after := Applied(Applied(s, Called(c)), Called(again));
            !OnePod(after.up, c.key) <==> Loose(c)
  {
    var s' := Applied(s, Called(c));
    if Loose(c) {
      OpenedIsFree(s.entries, c);
      BookedOnePerKey(Opened(s.entries, c), c);
      var up := Applied(s', Called(again)).up;
      assert up == s.up + [Held(c.key, PodOf(c))] + [Held(c.key, PodOf(again))];
      assert up[|s.up|].key == c.key && up[|s.up| + 1].key == c.key;
    } else {
      CallKeepsTight(s, c, c.key);
      CallKeepsOne(s', again, c.key);
    }
  }

  /** Whatever is called and dies in between: without a loose call of the key no two pods of it are up. */
  lemma {:induction false} TightRunsNeverShare(s: Fleet, events: seq<Event>, key: string)
    requires Tight(s, key) && IsRunFrom(s, events)
    requires forall e :: e in events && e.Called? && e.call.key == key ==> !Loose(e.call)
    ensures Tight(AllApplied(s, events), key)
    decreases |events|
  {
    hide Tight, Applied, Honest, Loose;
    if events != [] {
      var (front, last) := (events[..|events| - 1], events[|events| - 1]);
      assert IsRunFrom(s, front) by {
        assert forall k :: 0 <= k < |front| ==> front[..k] == events[..k];
      }
      TightRunsNeverShare(s, front, key);
      assert last in events && Possible(AllApplied(s, front), last);
      match last {
        case Called(c) => CallKeepsTight(AllApplied(s, front), c, key);
        case Died(i) => DeathKeepsTight(AllApplied(s, front), i, key);
      }
    }
  }

  /** Calls in a row, nothing dying in between. */
  function CalledAll(calls: seq<Call>): seq<Event> {
    seq(|calls|, i requires 0 <= i < |calls| => Called(calls[i]))
  }
}
