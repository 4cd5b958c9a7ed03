/**
 The search for a warm pod.  Ledger rows and the index rows they do not shadow are filtered, ordered
 by decreasing heartbeat tick, and tried one after the other.  Proved: the pod that is attached is
 the best admissible one, none is missed, and every scanned row is accounted for by one reason.
 */
module WarmScan {
  import opened Wrappers
  import opened OrderedMap
  import opened Filters

  type Id = string

  datatype Entry = Entry(id: Id, provider: string, key: Option<string>,
                         start: Option<real>, end: Option<real>, tick: Option<real>)

  datatype Config = Config(provider: string, capKey: string, heartbeat: Option<real>, wantsStages: bool)

  /** What the world outside answers: the two locks, the attach chain, and a pod's health. */
  datatype Probes = Probes(reaperHeld: Id -> bool, provisionHeld: Id -> bool,
                           refusal: (Entry, bool) -> Option<int>,
                           endpoints: Entry -> seq<(string, string)>, health: string -> Option<bool>)

  type Skip = (Id, string)

  // ---------------------------------------------------------------- one row

  predicate SessionBusy(e: Entry, now: real, heartbeat: Option<real>) {
    if e.start.None? then false
    else if e.end.Some? && e.end.value >= e.start.value then false
    else if heartbeat.None? then true
    else if e.tick.None? then false
    else now - e.tick.value <= 3.0 * heartbeat.value
  }

  function CoarseReason(cfg: Config, now: real, e: Entry): Option<Skip> {
    if e.id == "" then Some(("<no-id>", "malformed-entry"))
    else if e.provider != cfg.provider then Some((e.id, "provider-mismatch"))
    else if e.key != Some(cfg.capKey) then Some((e.id, "cap-key-mismatch"))
    else if SessionBusy(e, now, cfg.heartbeat) then Some((e.id, "session-busy"))
    else None
  }

  /** The http endpoint if it has an address, else the first one's. */
  function ProxyUrl(endpoints: seq<(string, string)>): string {
    if Get(endpoints, "http").Some? && Get(endpoints, "http").value != "" then Get(endpoints, "http").value
    else if endpoints != [] then endpoints[0].1
    else ""
  }

  predicate StageMismatch(cfg: Config, p: Probes, e: Entry) {
    var url := ProxyUrl(p.endpoints(e));
    cfg.wantsStages && url != "" && p.health(url) == Some(false)
  }

  function GateReason(cfg: Config, p: Probes, e: Entry, indexOnly: bool): Option<Skip> {
    if p.reaperHeld(e.id) then Some((e.id, "reaper-held"))
    else if p.provisionHeld(e.id) then Some((e.id, "provision-held"))
    else if p.refusal(e, indexOnly) == Some(1) then Some((e.id, "cap-key-drift"))
    else if p.refusal(e, indexOnly).Some? then Some((e.id, "classify-not-live"))
    else if StageMismatch(cfg, p, e) then Some((e.id, "stage-mismatch"))
    else None
  }

  // ---------------------------------------------------------------- the rows scanned

  function Ids(es: seq<Entry>): set<Id> {
    set e | e in es :: e.id
  }

  /** Index rows with an id the ledger does not have. */
  function Unshadowed(index: seq<Entry>, ids: set<Id>): seq<Entry> {
    Kept(index, (e: Entry) => e.id == "" || e.id in ids)
  }

  function Union(ledger: seq<Entry>, index: seq<Entry>): seq<Entry> {
    ledger + Unshadowed(index, Ids(ledger))
  }

  predicate IndexOnly(ledger: seq<Entry>, index: seq<Entry>, id: Id) {
    id != "" && id !in Ids(ledger) && id in Ids(index)
  }

  method UniteRows(ledger: seq<Entry>, index: seq<Entry>) returns (entries: seq<Entry>, indexOnly: set<Id>)
    ensures entries == Union(ledger, index)
    ensures forall id :: id in indexOnly <==> IndexOnly(ledger, index, id)
  {
    entries, indexOnly := ledger, {};
    var ids := Ids(ledger);
    for i := 0 to |index|
      invariant entries == Union(ledger, index[..i])
      invariant forall id :: id in indexOnly <==> IndexOnly(ledger, index[..i], id)
    {
      assert index[..i + 1][..i] == index[..i];
      assert index[..i + 1] == index[..i] + [index[i]];
      if index[i].id != "" && index[i].id !in ids {
        entries := entries + [index[i]];
        indexOnly := indexOnly + {index[i].id};
      }
    }
    assert index[..|index|] == index;
  }

  /** A ledger row shadows the index rows of its id. */
  lemma LedgerShadows(ledger: seq<Entry>, index: seq<Entry>, e: Entry)
    requires e in Union(ledger, index)
    ensures e in ledger || (e in index && e.id !in Ids(ledger) && IndexOnly(ledger, index, e.id))
    ensures e.id in Ids(ledger) ==> e in ledger && !IndexOnly(ledger, index, e.id)
  {
  }

  // ---------------------------------------------------------------- the coarse filter

  /** The answers for the rows that get one. */
  function Skips<E, S>(es: seq<E>, f: E -> Option<S>): seq<S> {
    if es == [] then []
    else
      var r := f(es[|es| - 1]);
      Skips(es[..|es| - 1], f) + if r.Some? then [r.value] else []
  }

  /** The rows that get none. */
  function Passed<E(==, !new), S>(es: seq<E>, f: E -> Option<S>): seq<E> {
    Kept(es, (e: E) => f(e).Some?)
  }

  /** The rows that get no answer, in their order. */
  lemma PassedInOrder<E(!new), S>(es: seq<E>, f: E -> Option<S>) returns (at: seq<nat>)
    ensures |Passed(es, f)| == |at| && forall k :: 0 <= k < |at| ==> at[k] < |es| && Passed(es, f)[k] == es[at[k]]
    ensures forall j, k :: 0 <= j < k < |at| ==> at[j] < at[k]
    ensures forall i :: 0 <= i < |es| && f(es[i]).None? ==> i in at
  {
    at := KeptInOrder(es, (e: E) => f(e).Some?);
  }

  function Coarse(cfg: Config, now: real): Entry -> Option<Skip> {
    (e: Entry) => CoarseReason(cfg, now, e)
  }

  function CoarseSkips(cfg: Config, now: real, es: seq<Entry>): seq<Skip> {
    Skips(es, Coarse(cfg, now))
  }

  function Matches(cfg: Config, now: real, es: seq<Entry>): seq<Entry> {
    Passed(es, Coarse(cfg, now))
  }

  method CoarseFilter(cfg: Config, now: real, es: seq<Entry>) returns (skipped: seq<Skip>, matches: seq<Entry>)
    ensures skipped == CoarseSkips(cfg, now, es) && matches == Matches(cfg, now, es)
  {
    skipped, matches := [], [];
    for i := 0 to |es|
      invariant skipped == CoarseSkips(cfg, now, es[..i]) && matches == Matches(cfg, now, es[..i])
    {
      assert es[..i + 1][..i] == es[..i];
      var e := es[i];
      if e.id == "" {
        skipped := skipped + [("<no-id>", "malformed-entry")];
        continue;
      }
      if e.provider != cfg.provider {
        skipped := skipped + [(e.id, "provider-mismatch")];
        continue;
      }
      if e.key != Some(cfg.capKey) {
        skipped := skipped + [(e.id, "cap-key-mismatch")];
        continue;
      }
      if SessionBusy(e, now, cfg.heartbeat) {
        skipped := skipped + [(e.id, "session-busy")];
        continue;
      }
      matches := matches + [e];
    }
    assert es[..|es|] == es;
  }

  // ---------------------------------------------------------------- the stable order

  function Tick(e: Entry): real {
    if e.tick.Some? then e.tick.value else 0.0
  }

  function Ticks(ms: seq<Entry>): seq<real> {
    seq(|ms|, i requires 0 <= i < |ms| => Tick(ms[i]))
  }

  /** Position i is tried before position j. */
  predicate Before(ts: seq<real>, i: nat, j: nat)
    requires i < |ts| && j < |ts|
  {
    ts[i] > ts[j] || (ts[i] == ts[j] && i < j)
  }

  function Upto(n: nat): (r: seq<nat>)
    ensures |r| == n && forall i :: 0 <= i < n ==> r[i] == i
  {
    if n == 0 then [] else Upto(n - 1) + [n - 1]
  }

  ghost predicate Sorted(ts: seq<real>, order: seq<nat>) {
    && (forall k :: 0 <= k < |order| ==> order[k] < |ts|)
    && forall a, b :: 0 <= a < b < |order| ==> Before(ts, order[a], order[b])
  }

  ghost predicate Permutes(order: seq<nat>, n: nat) {
    multiset(order) == multiset(Upto(n))
  }

  /** order lists all positions, each before the next. */
  ghost predicate IsOrder(ts: seq<real>, order: seq<nat>) {
    Sorted(ts, order) && Permutes(order, |ts|)
  }

  /** Behind at the ticks are smaller than that of n, before it they are not. */
  ghost predicate IsPlace(ts: seq<real>, order: seq<nat>, n: nat, at: nat)
    requires Sorted(ts, order) && n < |ts|
  {
    && at <= |order|
    && (forall k :: at <= k < |order| ==> ts[order[k]] < ts[n])
    && (forall k :: 0 <= k < at ==> ts[order[k]] >= ts[n])
  }

  ghost predicate Below(order: seq<nat>, n: nat) {
    forall k :: 0 <= k < |order| ==> order[k] < n
  }

  /** The place behind all positions with at least the tick of n. */
  method Place(ts: seq<real>, order: seq<nat>, n: nat) returns (at: nat)
    requires Sorted(ts, order) && n < |ts|
    ensures at <= |order| && IsPlace(ts, order, n, at)
  {
    at := |order|;
    while at > 0 && ts[order[at - 1]] < ts[n]
      invariant 0 <= at <= |order|
      invariant forall k :: at <= k < |order| ==> ts[order[k]] < ts[n]
    {
      at := at - 1;
    }
    if at > 0 {
      assert forall k :: 0 <= k < at - 1 ==> Before(ts, order[k], order[at - 1]);
    }
  }

  function Insert(order: seq<nat>, at: nat, n: nat): seq<nat>
    requires at <= |order|
  {
    order[..at] + [n] + order[at..]
  }

  /** Sorting by decreasing tick keeps the order of equal ticks. */
  method StableOrder(ts: seq<real>) returns (order: seq<nat>)
    ensures IsOrder(ts, order)
  {
    order := [];
    for n := 0 to |ts|
      invariant Sorted(ts, order) && Permutes(order, n) && Below(order, n)
    {
      hide Sorted, Permutes, IsPlace, Below, Insert;
      var at := Place(ts, order, n);
      ghost var was := order;
      order := Insert(order, at, n);
      InsertSorted(ts, was, n, at);
      InsertPermutes(was, n, at);
    }
  }

  lemma InsertSorted(ts: seq<real>, order: seq<nat>, n: nat, at: nat)
    requires Sorted(ts, order) && Below(order, n) && n < |ts| && at <= |order| && IsPlace(ts, order, n, at)
    ensures Sorted(ts, Insert(order, at, n)) && Below(Insert(order, at, n), n + 1)
  {
  }

  lemma InsertPermutes(order: seq<nat>, n: nat, at: nat)
    requires Permutes(order, n) && at <= |order|
    ensures Permutes(Insert(order, at, n), n + 1)
  {
    assert order == order[..at] + order[at..];
    assert multiset(order[..at] + [n] + order[at..]) == multiset(order) + multiset{n};
  }

  // ---------------------------------------------------------------- trying the candidates

  predicate Admissible(cfg: Config, p: Probes, ledger: seq<Entry>, index: seq<Entry>, e: Entry) {
    GateReason(cfg, p, e, IndexOnly(ledger, index, e.id)).None?
  }

  /** The skips of the candidates at these positions, in this order. */
  function Collect<S>(order: seq<nat>, g: nat -> Option<S>): seq<S> {
    if order == [] then []
    else
      var r := g(order[|order| - 1]);
      Collect(order[..|order| - 1], g) + if r.Some? then [r.value] else []
  }

  /** What the gates say of the candidate at a position. */
  function GateAt(cfg: Config, p: Probes, ledger: seq<Entry>, index: seq<Entry>, ms: seq<Entry>): nat -> Option<Skip> {
    (i: nat) => if i < |ms| then GateReason(cfg, p, ms[i], IndexOnly(ledger, index, ms[i].id)) else None
  }

  datatype Report = Report(attached: Option<Id>, skipped: seq<Skip>)

  /** The gates in their order, each asked only when the ones before let the candidate through. */
  method TryGates(cfg: Config, p: Probes, e: Entry, indexOnly: bool) returns (r: Option<Skip>)
    ensures r == GateReason(cfg, p, e, indexOnly)
  {
    if p.reaperHeld(e.id) {
      return Some((e.id, "reaper-held"));
    }
    if p.provisionHeld(e.id) {
      return Some((e.id, "provision-held"));
    }
    var rc := p.refusal(e, indexOnly);
    if rc.Some? {
      return Some((e.id, if rc.value == 1 then "cap-key-drift" else "classify-not-live"));
    }
    if cfg.wantsStages {
      var url := ProxyUrl(p.endpoints(e));
      if url != "" && p.health(url) == Some(false) {
        return Some((e.id, "stage-mismatch"));
      }
    }
    return None;
  }

  /** hit is the place in the order of the candidate attached to. */
  method TryInOrder(cfg: Config, p: Probes, ghost ledger: seq<Entry>, ghost index: seq<Entry>, indexOnly: set<Id>,
                    ms: seq<Entry>, order: seq<nat>, coarse: seq<Skip>) returns (hit: Option<nat>, report: Report)
    requires IsOrder(Ticks(ms), order)
    requires forall id :: id in indexOnly <==> IndexOnly(ledger, index, id)
    ensures hit.None? ==> forall k :: 0 <= k < |order| ==> !Admissible(cfg, p, ledger, index, ms[order[k]])
    ensures hit.None? ==> report == Report(None, coarse + Collect(order, GateAt(cfg, p, ledger, index, ms)))
    ensures hit.Some? ==> hit.value < |order| && Admissible(cfg, p, ledger, index, ms[order[hit.value]])
    ensures hit.Some? ==> forall j :: 0 <= j < hit.value ==> !Admissible(cfg, p, ledger, index, ms[order[j]])
    ensures hit.Some? ==>
      report == Report(Some(ms[order[hit.value]].id), coarse + Collect(order[..hit.value], GateAt(cfg, p, ledger, index, ms)))
  {
    hide GateReason, IndexOnly;
    var skipped := coarse;
    for k := 0 to |order|
      invariant forall j :: 0 <= j < k ==> !Admissible(cfg, p, ledger, index, ms[order[j]])
      invariant skipped == coarse + Collect(order[..k], GateAt(cfg, p, ledger, index, ms))
    {
      assert order[..k + 1][..k] == order[..k];
      var e := ms[order[k]];
      var r := TryGates(cfg, p, e, e.id in indexOnly);
      if r.Some? {
        skipped := skipped + [r.value];
        continue;
      }
      return Some(k), Report(Some(e.id), skipped);
    }
    assert order[..|order|] == order;
    return None, Report(None, skipped);
  }

  // ---------------------------------------------------------------- accounting

  /** The one reason a row is passed over for, if it is. */
  function ReasonOf(cfg: Config, now: real, p: Probes, ledger: seq<Entry>, index: seq<Entry>, e: Entry): Option<Skip> {
    if CoarseReason(cfg, now, e).Some? then CoarseReason(cfg, now, e)
    else GateReason(cfg, p, e, IndexOnly(ledger, index, e.id))
  }

  function Reasons(cfg: Config, now: real, p: Probes, ledger: seq<Entry>, index: seq<Entry>): Entry -> Option<Skip> {
    (e: Entry) => ReasonOf(cfg, now, p, ledger, index, e)
  }

  /** One answer for each row that gets one. */
  lemma {:induction false} AllAnswered<E(!new), S>(es: seq<E>, f: E -> Option<S>)
    requires forall e :: e in es ==> f(e).Some?
    ensures |Skips(es, f)| == |es|
  {
    if es != [] {
      AllAnswered(es[..|es| - 1], f);
    }
  }

  /** Filtering first and asking the rest later is asking every row once. */
  lemma {:induction false} TwoStages<E(!new), S>(es: seq<E>, f: E -> Option<S>, g: E -> Option<S>, both: E -> Option<S>)
    requires forall e :: both(e) == if f(e).Some? then f(e) else g(e)
    ensures multiset(Skips(es, f)) + multiset(Skips(Passed(es, f), g)) == multiset(Skips(es, both))
  {
    if es != [] {
      var (front, last) := (es[..|es| - 1], es[|es| - 1]);
      var passed := Passed(front, f);
      assert es == front + [last];
      assert Passed(es, f) == if f(last).None? then passed + [last] else passed;
      hide Skips, Passed;
      TwoStages(front, f, g, both);
      SkipsSnoc(front, last, f);
      SkipsSnoc(front, last, both);
      if f(last).None? {
        SkipsSnoc(passed, last, g);
      }
    }
  }

  lemma SkipsSnoc<E, S>(es: seq<E>, e: E, f: E -> Option<S>)
    ensures multiset(Skips(es + [e], f)) == multiset(Skips(es, f)) + if f(e).Some? then multiset{f(e).value} else multiset{}
  {
  }

  /** Asking the candidates by position. */
  lemma {:induction false} ByPosition(cfg: Config, p: Probes, ledger: seq<Entry>, index: seq<Entry>, ms: seq<Entry>, n: nat, g: Entry -> Option<Skip>)
    requires n <= |ms| && forall e :: g(e) == GateReason(cfg, p, e, IndexOnly(ledger, index, e.id))
    ensures Collect(Upto(n), GateAt(cfg, p, ledger, index, ms)) == Skips(ms[..n], g)
  {
    if n > 0 {
      var order := Upto(n - 1);
      assert Upto(n) == order + [n - 1] && (order + [n - 1])[..n - 1] == order;
      assert ms[..n] == ms[..n - 1] + [ms[n - 1]] && ms[..n][..n - 1] == ms[..n - 1];
      hide GateReason, IndexOnly, Upto;
      ByPosition(cfg, p, ledger, index, ms, n - 1, g);
      assert GateAt(cfg, p, ledger, index, ms)(n - 1) == g(ms[n - 1]);
    }
  }

  lemma CoarseThenGates(cfg: Config, now: real, p: Probes, ledger: seq<Entry>, index: seq<Entry>, es: seq<Entry>)
    ensures var ms := Matches(cfg, now, es);
            multiset(CoarseSkips(cfg, now, es)) + multiset(Collect(Upto(|ms|), GateAt(cfg, p, ledger, index, ms)))
            == multiset(Skips(es, Reasons(cfg, now, p, ledger, index)))
  {
    hide GateReason, IndexOnly, CoarseReason;
    var ms := Matches(cfg, now, es);
    var gate := (e: Entry) => GateReason(cfg, p, e, IndexOnly(ledger, index, e.id));
    TwoStages(es, Coarse(cfg, now), gate, Reasons(cfg, now, p, ledger, index));
    ByPosition(cfg, p, ledger, index, ms, |ms|, gate);
    assert ms[..|ms|] == ms;
  }

  lemma {:induction false} CollectJoin<S>(a: seq<nat>, b: seq<nat>, g: nat -> Option<S>)
    ensures Collect(a + b, g) == Collect(a, g) + Collect(b, g)
  {
    if b == [] {
      assert a + b == a;
    } else {
      assert (a + b)[..|a + b| - 1] == a + b[..|b| - 1];
      CollectJoin(a, b[..|b| - 1], g);
    }
  }

  lemma CollectMoved<S>(a: seq<nat>, x: nat, b: seq<nat>, g: nat -> Option<S>)
    ensures multiset(Collect(a + [x] + b, g)) == multiset(Collect(a + b + [x], g))
  {
    CollectJoin(a + [x], b, g);
    CollectJoin(a, [x], g);
    CollectJoin(a + b, [x], g);
    CollectJoin(a, b, g);
  }

  lemma MultisetSnoc(a: seq<nat>, x: nat)
    ensures multiset(a + [x]) == multiset(a) + multiset{x}
  {
  }

  lemma TakeOut(b: seq<nat>, k: nat)
    requires k < |b|
    ensures b == b[..k] + [b[k]] + b[k + 1..] && multiset(b) == multiset(b[..k] + b[k + 1..]) + multiset{b[k]}
  {
    assert b == b[..k] + [b[k]] + b[k + 1..];
  }

  /** Asking in another order gives the same answers. */
  lemma {:induction false} CollectAnyOrder<S>(a: seq<nat>, b: seq<nat>, g: nat -> Option<S>)
    requires multiset(a) == multiset(b)
    ensures multiset(Collect(a, g)) == multiset(Collect(b, g))
  {
    if a == [] {
      assert |multiset(a)| == |multiset(b)|;
    } else {
      hide Collect;
      var (front, x) := (a[..|a| - 1], a[|a| - 1]);
      assert a == front + [x];
      assert x in multiset(b);
      var k :| 0 <= k < |b| && b[k] == x;
      var rest := b[..k] + b[k + 1..];
      MultisetSnoc(front, x);
      TakeOut(b, k);
      assert multiset(front) == multiset(a) - multiset{x} == multiset(rest);
      CollectAnyOrder(front, rest, g);
      CollectMoved(b[..k], x, b[k + 1..], g);
      CollectJoin(front, [x], g);
      CollectJoin(rest, [x], g);
    }
  }

  // ---------------------------------------------------------------- the scan

  /** The address a pod's health is asked under: that of its http endpoint, if it has one with an address, else that of its first endpoint. */
  predicate AskedUnder(endpoints: seq<(string, string)>, url: string) {
    url != ""
    && if exists k :: 0 <= k < |endpoints| && IsHttp(endpoints, k) && endpoints[k].1 != ""
       then exists k :: 0 <= k < |endpoints| && IsHttp(endpoints, k) && endpoints[k].1 == url
       else |endpoints| > 0 && endpoints[0].1 == url
  }

  /** The entry under the key "http". */
  predicate IsHttp(endpoints: seq<(string, string)>, k: nat)
    requires k < |endpoints|
  {
    endpoints[k].0 == "http" && forall i :: 0 <= i < k ==> endpoints[i].0 != "http"
  }

  lemma {:induction false} HttpAt(endpoints: seq<(string, string)>, k: nat)
    requires k < |endpoints| && IsHttp(endpoints, k)
    ensures Get(endpoints, "http") == Some(endpoints[k].1)
  {
    if k > 0 {
      assert IsHttp(endpoints[1..], k - 1);
      HttpAt(endpoints[1..], k - 1);
    }
  }

  lemma {:induction false} HttpIn(endpoints: seq<(string, string)>) returns (k: nat)
    requires Get(endpoints, "http").Some?
    ensures k < |endpoints| && IsHttp(endpoints, k)
  {
    k := 0;
    if endpoints[0].0 != "http" {
      k := HttpIn(endpoints[1..]);
      assert forall i :: 0 < i <= k ==> endpoints[i] == endpoints[1..][i - 1];
      k := k + 1;
    }
  }

  lemma UrlIs(endpoints: seq<(string, string)>, url: string)
    ensures AskedUnder(endpoints, url) <==> url != "" && ProxyUrl(endpoints) == url
  {
    forall k | 0 <= k < |endpoints| && IsHttp(endpoints, k) ensures Get(endpoints, "http") == Some(endpoints[k].1) {
      HttpAt(endpoints, k);
    }
    if Get(endpoints, "http").Some? {
      var k := HttpIn(endpoints);
    }
  }

  /** One of the rows scanned: a ledger row, or an index row with an id no ledger row has. */
  predicate Scanned(ledger: seq<Entry>, index: seq<Entry>, e: Entry) {
    e in ledger || (e in index && e.id != "" && forall l :: l in ledger ==> l.id != e.id)
  }

  /**
   What makes a row attachable: scanned, of the configuration's provider and capability key, in no
   session that is still open and beating, held by nobody, refused by nobody, and not known to lack a
   wanted stage.
   */
  ghost predicate Attachable(cfg: Config, now: real, p: Probes, ledger: seq<Entry>, index: seq<Entry>, e: Entry) {
    && Scanned(ledger, index, e) && e.id != "" && e.provider == cfg.provider && e.key == Some(cfg.capKey)
    && (e.start.None? || (e.end.Some? && e.end.value >= e.start.value)
        || (cfg.heartbeat.Some? && (e.tick.None? || now - e.tick.value > 3.0 * cfg.heartbeat.value)))
    && !p.reaperHeld(e.id) && !p.provisionHeld(e.id)
    && p.refusal(e, forall l :: l in ledger ==> l.id != e.id) == None
    && (cfg.wantsStages ==> forall url :: AskedUnder(p.endpoints(e), url) ==> p.health(url) != Some(false))
  }

  lemma AttachableIs(cfg: Config, now: real, p: Probes, ledger: seq<Entry>, index: seq<Entry>, e: Entry)
    ensures Attachable(cfg, now, p, ledger, index, e) <==>
            e in Union(ledger, index) && ReasonOf(cfg, now, p, ledger, index, e).None?
  {
    assert Scanned(ledger, index, e) <==> e in Union(ledger, index);
    assert Scanned(ledger, index, e) && e.id != "" ==> (IndexOnly(ledger, index, e.id) <==> forall l :: l in ledger ==> l.id != e.id);
    forall url ensures AskedUnder(p.endpoints(e), url) <==> url != "" && ProxyUrl(p.endpoints(e)) == url {
      UrlIs(p.endpoints(e), url);
    }
  }

  /** A session is open and beating, or nothing says that it does not. */
  predicate Busy(cfg: Config, now: real, e: Entry) {
    e.start.Some? && (e.end.Some? ==> e.end.value < e.start.value)
    && (cfg.heartbeat.Some? ==> e.tick.Some? && now - e.tick.value <= 3.0 * cfg.heartbeat.value)
  }

  /** The one reason of a scanned row, said of the row and the world. */
  lemma ReasonSays(cfg: Config, now: real, p: Probes, ledger: seq<Entry>, index: seq<Entry>, e: Entry)
    requires Scanned(ledger, index, e)
    ensures var r := ReasonOf(cfg, now, p, ledger, index, e);
            var rc := p.refusal(e, forall l :: l in ledger ==> l.id != e.id);
            && (e.id == "" <==> r == Some(("<no-id>", "malformed-entry")))
            && (e.id != "" ==>
                 var free := !p.reaperHeld(e.id) && !p.provisionHeld(e.id);
                 var fits := e.provider == cfg.provider && e.key == Some(cfg.capKey) && !Busy(cfg, now, e);
                 && (r == Some((e.id, "provider-mismatch")) <==> e.provider != cfg.provider)
                 && (r == Some((e.id, "cap-key-mismatch")) <==> e.provider == cfg.provider && e.key != Some(cfg.capKey))
                 && (r == Some((e.id, "session-busy")) <==>
                       e.provider == cfg.provider && e.key == Some(cfg.capKey) && Busy(cfg, now, e))
                 && (r == Some((e.id, "reaper-held")) <==> fits && p.reaperHeld(e.id))
                 && (r == Some((e.id, "provision-held")) <==> fits && !p.reaperHeld(e.id) && p.provisionHeld(e.id))
                 && (r == Some((e.id, "cap-key-drift")) <==> fits && free && rc == Some(1))
                 && (r == Some((e.id, "classify-not-live")) <==> fits && free && rc.Some? && rc != Some(1))
                 && (r == Some((e.id, "stage-mismatch")) <==>
                       fits && free && rc.None? && cfg.wantsStages
                       && exists url :: AskedUnder(p.endpoints(e), url) && p.health(url) == Some(false)))
  {
    forall url ensures AskedUnder(p.endpoints(e), url) <==> url != "" && ProxyUrl(p.endpoints(e)) == url {
      UrlIs(p.endpoints(e), url);
    }
    assert e.id != "" ==> (IndexOnly(ledger, index, e.id) <==> forall l :: l in ledger ==> l.id != e.id);
    hide ProxyUrl, AskedUnder;
    DistinctReasons();
  }

  /** The texts are different ones. */
  lemma DistinctReasons()
    ensures var texts := ["malformed-entry", "provider-mismatch", "cap-key-mismatch", "session-busy", "reaper-held", "provision-held",
                          "cap-key-drift", "classify-not-live", "stage-mismatch"];
            forall i, j :: 0 <= i < j < |texts| ==> texts[i] != texts[j]
  {
    assert |"malformed-entry"| == 15 && |"provider-mismatch"| == 17 && |"cap-key-mismatch"| == 16 && |"session-busy"| == 12
      && |"reaper-held"| == 11 && |"provision-held"| == 14 && |"cap-key-drift"| == 13 && |"classify-not-live"| == 17 && |"stage-mismatch"| == 14;
    assert "provider-mismatch"[0] == 'p' && "classify-not-live"[0] == 'c' && "provision-held"[0] == 'p' && "stage-mismatch"[0] == 's';
  }

  /** The rows scanned, and nothing else: the ledger's first. */
  lemma ScannedIs(ledger: seq<Entry>, index: seq<Entry>, e: Entry)
    ensures e in Union(ledger, index) <==> Scanned(ledger, index, e)
    ensures ledger <= Union(ledger, index)
  {
  }

  /** Attachable, of the highest tick among the attachable rows (none counts as zero), and the first row of that tick. */
  ghost predicate BestRow(cfg: Config, now: real, p: Probes, ledger: seq<Entry>, index: seq<Entry>, c: nat) {
    var rows := Union(ledger, index);
    && c < |rows| && Attachable(cfg, now, p, ledger, index, rows[c])
    && forall i :: 0 <= i < |rows| && i != c && Attachable(cfg, now, p, ledger, index, rows[i]) ==>
         var (ti, tc) := (if rows[i].tick.Some? then rows[i].tick.value else 0.0, if rows[c].tick.Some? then rows[c].tick.value else 0.0);
         ti < tc || (ti == tc && c < i)
  }

  /**
   On a hit the candidate has the highest tick of all attachable rows, and of several with that tick
   is the first; on a miss there is none, and the report holds exactly one reason for every row.
   */
  method ScanWarmCandidates(cfg: Config, now: real, p: Probes, ledger: seq<Entry>, index: seq<Entry>) returns (found: Option<Entry>, report: Report)
    ensures found.Some? ==> Attachable(cfg, now, p, ledger, index, found.value) && report.attached == Some(found.value.id)
    ensures found.Some? ==> exists c: nat :: BestRow(cfg, now, p, ledger, index, c) && Union(ledger, index)[c] == found.value
    ensures found.None? ==> report.attached == None && forall e :: !Attachable(cfg, now, p, ledger, index, e)
    ensures found.None? ==> multiset(report.skipped) == multiset(Skips(Union(ledger, index), Reasons(cfg, now, p, ledger, index)))
    ensures found.None? ==> |report.skipped| == |Union(ledger, index)|
  {
    hide Attachable, BestRow, CoarseReason, GateReason, Admissible, ReasonOf, Skips, Collect, Permutes, Sorted;
    var entries, indexOnly := UniteRows(ledger, index);
    var coarse, ms := CoarseFilter(cfg, now, entries);
    var order := StableOrder(Ticks(ms));
    var hit;
    hit, report := TryInOrder(cfg, p, ledger, index, indexOnly, ms, order, coarse);
    InRange(order, |ms|);
    if hit.Some? {
      found := Some(ms[order[hit.value]]);
      HitIsBest(cfg, now, p, ledger, index, order, hit.value);
    } else {
      found := None;
      Missed(cfg, now, p, ledger, index, order);
      CoarseThenGates(cfg, now, p, ledger, index, entries);
      SameTries(cfg, p, ledger, index, ms, order);
      AllAnswered(entries, Reasons(cfg, now, p, ledger, index));
      assert |multiset(report.skipped)| == |report.skipped|;
    }
  }

  lemma InRange(order: seq<nat>, n: nat)
    requires Permutes(order, n)
    ensures forall k :: 0 <= k < |order| ==> order[k] < n
  {
    forall k | 0 <= k < |order| ensures order[k] < n {
      assert order[k] in multiset(order);
      assert order[k] in multiset(Upto(n));
    }
  }

  lemma SameTries(cfg: Config, p: Probes, ledger: seq<Entry>, index: seq<Entry>, ms: seq<Entry>, order: seq<nat>)
    requires Permutes(order, |ms|)
    ensures var g := GateAt(cfg, p, ledger, index, ms); multiset(Collect(order, g)) == multiset(Collect(Upto(|ms|), g))
  {
    CollectAnyOrder(order, Upto(|ms|), GateAt(cfg, p, ledger, index, ms));
  }

  lemma Missed(cfg: Config, now: real, p: Probes, ledger: seq<Entry>, index: seq<Entry>, order: seq<nat>)
    requires var ms := Matches(cfg, now, Union(ledger, index));
             IsOrder(Ticks(ms), order) && forall k :: 0 <= k < |order| ==> !Admissible(cfg, p, ledger, index, ms[order[k]])
    ensures forall e :: e in Union(ledger, index) ==> Reasons(cfg, now, p, ledger, index)(e).Some?
    ensures forall e :: !Attachable(cfg, now, p, ledger, index, e)
  {
    hide Attachable, ReasonOf, CoarseReason, Union;
    AllTried(cfg, now, p, ledger, index, order);
    forall e ensures !Attachable(cfg, now, p, ledger, index, e) {
      AttachableIs(cfg, now, p, ledger, index, e);
    }
  }

  /** The first admissible candidate is the best row. */
  lemma HitIsBest(cfg: Config, now: real, p: Probes, ledger: seq<Entry>, index: seq<Entry>, order: seq<nat>, k: nat)
    requires var ms := Matches(cfg, now, Union(ledger, index));
             && IsOrder(Ticks(ms), order) && k < |order| && order[k] < |ms| && Admissible(cfg, p, ledger, index, ms[order[k]])
             && forall j :: 0 <= j < k ==> !Admissible(cfg, p, ledger, index, ms[order[j]])
    ensures var e := Matches(cfg, now, Union(ledger, index))[order[k]];
            && Attachable(cfg, now, p, ledger, index, e)
            && exists c: nat :: BestRow(cfg, now, p, ledger, index, c) && Union(ledger, index)[c] == e
  {
    hide Attachable, CoarseReason, GateReason, IndexOnly, Union, IsOrder, Passed;
    var rows := Union(ledger, index);
    var ms := Matches(cfg, now, rows);
    FirstIsBest(cfg, p, ledger, index, ms, order, k);
    var at := PassedInOrder(rows, Coarse(cfg, now));
    forall i | 0 <= i < |rows|
      ensures Attachable(cfg, now, p, ledger, index, rows[i]) <==>
              Coarse(cfg, now)(rows[i]).None? && Admissible(cfg, p, ledger, index, rows[i]) {
      AttachableIs(cfg, now, p, ledger, index, rows[i]);
    }
    PassedIs(cfg, now, rows, ms[order[k]]);
    BestOfRows(cfg, now, p, ledger, index, at, order[k]);
  }

  lemma PassedIs(cfg: Config, now: real, es: seq<Entry>, e: Entry)
    ensures e in Matches(cfg, now, es) <==> e in es && Coarse(cfg, now)(e).None?
  {
  }

  /** The best candidate is the best row. */
  lemma BestOfRows(cfg: Config, now: real, p: Probes, ledger: seq<Entry>, index: seq<Entry>, at: seq<nat>, b: nat)
    requires var (rows, ms) := (Union(ledger, index), Matches(cfg, now, Union(ledger, index)));
             && |ms| == |at| && b < |ms| && Attachable(cfg, now, p, ledger, index, ms[b]) && IsBest(cfg, p, ledger, index, ms, b)
             && (forall k :: 0 <= k < |at| ==> at[k] < |rows| && ms[k] == rows[at[k]])
             && (forall j, k :: 0 <= j < k < |at| ==> at[j] < at[k])
             && forall i :: 0 <= i < |rows| && Attachable(cfg, now, p, ledger, index, rows[i]) ==>
                  i in at && Admissible(cfg, p, ledger, index, rows[i])
    ensures BestRow(cfg, now, p, ledger, index, at[b])
  {
    hide Attachable, Admissible, Union, Matches;
    var (rows, ms) := (Union(ledger, index), Matches(cfg, now, Union(ledger, index)));
    forall i | 0 <= i < |rows| && i != at[b] && Attachable(cfg, now, p, ledger, index, rows[i])
      ensures Tick(rows[i]) < Tick(rows[at[b]]) || (Tick(rows[i]) == Tick(rows[at[b]]) && at[b] < i) {
      var j :| 0 <= j < |at| && at[j] == i;
      assert ms[j] == rows[i] && Before(Ticks(ms), b, j);
    }
  }

  predicate IsBest(cfg: Config, p: Probes, ledger: seq<Entry>, index: seq<Entry>, ms: seq<Entry>, c: nat)
    requires c < |ms|
  {
    forall i :: 0 <= i < |ms| && Admissible(cfg, p, ledger, index, ms[i]) ==> i == c || Before(Ticks(ms), c, i)
  }

  lemma InOrder(order: seq<nat>, n: nat, i: nat) returns (k: nat)
    requires Permutes(order, n) && i < n
    ensures k < |order| && order[k] == i
  {
    assert Upto(n)[i] == i;
    assert i in multiset(Upto(n));
    assert i in multiset(order);
    k :| 0 <= k < |order| && order[k] == i;
  }

  lemma FirstIsBest(cfg: Config, p: Probes, ledger: seq<Entry>, index: seq<Entry>, ms: seq<Entry>, order: seq<nat>, k: nat)
    requires IsOrder(Ticks(ms), order) && k < |order|
    requires forall j :: 0 <= j < k ==> !Admissible(cfg, p, ledger, index, ms[order[j]])
    ensures IsBest(cfg, p, ledger, index, ms, order[k])
  {
    forall i | 0 <= i < |ms| && Admissible(cfg, p, ledger, index, ms[i]) ensures i == order[k] || Before(Ticks(ms), order[k], i) {
      var j := InOrder(order, |ms|, i);
    }
  }

  lemma AllTried(cfg: Config, now: real, p: Probes, ledger: seq<Entry>, index: seq<Entry>, order: seq<nat>)
    requires var ms := Matches(cfg, now, Union(ledger, index));
             IsOrder(Ticks(ms), order) && forall k :: 0 <= k < |order| ==> !Admissible(cfg, p, ledger, index, ms[order[k]])
    ensures forall e :: e in Union(ledger, index) ==> ReasonOf(cfg, now, p, ledger, index, e).Some?
  {
    var ms := Matches(cfg, now, Union(ledger, index));
    forall e | e in Union(ledger, index) ensures ReasonOf(cfg, now, p, ledger, index, e).Some? {
      if CoarseReason(cfg, now, e).None? {
        var i :| 0 <= i < |ms| && ms[i] == e;
        var k := InOrder(order, |ms|, i);
      }
    }
  }

  // ---------------------------------------------------------------- the summary

  function Count(skipped: seq<Skip>, reason: string): nat {
    if skipped == [] then 0
    else Count(skipped[..|skipped| - 1], reason) + if skipped[|skipped| - 1].1 == reason then 1 else 0
  }

  function Counts(skipped: seq<Skip>): seq<(string, nat)> {
    if skipped == [] then []
    else Counted(Counts(skipped[..|skipped| - 1]), skipped[|skipped| - 1].1)
  }

  function Counted<K(==)>(counts: seq<(K, nat)>, reason: K): seq<(K, nat)> {
    Put(counts, reason, (if Has(counts, reason) then Get(counts, reason).value else 0) + 1)
  }

  function Total<K>(counts: seq<(K, nat)>): nat {
    if counts == [] then 0 else counts[0].1 + Total(counts[1..])
  }

  method ReasonCounts(skipped: seq<Skip>) returns (counts: seq<(string, nat)>)
    ensures counts == Counts(skipped)
  {
    counts := [];
    for i := 0 to |skipped|
      invariant counts == Counts(skipped[..i])
    {
      assert skipped[..i + 1][..i] == skipped[..i];
      counts := Counted(counts, skipped[i].1);
    }
    assert skipped[..|skipped|] == skipped;
  }

  lemma {:induction false} CountedTotal<K>(counts: seq<(K, nat)>, reason: K)
    ensures Total(Counted(counts, reason)) == Total(counts) + 1
  {
    if counts != [] && counts[0].0 != reason {
      CountedTotal(counts[1..], reason);
      assert Counted(counts, reason)[1..] == Counted(counts[1..], reason);
    } else if counts != [] {
      assert Counted(counts, reason)[1..] == counts[1..];
    }
  }

  /** The summary's counts are those of the reasons, and add up to the length of the skip list. */
  lemma {:induction false} CountsAddUp(skipped: seq<Skip>, reason: string)
    ensures Total(Counts(skipped)) == |skipped|
    ensures Get(Counts(skipped), reason) == if Count(skipped, reason) > 0 then Some(Count(skipped, reason)) else None
  {
    if skipped != [] {
      hide Put, Get, Total;
      var (front, last) := (skipped[..|skipped| - 1], skipped[|skipped| - 1]);
      CountsAddUp(front, reason);
      CountsAddUp(front, last.1);
      CountedTotal(Counts(front), last.1);
      GetPut(Counts(front), last.1, (if Has(Counts(front), last.1) then Get(Counts(front), last.1).value else 0) + 1, reason);
    }
  }
}
