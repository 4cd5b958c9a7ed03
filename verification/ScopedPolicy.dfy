/**
 The verdict on a scoped policy.  Every required action is simulated under the resources of the first
 statement that grants it; the report sorts the actions into allowed, denied, ungranted, not
 applicable and missing.  Proved: against a complete simulator, exit 0 says exactly that each
 required action is excused, or granted and allowed on every resource of that statement.
 */
module ScopedPolicy {
  import opened Wrappers
  import opened OrderedMap
  import opened Grouping

  type Action = string

  /** A statement's resources: the wildcard, or a list. */
  datatype Resource = Any | Arns(arns: seq<string>)

  datatype Statement = Statement(sid: Option<string>, allow: bool, patterns: seq<string>, resource: Resource)

  /** Whether an action matches a pattern. */
  type Matcher = (Action, string) -> bool

  /** Optional statements and the actions that are required only when the statement is there. */
  type Conditional = seq<(string, seq<Action>)>

  const CONDITIONAL: Conditional := [("KMSLayerW", ["kms:Encrypt", "kms:Decrypt"])]

  /** The resources to simulate with; None simulates without any. */
  type Key = Option<seq<string>>

  datatype Policy = Policy(statements: seq<Statement>, matches: Matcher)

  // ---------------------------------------------------------------- granting

  predicate Grants(p: Policy, s: Statement, a: Action) {
    s.allow && exists i :: 0 <= i < |s.patterns| && p.matches(a, s.patterns[i])
  }

  /** The index of the first statement that grants the action, or the number of statements. */
  function FirstGrant(p: Policy, a: Action, from: nat): (i: nat)
    requires from <= |p.statements|
    ensures from <= i <= |p.statements|
    ensures i < |p.statements| ==> Grants(p, p.statements[i], a)
    ensures forall j :: from <= j < i ==> !Grants(p, p.statements[j], a)
    decreases |p.statements| - from
  {
    if from == |p.statements| || Grants(p, p.statements[from], a) then from else FirstGrant(p, a, from + 1)
  }

  predicate Granted(p: Policy, a: Action) {
    FirstGrant(p, a, 0) < |p.statements|
  }

  /** The first grant, said of the statements. */
  lemma FirstGrantIs(p: Policy, a: Action)
    ensures var g := FirstGrant(p, a, 0);
            && (g < |p.statements| ==> p.statements[g].allow)
            && (g < |p.statements| ==> exists k :: 0 <= k < |p.statements[g].patterns| && p.matches(a, p.statements[g].patterns[k]))
            && forall j :: 0 <= j < g && p.statements[j].allow ==>
                 forall m :: 0 <= m < |p.statements[j].patterns| ==> !p.matches(a, p.statements[j].patterns[m])
  {
    var g := FirstGrant(p, a, 0);
    forall j | 0 <= j < g && p.statements[j].allow
      ensures forall m :: 0 <= m < |p.statements[j].patterns| ==> !p.matches(a, p.statements[j].patterns[m]) {
      assert !Grants(p, p.statements[j], a);
    }
  }

  function KeyOf(p: Policy, a: Action): Key {
    if !Granted(p, a) then None
    else match p.statements[FirstGrant(p, a, 0)].resource
      case Any => None
      case Arns(arns) => Some(arns)
  }

  method LookupAction(p: Policy, a: Action) returns (granted: bool, key: Key)
    ensures granted == Granted(p, a) && key == KeyOf(p, a)
    ensures !granted ==>
      && key == None
      && forall i :: 0 <= i < |p.statements| && p.statements[i].allow ==>
           forall k :: 0 <= k < |p.statements[i].patterns| ==> !p.matches(a, p.statements[i].patterns[k])
    ensures granted ==>
      exists i, k ::
        && 0 <= i < |p.statements| && p.statements[i].allow
        && 0 <= k < |p.statements[i].patterns| && p.matches(a, p.statements[i].patterns[k])
        && (forall j :: 0 <= j < i && p.statements[j].allow ==>
              forall m :: 0 <= m < |p.statements[j].patterns| ==> !p.matches(a, p.statements[j].patterns[m]))
        && key == match p.statements[i].resource case Any => None case Arns(arns) => Some(arns)
  {
    for i := 0 to |p.statements|
      invariant FirstGrant(p, a, 0) == FirstGrant(p, a, i)
    {
      var s := p.statements[i];
      if !s.allow {
        continue;
      }
      var found := false;
      for j := 0 to |s.patterns|
        invariant found <==> exists k :: 0 <= k < j && p.matches(a, s.patterns[k])
      {
        found := found || p.matches(a, s.patterns[j]);
      }
      if !found {
        continue;
      }
      match s.resource
      case Any => return true, None;
      case Arns(arns) => return true, Some(arns);
    }
    return false, None;
  }

  // ---------------------------------------------------------------- excused actions

  predicate Present(p: Policy, sid: string) {
    exists i :: 0 <= i < |p.statements| && p.statements[i].allow && p.statements[i].sid == Some(sid)
  }

  /** Some optional statement that asks for the action was dropped, and no allowing statement matches the action. */
  predicate Excused(p: Policy, cond: Conditional, a: Action) {
    && (forall i :: 0 <= i < |p.statements| && p.statements[i].allow ==>
          forall k :: 0 <= k < |p.statements[i].patterns| ==> !p.matches(a, p.statements[i].patterns[k]))
    && exists c :: 0 <= c < |cond| && a in cond[c].1
                   && forall i :: 0 <= i < |p.statements| && p.statements[i].allow ==> p.statements[i].sid != Some(cond[c].0)
  }

  lemma ExcusedIs(p: Policy, cond: Conditional, a: Action)
    ensures Excused(p, cond, a) <==>
            !Granted(p, a) && exists i :: 0 <= i < |cond| && !Present(p, cond[i].0) && a in cond[i].1
  {
    FirstGrantIs(p, a);
  }

  /** With the actual table only the two key actions are ever excused, and only without their statement: a render that drops any other statement is found out. */
  lemma OnlyKeyActionsExcused(p: Policy, a: Action)
    ensures Excused(p, CONDITIONAL, a)
            <==> !Granted(p, a) && !Present(p, "KMSLayerW") && (a == "kms:Encrypt" || a == "kms:Decrypt")
  {
    ExcusedIs(p, CONDITIONAL, a);
    hide Excused, Granted, Present;
    assert CONDITIONAL[0] == ("KMSLayerW", ["kms:Encrypt", "kms:Decrypt"]);
    assert a in CONDITIONAL[0].1 <==> a == "kms:Encrypt" || a == "kms:Decrypt";
  }

  method NotApplicableActions(p: Policy, cond: Conditional, required: seq<Action>) returns (excused: set<Action>)
    ensures forall a :: a in excused <==> a in required && Excused(p, cond, a)
  {
    var sids: set<Option<string>> := set s | s in p.statements && s.allow :: s.sid;
    excused := {};
    for i := 0 to |cond|
      invariant forall a :: a in excused <==> a in required && Excused(p, cond[..i], a)
    {
      hide Granted, Present;
      assert cond[..i + 1] == cond[..i] + [cond[i]];
      assert Some(cond[i].0) in sids <==> Present(p, cond[i].0) by {
        SidPresent(p, cond[i].0);
      }
      if Some(cond[i].0) in sids {
        SkipEntry(p, cond, i);
        continue;
      }
      ghost var before := excused;
      for j := 0 to |cond[i].1|
        invariant forall a :: a in excused <==> a in before || (a in cond[i].1[..j] && a in required && !Granted(p, a))
      {
        var a := cond[i].1[j];
        assert cond[i].1[..j + 1] == cond[i].1[..j] + [a];
        if a in required {
          var granted, _ := LookupAction(p, a);
          if !granted {
            excused := excused + {a};
          }
        }
      }
      assert cond[i].1[..|cond[i].1|] == cond[i].1;
      AddEntry(p, cond, i);
    }
    assert cond[..|cond|] == cond;
  }

  lemma SidPresent(p: Policy, sid: string)
    ensures Present(p, sid) <==> exists s :: s in p.statements && s.allow && s.sid == Some(sid)
  {
  }

  lemma SkipEntry(p: Policy, cond: Conditional, i: nat)
    requires i < |cond| && Present(p, cond[i].0)
    ensures forall a :: Excused(p, cond[..i + 1], a) <==> Excused(p, cond[..i], a)
  {
  }

  lemma AddEntry(p: Policy, cond: Conditional, i: nat)
    requires i < |cond| && !Present(p, cond[i].0)
    ensures forall a :: Excused(p, cond[..i + 1], a) <==> Excused(p, cond[..i], a) || (a in cond[i].1 && !Granted(p, a))
  {
  }

  // ---------------------------------------------------------------- the simulator

  datatype Record = Record(resource: Option<string>, decision: string)

  type Evaluation = (Action, Record)

  datatype Reply = Raises | Answer(truncated: bool, results: seq<Evaluation>)

  type Simulator = (Key, seq<Action>) -> Reply

  type Detail = seq<(Action, seq<Record>)>

  function Verdict(records: seq<Record>): string {
    if records == [] then "allowed"
    else if records[0].decision != "allowed" then records[0].decision
    else Verdict(records[1..])
  }

  /** One denial is enough. */
  lemma {:induction false} VerdictIsAll(records: seq<Record>)
    ensures Verdict(records) == "allowed" <==> forall r :: r in records ==> r.decision == "allowed"
  {
    if records != [] {
      VerdictIsAll(records[1..]);
      assert records == [records[0]] + records[1..];
      assert (forall r :: r in records ==> r.decision == "allowed")
        <==> records[0].decision == "allowed" && forall r :: r in records[1..] ==> r.decision == "allowed";
    }
  }

  /** A verdict that is not "allowed" is the first decision that is not. */
  lemma {:induction false} VerdictIsFirst(records: seq<Record>, k: nat)
    requires k < |records| && records[k].decision != "allowed" && forall i :: 0 <= i < k ==> records[i].decision == "allowed"
    ensures Verdict(records) == records[k].decision
  {
    if k > 0 {
      assert records[0].decision == "allowed";
      VerdictIsFirst(records[1..], k - 1);
    }
  }

  /** The required actions with their keys. */
  function Keyed(p: Policy, required: seq<Action>): seq<(Key, Action)> {
    seq(|required|, i requires 0 <= i < |required| => (KeyOf(p, required[i]), required[i]))
  }

  type Groups = seq<(Key, seq<Action>)>

  function ResultsOf(r: Reply): seq<Evaluation> {
    if r.Answer? then r.results else []
  }

  /** All results, group by group. */
  function Answers(sim: Simulator, groups: Groups): seq<Evaluation> {
    if groups == [] then []
    else
      var g := groups[|groups| - 1];
      Answers(sim, groups[..|groups| - 1]) + ResultsOf(sim(g.0, g.1))
  }

  predicate AllAnswered(sim: Simulator, groups: Groups) {
    forall i :: 0 <= i < |groups| ==> sim(groups[i].0, groups[i].1).Answer? && !sim(groups[i].0, groups[i].1).truncated
  }

  datatype Failure = NotConfirmed | ClientError | Truncated

  /** Simulates the groups one after the other, merging each answer into the detail. */
  method SimulateGroups(sim: Simulator, groups: Groups) returns (r: Result<Detail, Failure>)
    ensures r.Ok? <==> AllAnswered(sim, groups)
    ensures r.Ok? ==> forall a :: Get(r.value, a) == Found(OfKey(Answers(sim, groups), a))
  {
    hide Get, Found, OfKey, Grouped;
    var detail: Detail := [];
    NothingYet();
    for i := 0 to |groups|
      invariant AllAnswered(sim, groups[..i])
      invariant forall a :: Get(detail, a) == Found(OfKey(Answers(sim, groups[..i]), a))
    {
      var reply := sim(groups[i].0, groups[i].1);
      if reply.Raises? {
        return Err(ClientError);
      }
      if reply.truncated {
        return Err(Truncated);
      }
      var grouped := Group(reply.results);
      MergeAnswers(detail, Answers(sim, groups[..i]), reply.results);
      assert groups[..i + 1][..i] == groups[..i];
      detail := Extend(detail, grouped);
    }
    assert groups[..|groups|] == groups;
    return Ok(detail);
  }

  lemma NothingYet()
    ensures forall a :: Get<Action, seq<Record>>([], a) == Found(OfKey<Action, Record>([], a))
  {
  }

  lemma MergeAnswers(detail: Detail, before: seq<Evaluation>, more: seq<Evaluation>)
    requires forall a :: Get(detail, a) == Found(OfKey(before, a))
    ensures forall a :: Get(Extended(detail, Grouped(more)), a) == Found(OfKey(before + more, a))
  {
    hide Get, Found, OfKey, Grouped, Extended;
    GroupedDistinct(more);
    forall a ensures Get(Extended(detail, Grouped(more)), a) == Found(OfKey(before + more, a)) {
      ExtendedAt(detail, Grouped(more), a);
      GroupedAt(more, a);
      OfKeyJoin(before, more, a);
      MergeFound(OfKey(before, a), OfKey(more, a), Get(detail, a), Get(Grouped(more), a));
    }
  }

  lemma MergeFound<V>(a: seq<V>, b: seq<V>, fa: Option<seq<V>>, fb: Option<seq<V>>)
    requires fa == Found(a) && fb == Found(b)
    ensures (if fb.Some? then Some((if fa.Some? then fa.value else []) + fb.value) else fa) == Found(a + b)
  {
    assert |a| == 0 ==> a + b == b;
    assert |b| == 0 ==> a + b == a;
    assert [] + b == b;
  }

  // ---------------------------------------------------------------- the report

  /** simulated holds the collapsed verdicts; detail the records behind them. */
  datatype Report = Report(exit: int, denied: set<Action>, ungranted: set<Action>, notApplicable: set<Action>,
                           missing: set<Action>, simulated: map<Action, string>, detail: Detail)

  /** The throwaway user's account. */
  class Iam {
    var users: set<string>
    const simulate: Simulator
    const createFails: bool
    const deleteFails: bool

    constructor (users: set<string>, simulate: Simulator, createFails: bool, deleteFails: bool)
      ensures this.users == users && this.simulate == simulate
      ensures this.createFails == createFails && this.deleteFails == deleteFails
    {
      this.users := users;
      this.simulate := simulate;
      this.createFails := createFails;
      this.deleteFails := deleteFails;
    }

    method CreateUser(name: string) returns (ok: bool)
      modifies this
      ensures ok <==> !createFails && name !in old(users)
      ensures users == if ok then old(users) + {name} else old(users)
    {
      ok := !createFails && name !in users;
      if ok {
        users := users + {name};
      }
    }

    method DeleteUser(name: string) returns (ok: bool)
      modifies this
      ensures ok <==> !deleteFails
      ensures users == if ok then old(users) - {name} else old(users)
    {
      ok := !deleteFails;
      if ok {
        users := users - {name};
      }
    }
  }

  function Simulated(detail: Detail): map<Action, string> {
    map a | a in Keys(detail) :: Verdict(ValuesAt(detail, a))
  }

  /** What the detail means for the required actions. */
  ghost predicate Reports(r: Report, p: Policy, cond: Conditional, required: seq<Action>, results: seq<Evaluation>) {
    && (forall a :: a in r.simulated <==> OfKey(results, a) != [])
    && (forall a :: a in r.simulated ==> r.simulated[a] == Verdict(OfKey(results, a)))
    && (forall a :: Get(r.detail, a) == Found(OfKey(results, a)))
    && (forall a :: a in r.notApplicable <==> a in required && Excused(p, cond, a))
    && (forall a :: a in r.ungranted <==> a in required && !Granted(p, a) && !Excused(p, cond, a))
    && (forall a :: a in r.missing <==> a in required && a !in r.simulated)
    && (forall a :: a in r.denied <==> a in r.simulated && r.simulated[a] != "allowed" && !(a in required && !Granted(p, a)))
    && r.exit == if r.denied == {} && r.ungranted == {} && r.missing == {} then 0 else 1
  }

  method BuildReport(p: Policy, cond: Conditional, required: seq<Action>, detail: Detail, ungranted: set<Action>,
                     excused: set<Action>, ghost results: seq<Evaluation>) returns (r: Report)
    requires forall a :: Get(detail, a) == Found(OfKey(results, a))
    requires forall a :: a in ungranted <==> a in required && !Granted(p, a)
    requires forall a :: a in excused <==> a in required && Excused(p, cond, a)
    ensures Reports(r, p, cond, required, results)
  {
    hide Get, OfKey, Keys, Verdict, Granted, Excused;
    var simulated := Simulated(detail);
    forall a ensures a in simulated <==> OfKey(results, a) != []
             ensures a in simulated ==> simulated[a] == Verdict(OfKey(results, a)) {
      HasKey(detail, a);
    }
    var denied := set a | a in simulated && simulated[a] != "allowed" && a !in ungranted;
    var unexcused := ungranted - excused;
    var missing := (set a | a in required) - simulated.Keys;
    ExcusedUngranted(p, cond, required);
    r := Report(if denied != {} || unexcused != {} || missing != {} then 1 else 0,
                denied, unexcused, excused, missing, simulated, detail);
  }

  lemma ExcusedUngranted(p: Policy, cond: Conditional, required: seq<Action>)
    ensures forall a :: Excused(p, cond, a) ==> !Granted(p, a)
  {
  }

  /** The whole validation.  Whatever happens after the user was created, it is deleted again unless the deletion itself fails. */
  method ValidateAws(iam: Iam, p: Policy, cond: Conditional, userName: string, required: seq<Action>, confirmed: bool) returns (r: Result<Report, Failure>)
    modifies iam
    ensures !confirmed ==> r == Err(NotConfirmed) && iam.users == old(iam.users)
    ensures iam.users == old(iam.users) || (iam.deleteFails && iam.users == old(iam.users) + {userName})
    ensures confirmed && !iam.createFails && userName !in old(iam.users) ==>
      (r.Ok? <==> AllAnswered(iam.simulate, Grouped(Keyed(p, required))))
    ensures r.Ok? ==> Reports(r.value, p, cond, required, Answers(iam.simulate, Grouped(Keyed(p, required))))
  {
    hide Grouped, OfKey, Get, Granted, Excused, KeyOf, Reports, AllAnswered, Answers;
    if !confirmed {
      return Err(NotConfirmed);
    }
    var excused := NotApplicableActions(p, cond, required);
    var created := iam.CreateUser(userName);
    if !created {
      return Err(ClientError);
    }
    var ungranted, groups := GroupActions(p, required);
    var sim := SimulateGroups(iam.simulate, groups);
    var _ := iam.DeleteUser(userName);
    if sim.Err? {
      return Err(sim.error);
    }
    var report := BuildReport(p, cond, required, sim.value, ungranted, excused, Answers(iam.simulate, groups));
    return Ok(report);
  }

  method GroupActions(p: Policy, required: seq<Action>) returns (ungranted: set<Action>, groups: Groups)
    ensures forall a :: a in ungranted <==> a in required && !Granted(p, a)
    ensures groups == Grouped(Keyed(p, required))
  {
    ungranted, groups := {}, [];
    for i := 0 to |required|
      invariant forall a :: a in ungranted <==> a in required[..i] && !Granted(p, a)
      invariant groups == Grouped(Keyed(p, required)[..i])
    {
      hide Granted, KeyOf;
      var a := required[i];
      assert required[..i + 1] == required[..i] + [a];
      assert Keyed(p, required)[..i + 1][..i] == Keyed(p, required)[..i];
      var granted, key := LookupAction(p, a);
      if !granted {
        ungranted := ungranted + {a};
      }
      groups := Grown(groups, key, a);
    }
    assert required[..|required|] == required;
    assert Keyed(p, required)[..|required|] == Keyed(p, required);
  }

  // ---------------------------------------------------------------- what exit 0 says

  /** An evaluation of the action on that resource with that decision. */
  predicate Decides(results: seq<Evaluation>, a: Action, resource: Option<string>, decision: string) {
    (a, Record(resource, decision)) in results
  }

  /**
   The answer a complete simulator gives a group: for every action of the group one decision per
   resource, or one decision when it is simulated without resources, and nothing else.
   */
  ghost predicate CompleteFor(results: seq<Evaluation>, key: Key, actions: seq<Action>, decide: (Action, Option<string>) -> string) {
    && (forall a, resource, decision :: Decides(results, a, resource, decision) ==>
          a in actions
          && match key
             case None => decision == decide(a, None)
             case Some(arns) => resource.Some? && resource.value in arns && decision == decide(a, resource))
    && (forall a :: a in actions ==>
          match key
          case None => exists resource :: Decides(results, a, resource, decide(a, None))
          case Some(arns) => forall x :: x in arns ==> Decides(results, a, Some(x), decide(a, Some(x))))
  }

  ghost predicate Complete(sim: Simulator, groups: Groups, decide: (Action, Option<string>) -> string) {
    && AllAnswered(sim, groups)
    && forall i :: 0 <= i < |groups| ==> CompleteFor(ResultsOf(sim(groups[i].0, groups[i].1)), groups[i].0, groups[i].1, decide)
  }

  /** Allowed on every resource of the first statement that allows it by one of its patterns, of which there is at least one. */
  predicate AllowedThroughout(p: Policy, a: Action, decide: (Action, Option<string>) -> string) {
    exists i, k ::
      && 0 <= i < |p.statements| && p.statements[i].allow
      && 0 <= k < |p.statements[i].patterns| && p.matches(a, p.statements[i].patterns[k])
      && (forall j :: 0 <= j < i && p.statements[j].allow ==>
            forall m :: 0 <= m < |p.statements[j].patterns| ==> !p.matches(a, p.statements[j].patterns[m]))
      && match p.statements[i].resource
         case Any => decide(a, None) == "allowed"
         case Arns(arns) => arns != [] && forall x :: x in arns ==> decide(a, Some(x)) == "allowed"
  }

  /** The simulated resources are those of that statement. */
  lemma KeyDecides(p: Policy, a: Action, decide: (Action, Option<string>) -> string)
    ensures AllowedThroughout(p, a, decide) <==>
            && Granted(p, a)
            && match KeyOf(p, a)
               case None => decide(a, None) == "allowed"
               case Some(arns) => arns != [] && forall x :: x in arns ==> decide(a, Some(x)) == "allowed"
  {
    FirstGrantIs(p, a);
  }

  lemma {:induction false} AnswersMember(sim: Simulator, groups: Groups, e: Evaluation)
    ensures e in Answers(sim, groups) <==> exists i :: 0 <= i < |groups| && e in ResultsOf(sim(groups[i].0, groups[i].1))
  {
    if groups != [] {
      var (front, g) := (groups[..|groups| - 1], groups[|groups| - 1]);
      AnswersMember(sim, front, e);
      assert e in Answers(sim, groups) <==> e in Answers(sim, front) || e in ResultsOf(sim(g.0, g.1));
    }
  }

  /** Each required action is simulated in exactly one group, the one of its own key. */
  lemma OneGroupEach(p: Policy, required: seq<Action>, key: Key, a: Action)
    ensures var groups := Grouped(Keyed(p, required));
            && Distinct(Keys(groups))
            && (a in ValuesAt(groups, key) <==> a in required && KeyOf(p, a) == key)
  {
    hide KeyOf, Get;
    var items := Keyed(p, required);
    GroupedDistinct(items);
    GroupedAt(items, key);
    OfKeyMember(items, key, a);
    if (key, a) in items {
      var i :| 0 <= i < |items| && items[i] == (key, a);
    }
    if a in required && KeyOf(p, a) == key {
      var i :| 0 <= i < |required| && required[i] == a;
      assert items[i] == (key, a);
    }
  }

  type Decide = (Action, Option<string>) -> string

  ghost predicate CompleteSimulator(p: Policy, required: seq<Action>, sim: Simulator, decide: Decide) {
    Complete(sim, Grouped(Keyed(p, required)), decide)
  }

  /** Whatever is evaluated of an action comes from its own group. */
  lemma EvaluatedInGroup(p: Policy, required: seq<Action>, sim: Simulator, decide: Decide, a: Action, rec: Record)
    requires CompleteSimulator(p, required, sim, decide)
    requires (a, rec) in Answers(sim, Grouped(Keyed(p, required)))
    ensures a in required
    ensures match KeyOf(p, a)
            case None => rec.decision == decide(a, None)
            case Some(arns) => rec.resource.Some? && rec.resource.value in arns && rec.decision == decide(a, rec.resource)
  {
    hide KeyOf, Get, Keys, Grouped;
    var groups := Grouped(Keyed(p, required));
    AnswersMember(sim, groups, (a, rec));
    var i :| 0 <= i < |groups| && (a, rec) in ResultsOf(sim(groups[i].0, groups[i].1));
    assert Decides(ResultsOf(sim(groups[i].0, groups[i].1)), a, rec.resource, rec.decision);
    OneGroupEach(p, required, groups[i].0, a);
    GetAt(groups, i);
  }

  /** And its own group evaluates it on every resource. */
  lemma GroupEvaluates(p: Policy, required: seq<Action>, sim: Simulator, decide: Decide, a: Action)
    requires CompleteSimulator(p, required, sim, decide) && a in required
    ensures var all := Answers(sim, Grouped(Keyed(p, required)));
            match KeyOf(p, a)
            case None => exists resource :: Decides(all, a, resource, decide(a, None))
            case Some(arns) => forall x :: x in arns ==> Decides(all, a, Some(x), decide(a, Some(x)))
  {
    hide KeyOf, Get, Keys, Grouped, Answers;
    var groups := Grouped(Keyed(p, required));
    OneGroupEach(p, required, KeyOf(p, a), a);
    var i := HasIndex(groups, KeyOf(p, a));
    var results := ResultsOf(sim(groups[i].0, groups[i].1));
    forall e | e in results ensures e in Answers(sim, groups) {
      AnswersMember(sim, groups, e);
    }
    match KeyOf(p, a)
    case None =>
      var resource :| Decides(results, a, resource, decide(a, None));
      assert Decides(Answers(sim, groups), a, resource, decide(a, None));
    case Some(arns) =>
      forall x | x in arns ensures Decides(Answers(sim, groups), a, Some(x), decide(a, Some(x))) {
        assert Decides(results, a, Some(x), decide(a, Some(x)));
      }
  }

  /** A required action has a verdict unless its statement lists no resource; the verdict is that of all its resources. */
  lemma VerdictMeans(p: Policy, required: seq<Action>, sim: Simulator, decide: Decide, a: Action)
    requires CompleteSimulator(p, required, sim, decide) && a in required
    ensures var records := OfKey(Answers(sim, Grouped(Keyed(p, required))), a);
            && (records == [] <==> KeyOf(p, a) == Some([]))
            && (Granted(p, a) && records != [] && Verdict(records) == "allowed" <==> AllowedThroughout(p, a, decide))
  {
    KeyDecides(p, a, decide);
    hide Granted, AllowedThroughout, KeyOf, Grouped, Answers, Verdict, OfKey, CompleteSimulator;
    var all := Answers(sim, Grouped(Keyed(p, required)));
    var records := OfKey(all, a);
    VerdictIsAll(records);
    forall rec ensures rec in records <==> (a, rec) in all {
      OfKeyMember(all, a, rec);
    }
    forall rec | rec in records
      ensures match KeyOf(p, a)
              case None => rec.decision == decide(a, None)
              case Some(arns) => rec.resource.Some? && rec.resource.value in arns && rec.decision == decide(a, rec.resource) {
      EvaluatedInGroup(p, required, sim, decide, a, rec);
    }
    GroupEvaluates(p, required, sim, decide, a);
    match KeyOf(p, a)
    case None =>
      var resource :| Decides(all, a, resource, decide(a, None));
      assert Record(resource, decide(a, None)) in records;
    case Some(arns) =>
      assert forall x :: x in arns ==> Record(Some(x), decide(a, Some(x))) in records by {
        assert forall x :: x in arns ==> Decides(all, a, Some(x), decide(a, Some(x)));
      }
      assert records != [] ==> records[0] in records;
      assert arns != [] ==> arns[0] in arns;
  }

  /** Only required actions are simulated. */
  lemma OnlyRequired(p: Policy, required: seq<Action>, sim: Simulator, decide: Decide, a: Action)
    requires CompleteSimulator(p, required, sim, decide)
    requires OfKey(Answers(sim, Grouped(Keyed(p, required))), a) != []
    ensures a in required
  {
    hide OfKey, Answers, Grouped, CompleteSimulator;
    var all := Answers(sim, Grouped(Keyed(p, required)));
    var rec := OfKey(all, a)[0];
    OfKeyMember(all, a, rec);
    EvaluatedInGroup(p, required, sim, decide, a, rec);
  }

  /**
   The verdict means what it says: exit 0 holds exactly when each required action is excused by a
   dropped optional statement, or granted and allowed on every resource of its first granting
   statement.
   */
  lemma ExitMeans(p: Policy, cond: Conditional, required: seq<Action>, sim: Simulator, decide: Decide, r: Report)
    requires CompleteSimulator(p, required, sim, decide)
    requires Reports(r, p, cond, required, Answers(sim, Grouped(Keyed(p, required))))
    ensures r.exit == 0 <==> forall a :: a in required ==> Excused(p, cond, a) || AllowedThroughout(p, a, decide)
  {
    hide OfKey, Answers, Grouped, CompleteSimulator, Excused, Granted, AllowedThroughout, Get, Verdict, Found;
    ExcusedUngranted(p, cond, required);
    forall a | a in required
      ensures a in r.simulated <==> KeyOf(p, a) != Some([])
      ensures Granted(p, a) && a in r.simulated && r.simulated[a] == "allowed" <==> AllowedThroughout(p, a, decide)
      ensures !Granted(p, a) ==> KeyOf(p, a) == None
    {
      VerdictMeans(p, required, sim, decide, a);
      UngrantedKey(p, a);
    }
    forall a | a in r.denied ensures a in required {
      OnlyRequired(p, required, sim, decide, a);
    }
    if r.exit == 0 {
      forall a | a in required ensures Excused(p, cond, a) || AllowedThroughout(p, a, decide) {
        assert a !in r.ungranted && a !in r.missing && a !in r.denied;
      }
    }
  }

  lemma UngrantedKey(p: Policy, a: Action)
    ensures !Granted(p, a) ==> KeyOf(p, a) == None
  {
  }

  /** No resource to simulate: the first statement that allows the action lists none. */
  lemma KeyEmpty(p: Policy, a: Action)
    ensures KeyOf(p, a) == Some([]) <==>
            exists i, k ::
              && 0 <= i < |p.statements| && p.statements[i].allow && p.statements[i].resource == Arns([])
              && 0 <= k < |p.statements[i].patterns| && p.matches(a, p.statements[i].patterns[k])
              && forall j :: 0 <= j < i && p.statements[j].allow ==>
                   forall m :: 0 <= m < |p.statements[j].patterns| ==> !p.matches(a, p.statements[j].patterns[m])
  {
    FirstGrantIs(p, a);
  }

  /** Each required action is in exactly one class: allowed, denied, ungranted, not applicable, or missing, which means granted on no resource at all. */
  lemma ClassesPartition(p: Policy, cond: Conditional, required: seq<Action>, sim: Simulator, decide: Decide, r: Report, a: Action)
    requires CompleteSimulator(p, required, sim, decide) && a in required
    requires Reports(r, p, cond, required, Answers(sim, Grouped(Keyed(p, required))))
    ensures var allowed := AllowedThroughout(p, a, decide);
            && (allowed || a in r.denied || a in r.ungranted || a in r.notApplicable || a in r.missing)
            && !(allowed && (a in r.denied || a in r.ungranted || a in r.notApplicable || a in r.missing))
            && !(a in r.denied && (a in r.ungranted || a in r.notApplicable || a in r.missing))
            && !(a in r.ungranted && (a in r.notApplicable || a in r.missing))
            && !(a in r.notApplicable && a in r.missing)
            && (a in r.missing <==>
                exists i, k ::
                  && 0 <= i < |p.statements| && p.statements[i].allow && p.statements[i].resource == Arns([])
                  && 0 <= k < |p.statements[i].patterns| && p.matches(a, p.statements[i].patterns[k])
                  && forall j :: 0 <= j < i && p.statements[j].allow ==>
                       forall m :: 0 <= m < |p.statements[j].patterns| ==> !p.matches(a, p.statements[j].patterns[m]))
  {
    KeyEmpty(p, a);
    hide OfKey, Answers, Grouped, CompleteSimulator, Excused, Granted, AllowedThroughout, Get, Verdict, Found;
    ExcusedUngranted(p, cond, required);
    VerdictMeans(p, required, sim, decide, a);
    UngrantedKey(p, a);
  }
}
