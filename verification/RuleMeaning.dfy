// What a rule's conditions mean, apart from how they are evaluated: when a value stands at a path, when each operator
// is met, and what an attempt therefore records and raises.
module RuleMeaning {
  import opened Common
  import opened Text
  import opened Automation
  import opened AutomationLaws

  // ---- Values at paths ----

  // v stands in value at the end of the parts, each an object's own field.
  ghost predicate Stands(value: Json, parts: seq<string>, v: Json) {
    if parts == [] then value == v
    else value.Obj? && exists k :: 0 <= k < |value.fields| && value.fields[k].0 == parts[0]
                                   && Stands(value.fields[k].1, parts[1..], v)
  }

  // No object has two fields of one name, as in any parsed payload.
  ghost predicate Parsed(value: Json) {
    match value
    case Obj(fields) =>
      && (forall i, k :: 0 <= i < k < |fields| ==> fields[i].0 != fields[k].0)
      && (forall k :: 0 <= k < |fields| ==> Parsed(fields[k].1))
    case _ => true
  }

  lemma FieldStands(fields: seq<(string, Json)>, k: nat)
    requires k < |fields| && forall i, j :: 0 <= i < j < |fields| ==> fields[i].0 != fields[j].0
    ensures Field(fields, fields[k].0) == Some(fields[k].1)
  {
    var found := Field(fields, fields[k].0);
    var j :| 0 <= j < |fields| && fields[j] == (fields[k].0, found.value);
  }

  lemma {:induction false} LookupStands(value: Json, parts: seq<string>, v: Json)
    requires Parsed(value)
    ensures Lookup(value, parts) == Some(v) <==> Stands(value, parts, v)
  {
    if parts != [] && value.Obj? {
      var found := Field(value.fields, parts[0]);
      if found.Some? {
        var k :| 0 <= k < |value.fields| && value.fields[k] == (parts[0], found.value);
        LookupStands(found.value, parts[1..], v);
        forall i | 0 <= i < |value.fields| && value.fields[i].0 == parts[0] ensures i == k {}
      }
    }
  }

  ghost predicate At(payload: Json, path: string, v: Json) { Stands(payload, Split(path, '.'), v) }

  // ---- Conditions ----

  // The value at the path and the condition's value are numbers a and b.
  ghost predicate Numbers(payload: Json, c: Condition, f: Conversions, a: real, b: real) {
    f.number(c.value) == Some(b) && exists v :: At(payload, c.path, v) && f.number(Some(v)) == Some(a)
  }

  predicate Begins(s: string, t: string, i: int) { 0 <= i <= |s| - |t| && s[i..i + |t|] == t }

  ghost predicate Holding(s: string, t: string) { exists i :: Begins(s, t, i) }

  ghost predicate Member(v: Json, c: Condition, f: Conversions) {
    || (v.Arr? && exists k :: 0 <= k < |v.items| && c.value == Some(v.items[k]))
    || (v.Str? && Holding(v.s, f.text(c.value)))
  }

  ghost predicate Met(payload: Json, c: Condition, f: Conversions) {
    match c.op
    case Exists => (exists v :: At(payload, c.path, v)) <==> c.value != Some(Bool(false))
    case Eq => c.value.Some? && At(payload, c.path, c.value.value)
    case Neq => !(c.value.Some? && At(payload, c.path, c.value.value))
    case Gt => exists a, b :: Numbers(payload, c, f, a, b) && a > b
    case Gte => exists a, b :: Numbers(payload, c, f, a, b) && a >= b
    case Lt => exists a, b :: Numbers(payload, c, f, a, b) && a < b
    case Lte => exists a, b :: Numbers(payload, c, f, a, b) && a <= b
    case Contains => exists v :: At(payload, c.path, v) && Member(v, c, f)
  }

  lemma {:induction false} IncludesIff(s: string, t: string)
    ensures Includes(s, t) <==> Holding(s, t)
  {
    assert Begins(s, t, 0) ==> s[..|t|] == t;
    if t <= s {
      assert Begins(s, t, 0);
    } else if s != "" {
      IncludesIff(s[1..], t);
      if Holding(s[1..], t) {
        var i :| Begins(s[1..], t, i);
        assert s[1..][i..i + |t|] == s[i + 1..i + 1 + |t|];
        assert Begins(s, t, i + 1);
      }
      if Holding(s, t) {
        var i :| Begins(s, t, i);
        assert s[1..][i - 1..i - 1 + |t|] == s[i..i + |t|];
        assert Begins(s[1..], t, i - 1);
      }
    }
  }

  lemma LookupIsAt(payload: Json, path: string)
    requires Parsed(payload)
    ensures Lookup(payload, Split(path, '.')).Some? <==> exists v :: At(payload, path, v)
    ensures forall v :: Lookup(payload, Split(path, '.')) == Some(v) <==> At(payload, path, v)
  {
    forall v ensures Lookup(payload, Split(path, '.')) == Some(v) <==> At(payload, path, v) {
      LookupStands(payload, Split(path, '.'), v);
    }
  }

  // The four comparisons, of numbers.
  lemma ComparesMet(payload: Json, c: Condition, f: Conversions)
    requires Parsed(payload) && c.op in {Gt, Gte, Lt, Lte}
    ensures Holds(payload, c, f) <==> Met(payload, c, f)
  {
    LookupIsAt(payload, c.path);
    var actual := Lookup(payload, Split(c.path, '.'));
    if Met(payload, c, f) {
      var a, b :| Numbers(payload, c, f, a, b);
    }
    if actual.Some? && f.number(actual).Some? && f.number(c.value).Some? {
      assert At(payload, c.path, actual.value);
      assert Numbers(payload, c, f, f.number(actual).value, f.number(c.value).value);
    }
  }

  lemma HoldsMet(payload: Json, c: Condition, f: Conversions)
    requires Parsed(payload)
    ensures Holds(payload, c, f) <==> Met(payload, c, f)
  {
    LookupIsAt(payload, c.path);
    var actual := Lookup(payload, Split(c.path, '.'));
    if c.op in {Gt, Gte, Lt, Lte} {
      ComparesMet(payload, c, f);
    } else if c.op == Contains && actual.Some? {
      assert At(payload, c.path, actual.value);
      if actual.value.Str? { IncludesIff(actual.value.s, f.text(c.value)); }
    }
  }

  // What is recorded of each condition is whether it is met, and a rule fires when all of its are.
  lemma ResultsAreMet(payload: Json, conditions: seq<Condition>, f: Conversions)
    requires Parsed(payload)
    ensures forall k :: 0 <= k < |conditions| ==>
              Results(payload, conditions, f)[k] ==
                ConditionResult(conditions[k].path, conditions[k].op, Met(payload, conditions[k], f))
    ensures Matches(payload, conditions, f) <==> forall k :: 0 <= k < |conditions| ==> Met(payload, conditions[k], f)
  {
    forall k | 0 <= k < |conditions|
      ensures Results(payload, conditions, f)[k] ==
                ConditionResult(conditions[k].path, conditions[k].op, Met(payload, conditions[k], f))
    {
      HoldsMet(payload, conditions[k], f);
    }
  }

  // ---- How the operators relate ----

  ghost predicate MetBy(payload: Json, c: Condition, f: Conversions, op: Operator) { Met(payload, c.(op := op), f) }

  lemma TheNumbers(payload: Json, c: Condition, f: Conversions, op: Operator, a: real, b: real)
    requires Parsed(payload) && Numbers(payload, c, f, a, b)
    ensures Numbers(payload, c.(op := op), f, a, b)
    ensures forall x, y :: Numbers(payload, c.(op := op), f, x, y) ==> x == a && y == b
  {
    LookupIsAt(payload, c.path);
    var v :| At(payload, c.path, v) && f.number(Some(v)) == Some(a);
  }

  // With a number at the path and a number to compare with, Gt and Lte exclude each other and leave nothing out, and so
  // do Lt and Gte; on equal numbers only Gte and Lte are met. Eq and Neq do so whatever stands at the path.
  lemma OperatorsRelate(payload: Json, c: Condition, f: Conversions, a: real, b: real)
    requires Parsed(payload) && Numbers(payload, c, f, a, b)
    ensures MetBy(payload, c, f, Gt) <==> !MetBy(payload, c, f, Lte)
    ensures MetBy(payload, c, f, Lt) <==> !MetBy(payload, c, f, Gte)
    ensures a == b ==> MetBy(payload, c, f, Gte) && MetBy(payload, c, f, Lte)
    ensures a == b ==> !MetBy(payload, c, f, Gt) && !MetBy(payload, c, f, Lt)
    ensures MetBy(payload, c, f, Eq) <==> !MetBy(payload, c, f, Neq)
  {
    TheNumbers(payload, c, f, Gt, a, b);
    TheNumbers(payload, c, f, Gte, a, b);
    TheNumbers(payload, c, f, Lt, a, b);
    TheNumbers(payload, c, f, Lte, a, b);
  }

  // A higher number keeps Gt and Gte met, a lower one Lt and Lte.
  lemma ThresholdsAreMonotone(payload: Json, other: Json, c: Condition, f: Conversions, low: real, high: real, b: real)
    requires Parsed(payload) && Parsed(other) && low <= high
    requires Numbers(payload, c, f, low, b) && Numbers(other, c, f, high, b)
    ensures MetBy(payload, c, f, Gt) ==> MetBy(other, c, f, Gt)
    ensures MetBy(payload, c, f, Gte) ==> MetBy(other, c, f, Gte)
    ensures MetBy(other, c, f, Lt) ==> MetBy(payload, c, f, Lt)
    ensures MetBy(other, c, f, Lte) ==> MetBy(payload, c, f, Lte)
  {
    TheNumbers(payload, c, f, Gt, low, b);
    TheNumbers(payload, c, f, Gte, low, b);
    TheNumbers(payload, c, f, Lt, low, b);
    TheNumbers(payload, c, f, Lte, low, b);
    TheNumbers(other, c, f, Gt, high, b);
    TheNumbers(other, c, f, Gte, high, b);
    TheNumbers(other, c, f, Lt, high, b);
    TheNumbers(other, c, f, Lte, high, b);
  }

  // ---- What an attempt records and raises ----

  ghost predicate AllMet(j: Job, r: Rule) {
    forall k :: 0 <= k < |r.conditions| ==> Met(j.payload, r.conditions[k], j.f)
  }

  // Action a is the rule's first CREATE_ALERT.
  predicate FirstCreate(r: Rule, a: nat) {
    a < |r.actions| && r.actions[a].CreateAlert? && forall i :: 0 <= i < a ==> !r.actions[i].CreateAlert?
  }

  ghost predicate Creates(r: Rule) { exists a :: 0 <= a < |r.actions| && r.actions[a].CreateAlert? }

  lemma {:induction false} FirstAlertIs(r: Rule, n: nat)
    requires n <= |r.actions|
    ensures match FirstAlert(r, n)
            case None => forall i :: 0 <= i < n ==> !r.actions[i].CreateAlert?
            case Some(alert) =>
              exists a :: 0 <= a < n && FirstCreate(r, a)
                          && alert == Alert(r.id, r.actions[a].severity, r.actions[a].title)
  {
    if n > 0 {
      FirstAlertIs(r, n - 1);
      if FirstAlert(r, n - 1).None? && r.actions[n - 1].CreateAlert? { assert FirstCreate(r, n - 1); }
    }
  }

  // After an attempt on an event met for the first time, each rule has one run, which says of each condition whether it
  // is met and is matched exactly when all are; and it has an alert, its first CREATE_ALERT's, exactly when matched and
  // it has such an action.
  lemma AttemptFollowsConditions(j: Job, k: nat)
    requires Distinct(j) && Parsed(j.payload) && k < |j.rules|
    ensures var t, r := Attempt(NOTHING, j), j.rules[k];
      && |t.runs| == |j.rules|
      && t.runs[k].outcome.rule == r.id && (t.runs[k].outcome.matched <==> AllMet(j, r))
      && |t.runs[k].outcome.conditions| == |r.conditions|
      && (forall i :: 0 <= i < |r.conditions| ==>
            t.runs[k].outcome.conditions[i].matched == Met(j.payload, r.conditions[i], j.f))
      && (HasAlert(t.alerts, r.id) <==> AllMet(j, r) && Creates(r))
  {
    var t, r := Attempt(NOTHING, j), j.rules[k];
    AloneCompletes(j);
    assert Outcomes(t.runs)[k] == Expected(j, |j.rules|)[k];
    ResultsAreMet(j.payload, r.conditions, j.f);
    AlertsOf(j, |j.rules|, k);
    FirstAlertIs(r, |r.actions|);
  }

  // And what the alert says.
  lemma {:induction false} AlertsSay(j: Job, n: nat, i: nat)
    requires n <= |j.rules| && i < |Alerts(j, n)|
    ensures exists k, a: nat :: 0 <= k < n && FirstCreate(j.rules[k], a) && Fires(j, j.rules[k])
                           && Alerts(j, n)[i] == Alert(j.rules[k].id, j.rules[k].actions[a].severity,
                                                       j.rules[k].actions[a].title)
  {
    var r := j.rules[n - 1];
    if i < |Alerts(j, n - 1)| {
      AlertsSay(j, n - 1, i);
      assert Alerts(j, n)[i] == Alerts(j, n - 1)[i];
    } else {
      FirstAlertIs(r, |r.actions|);
    }
  }

  lemma AttemptAlertsSay(j: Job, i: nat)
    requires Distinct(j) && i < |Attempt(NOTHING, j).alerts|
    ensures exists k, a: nat :: 0 <= k < |j.rules| && FirstCreate(j.rules[k], a)
                           && Attempt(NOTHING, j).alerts[i] ==
                              Alert(j.rules[k].id, j.rules[k].actions[a].severity, j.rules[k].actions[a].title)
  {
    AloneCompletes(j);
    AlertsSay(j, |j.rules|, i);
  }

  // ---- What the actions report ----

  // The actions that report something, in order.
  function Reporting(actions: seq<Action>): seq<Action> {
    if actions == [] then []
    else Reporting(actions[..|actions| - 1]) + if actions[|actions| - 1].Other? then [] else [actions[|actions| - 1]]
  }

  ghost predicate CreatesBefore(actions: seq<Action>, n: nat) {
    exists i :: 0 <= i < n && i < |actions| && actions[i].CreateAlert?
  }

  // A CREATE_ALERT reports CREATED unless the rule has an alert or an earlier one made it; an EMIT_WEBHOOK reports how
  // many endpoints it queued for.
  ghost predicate Reports(s: Effects, id: nat, actions: seq<Action>, endpoints: nat, results: seq<ActionResult>) {
    && |results| == |actions|
    && forall i :: 0 <= i < |actions| ==>
         results[i] == if actions[i].EmitWebhook? then Queued(endpoints)
                       else if HasAlert(s.alerts, id) || CreatesBefore(actions, i) then AlreadyExists else Created
  }

  lemma {:induction false} CreatesAreReported(actions: seq<Action>)
    ensures CreatesBefore(Reporting(actions), |Reporting(actions)|) <==> CreatesBefore(actions, |actions|)
  {
    if actions != [] {
      var front, last := actions[..|actions| - 1], actions[|actions| - 1];
      CreatesAreReported(front);
      MoreCreates(front, last);
      assert actions == front + [last];
      if !last.Other? {
        MoreCreates(Reporting(front), last);
        assert Reporting(actions) == Reporting(front) + [last];
      } else {
        assert Reporting(actions) == Reporting(front);
      }
    }
  }

  lemma MoreCreates(actions: seq<Action>, a: Action)
    ensures CreatesBefore(actions + [a], |actions| + 1) <==> CreatesBefore(actions, |actions|) || a.CreateAlert?
  {
    var more := actions + [a];
    if CreatesBefore(more, |actions| + 1) && !a.CreateAlert? {
      var i :| 0 <= i < |more| && more[i].CreateAlert?;
      assert actions[i] == more[i];
    }
    if CreatesBefore(actions, |actions|) {
      var i :| 0 <= i < |actions| && actions[i].CreateAlert?;
      assert more[i] == actions[i];
    }
    if a.CreateAlert? { assert more[|actions|].CreateAlert?; }
  }

  lemma {:induction false} AlertsAfter(s: Effects, r: Rule, n: nat, endpoints: nat)
    requires n <= |r.actions|
    ensures HasAlert(PerformUpTo(s, r, n, endpoints).0.alerts, r.id)
       <==> HasAlert(s.alerts, r.id) || CreatesBefore(r.actions[..n], n)
  {
    if n > 0 {
      var before, a := PerformUpTo(s, r, n - 1, endpoints).0, r.actions[n - 1];
      AlertsAfter(s, r, n - 1, endpoints);
      assert r.actions[..n] == r.actions[..n - 1] + [a];
      MoreCreates(r.actions[..n - 1], a);
      if a.CreateAlert? && !HasAlert(before.alerts, r.id) {
        AlertAppended(before.alerts, Alert(r.id, a.severity, a.title), r.id);
      }
    }
  }

  lemma ReportsMore(s: Effects, id: nat, actions: seq<Action>, endpoints: nat, results: seq<ActionResult>, a: Action,
                    result: ActionResult)
    requires Reports(s, id, actions, endpoints, results) && !a.Other?
    requires result == if a.EmitWebhook? then Queued(endpoints)
                       else if HasAlert(s.alerts, id) || CreatesBefore(actions, |actions|) then AlreadyExists
                       else Created
    ensures Reports(s, id, actions + [a], endpoints, results + [result])
  {
    var more := actions + [a];
    forall i | 0 <= i < |more| ensures CreatesBefore(more, i) <==> CreatesBefore(actions, i) {
      if CreatesBefore(more, i) {
        var k :| 0 <= k < i && more[k].CreateAlert?;
        assert actions[k] == more[k];
      }
      if CreatesBefore(actions, i) {
        var k :| 0 <= k < i && k < |actions| && actions[k].CreateAlert?;
        assert more[k] == actions[k];
      }
    }
  }

  lemma {:induction false} ActionsReport(s: Effects, r: Rule, n: nat, endpoints: nat)
    requires n <= |r.actions|
    ensures Reports(s, r.id, Reporting(r.actions[..n]), endpoints, PerformUpTo(s, r, n, endpoints).1)
  {
    if n > 0 {
      var front, a := r.actions[..n - 1], r.actions[n - 1];
      ActionsReport(s, r, n - 1, endpoints);
      AlertsAfter(s, r, n - 1, endpoints);
      CreatesAreReported(front);
      assert r.actions[..n] == front + [a] && r.actions[..n][..n - 1] == front;
      var before, results := PerformUpTo(s, r, n - 1, endpoints).0, PerformUpTo(s, r, n - 1, endpoints).1;
      if !a.Other? {
        ReportsMore(s, r.id, Reporting(front), endpoints, results, a,
                    Perform(before, r.id, a, endpoints).1[0]);
      } else {
        assert Reporting(r.actions[..n]) == Reporting(front) && results + [] == results;
      }
    }
  }
}
