// Automation rules over a domain event's payload: condition matching, and the effects of an attempt on the tables
// (automation.service.ts).
module Automation {
  import opened Common
  import opened Text

  // Object fields in insertion order, names distinct.
  datatype Json =
    | Null | Bool(b: bool) | Num(n: real) | Str(s: string) | Arr(items: seq<Json>) | Obj(fields: seq<(string, Json)>)

  datatype Operator = Eq | Neq | Gt | Gte | Lt | Lte | Contains | Exists

  datatype Condition = Condition(path: string, op: Operator, value: Option<Json>)

  // JavaScript's Number(x), None for NaN, and String(x).
  datatype Conversions = Conversions(number: Option<Json> -> Option<real>, text: Option<Json> -> string)

  function Field(fields: seq<(string, Json)>, name: string): (found: Option<Json>)
    ensures found.Some? ==> (name, found.value) in fields
    ensures found.None? ==> forall k :: 0 <= k < |fields| ==> fields[k].0 != name
  {
    if fields == [] then None
    else if fields[0].0 == name then Some(fields[0].1) else Field(fields[1..], name)
  }

  // The value the parts lead to through own fields of objects.
  function Lookup(value: Json, parts: seq<string>): Option<Json> {
    if parts == [] then Some(value)
    else if !value.Obj? then None
    else match Field(value.fields, parts[0])
      case None => None
      case Some(child) => Lookup(child, parts[1..])
  }

  method ValueAt(payload: Json, path: string) returns (r: Option<Json>)
    ensures r == Lookup(payload, Split(path, '.'))
  {
    var parts := Split(path, '.');
    var current := payload;
    var i := 0;
    while i < |parts|
      invariant 0 <= i <= |parts|
      invariant Lookup(payload, parts) == Lookup(current, parts[i..])
    {
      if !current.Obj? { return None; }
      var child := Field(current.fields, parts[i]);
      if child.None? { return None; }
      assert parts[i..][0] == parts[i] && parts[i..][1..] == parts[i + 1..];
      current := child.value;
      i := i + 1;
    }
    assert parts[i..] == [];
    r := Some(current);
  }

  predicate Includes(s: string, t: string) {
    t <= s || (s != "" && Includes(s[1..], t))
  }

  predicate Compares(op: Operator, x: Option<real>, y: Option<real>) {
    x.Some? && y.Some? && match op
      case Gt => x.value > y.value
      case Gte => x.value >= y.value
      case Lt => x.value < y.value
      case Lte => x.value <= y.value
      case _ => false
  }

  // JSON.stringify of two parsed values agrees exactly when the values do.
  predicate Holds(payload: Json, c: Condition, f: Conversions) {
    var actual := Lookup(payload, Split(c.path, '.'));
    match c.op
    case Exists => actual.Some? == (c.value != Some(Bool(false)))
    case Eq => actual.Some? && actual == c.value
    case Neq => actual.None? || actual != c.value
    case Contains =>
      actual.Some? && ((actual.value.Arr? && c.value.Some? && c.value.value in actual.value.items)
                       || (actual.value.Str? && Includes(actual.value.s, f.text(c.value))))
    case _ => actual.Some? && Compares(c.op, f.number(actual), f.number(c.value))
  }

  datatype ConditionResult = ConditionResult(path: string, op: Operator, matched: bool)

  function Results(payload: Json, conditions: seq<Condition>, f: Conversions): (r: seq<ConditionResult>)
    ensures |r| == |conditions|
  {
    seq(|conditions|, k requires 0 <= k < |conditions| =>
      ConditionResult(conditions[k].path, conditions[k].op, Holds(payload, conditions[k], f)))
  }

  predicate Matches(payload: Json, conditions: seq<Condition>, f: Conversions) {
    forall k :: 0 <= k < |conditions| ==> Results(payload, conditions, f)[k].matched
  }

  // ---- The tables of one event ----

  datatype Action = CreateAlert(severity: string, title: string) | EmitWebhook | Other

  datatype Rule = Rule(id: nat, conditions: seq<Condition>, actions: seq<Action>)

  datatype Alert = Alert(rule: nat, severity: string, title: string)

  datatype ActionResult = Created | AlreadyExists | Queued(endpoints: nat)

  // Status SUCCEEDED or NO_MATCH, with the condition results.
  datatype Outcome = Outcome(rule: nat, matched: bool, conditions: seq<ConditionResult>)

  datatype RuleRun = RuleRun(outcome: Outcome, actions: seq<ActionResult>)

  // The rows of one event; alerts and runs are unique by rule, webhook rows carry generated ids.
  datatype Effects = Effects(alerts: seq<Alert>, runs: seq<RuleRun>, hooks: seq<nat>)

  const NOTHING := Effects([], [], [])

  // What an attempt works on: the event's payload, the enabled rules in order, and the subscribed endpoints.
  datatype Job = Job(payload: Json, rules: seq<Rule>, f: Conversions, endpoints: nat)

  predicate HasAlert(alerts: seq<Alert>, rule: nat) { exists k :: 0 <= k < |alerts| && alerts[k].rule == rule }

  predicate HasRun(runs: seq<RuleRun>, rule: nat) { exists k :: 0 <= k < |runs| && runs[k].outcome.rule == rule }

  function Repeat(rule: nat, n: nat): (r: seq<nat>)
    ensures |r| == n && forall k :: 0 <= k < n ==> r[k] == rule
  {
    seq(n, _ => rule)
  }

  // One action: its statement and the result it reports.
  function Perform(s: Effects, rule: nat, a: Action, endpoints: nat): (Effects, seq<ActionResult>) {
    match a
    case CreateAlert(severity, title) =>
      if HasAlert(s.alerts, rule) then (s, [AlreadyExists])
      else (s.(alerts := s.alerts + [Alert(rule, severity, title)]), [Created])
    case EmitWebhook => (s.(hooks := s.hooks + Repeat(rule, endpoints)), [Queued(endpoints)])
    case Other => (s, [])
  }

  function PerformUpTo(s: Effects, r: Rule, k: nat, endpoints: nat): (Effects, seq<ActionResult>)
    requires k <= |r.actions|
  {
    if k == 0 then (s, [])
    else
      var (t, results) := PerformUpTo(s, r, k - 1, endpoints);
      var (u, more) := Perform(t, r.id, r.actions[k - 1], endpoints);
      (u, results + more)
  }

  predicate Fires(j: Job, r: Rule) { Matches(j.payload, r.conditions, j.f) }

  function OutcomeOf(j: Job, r: Rule): Outcome {
    Outcome(r.id, Fires(j, r), Results(j.payload, r.conditions, j.f))
  }

  // ON CONFLICT DO NOTHING
  function RecordRun(s: Effects, run: RuleRun): Effects {
    if HasRun(s.runs, run.outcome.rule) then s else s.(runs := s.runs + [run])
  }

  function AttemptRule(s: Effects, j: Job, r: Rule): Effects {
    if HasRun(s.runs, r.id) then s
    else
      var (t, results) := PerformUpTo(s, r, if Fires(j, r) then |r.actions| else 0, j.endpoints);
      RecordRun(t, RuleRun(OutcomeOf(j, r), results))
  }

  function AttemptUpTo(s: Effects, j: Job, n: nat): Effects
    requires n <= |j.rules|
  {
    if n == 0 then s else AttemptRule(AttemptUpTo(s, j, n - 1), j, j.rules[n - 1])
  }

  // An attempt that nothing interrupts.
  function Attempt(s: Effects, j: Job): Effects { AttemptUpTo(s, j, |j.rules|) }

  class EventTables {
    var alerts: seq<Alert>
    var runs: seq<RuleRun>
    var hooks: seq<nat>

    ghost function Contents(): Effects
      reads this
    {
      Effects(alerts, runs, hooks)
    }

    constructor ()
      ensures Contents() == NOTHING
    {
      alerts, runs, hooks := [], [], [];
    }

    method PerformActions(r: Rule, endpoints: nat) returns (results: seq<ActionResult>)
      modifies this
      ensures Contents() == PerformUpTo(old(Contents()), r, |r.actions|, endpoints).0
      ensures results == PerformUpTo(old(Contents()), r, |r.actions|, endpoints).1
    {
      results := [];
      var k := 0;
      while k < |r.actions|
        invariant 0 <= k <= |r.actions|
        invariant (Contents(), results) == PerformUpTo(old(Contents()), r, k, endpoints)
      {
        match r.actions[k] {
          case CreateAlert(severity, title) =>
            if HasAlert(alerts, r.id) {
              results := results + [AlreadyExists];
            } else {
              alerts := alerts + [Alert(r.id, severity, title)];
              results := results + [Created];
            }
          case EmitWebhook =>
            hooks := hooks + Repeat(r.id, endpoints);
            results := results + [Queued(endpoints)];
          case Other =>
            assert results + [] == results;
        }
        k := k + 1;
      }
    }

    method RunRules(j: Job)
      modifies this
      ensures Contents() == Attempt(old(Contents()), j)
    {
      var n := 0;
      while n < |j.rules|
        invariant 0 <= n <= |j.rules|
        invariant Contents() == AttemptUpTo(old(Contents()), j, n)
      {
        var r := j.rules[n];
        if !HasRun(runs, r.id) {
          var matched := Matches(j.payload, r.conditions, j.f);
          var results := [];
          if matched { results := PerformActions(r, j.endpoints); }
          if !HasRun(runs, r.id) {
            runs := runs + [RuleRun(Outcome(r.id, matched, Results(j.payload, r.conditions, j.f)), results)];
          }
        }
        n := n + 1;
      }
    }
  }
}
