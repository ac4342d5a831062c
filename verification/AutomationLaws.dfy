// Attempts at one event that are cut off after any statement, claimed again, or overlap: what their effects have in
// common with one uninterrupted attempt.
module AutomationLaws {
  import opened Common
  import opened Automation

  // ---- Attempts as steps ----

  // looking: about to query for the rule's run. Otherwise action is the next one, or all are done and the run is next.
  datatype Runner = Runner(rule: nat, action: nat, results: seq<ActionResult>, looking: bool)

  datatype Scene = Scene(db: Effects, runners: seq<Runner>)

  // One statement of an attempt; endpoints is how many are subscribed at that moment. A runner that never moves again
  // was cut off there.
  function Advance(s: Effects, j: Job, x: Runner, endpoints: nat): (Effects, Runner) {
    if x.rule >= |j.rules| then (s, x)
    else
      var r := j.rules[x.rule];
      if x.looking then
        (s, if HasRun(s.runs, r.id) then Runner(x.rule + 1, 0, [], true)
            else Runner(x.rule, if Fires(j, r) then 0 else |r.actions|, [], false))
      else if x.action < |r.actions| then
        var (t, results) := Perform(s, r.id, r.actions[x.action], endpoints);
        (t, x.(action := x.action + 1, results := x.results + results))
      else
        (RecordRun(s, RuleRun(OutcomeOf(j, r), x.results)), Runner(x.rule + 1, 0, [], true))
  }

  datatype Op = Begin | Move(runner: nat, endpoints: nat)

  function Step(w: Scene, j: Job, op: Op): Scene {
    match op
    case Begin => w.(runners := w.runners + [Runner(0, 0, [], true)])
    case Move(i, endpoints) =>
      if i >= |w.runners| then w
      else
        var (t, y) := Advance(w.db, j, w.runners[i], endpoints);
        Scene(t, w.runners[i := y])
  }

  ghost function Run(j: Job, ops: seq<Op>): Scene {
    if ops == [] then Scene(NOTHING, []) else Step(Run(j, ops[..|ops| - 1]), j, ops[|ops| - 1])
  }

  // ---- What the rules ask for ----

  ghost predicate Distinct(j: Job) {
    forall a, b :: 0 <= a < b < |j.rules| ==> j.rules[a].id != j.rules[b].id
  }

  // The first CREATE_ALERT among the first k actions; later ones find the row taken.
  function FirstAlert(r: Rule, k: nat): Option<Alert>
    requires k <= |r.actions|
  {
    if k == 0 then None
    else if FirstAlert(r, k - 1).Some? then FirstAlert(r, k - 1)
    else if r.actions[k - 1].CreateAlert? then Some(Alert(r.id, r.actions[k - 1].severity, r.actions[k - 1].title))
    else None
  }

  function AlertOf(j: Job, r: Rule): Option<Alert> { if Fires(j, r) then FirstAlert(r, |r.actions|) else None }

  function Alerts(j: Job, n: nat): seq<Alert>
    requires n <= |j.rules|
  {
    if n == 0 then []
    else Alerts(j, n - 1) + match AlertOf(j, j.rules[n - 1]) case Some(a) => [a] case None => []
  }

  function Outcomes(runs: seq<RuleRun>): seq<Outcome> {
    seq(|runs|, k requires 0 <= k < |runs| => runs[k].outcome)
  }

  function Expected(j: Job, n: nat): seq<Outcome>
    requires n <= |j.rules|
  {
    seq(n, k requires 0 <= k < n => OutcomeOf(j, j.rules[k]))
  }

  // The alerts and outcomes of the first rules, in order, and perhaps the next rule's alert without its run.
  ghost predicate Partial(s: Effects, j: Job) {
    var m := |s.runs|;
    && m <= |j.rules|
    && Outcomes(s.runs) == Expected(j, m)
    && (s.alerts == Alerts(j, m) || (m < |j.rules| && s.alerts == Alerts(j, m + 1)))
  }

  // Every rule's alert and outcome: what one uninterrupted attempt leaves (AttemptCompletes).
  ghost predicate Complete(s: Effects, j: Job) {
    s.alerts == Alerts(j, |j.rules|) && Outcomes(s.runs) == Expected(j, |j.rules|)
  }

  ghost predicate RunnerOk(s: Effects, j: Job, x: Runner) {
    && x.rule <= |s.runs|
    && (x.rule < |j.rules| && !x.looking ==>
          var r := j.rules[x.rule];
          && x.action <= |r.actions| && (Fires(j, r) || x.action == |r.actions|)
          && (Fires(j, r) && FirstAlert(r, x.action).Some? ==> AlertIn(s, j, x.rule)))
  }

  // The alert of rule n is in, run recorded or not.
  ghost predicate AlertIn(s: Effects, j: Job, n: nat)
    requires n < |j.rules|
  {
    n < |s.runs| || s.alerts == Alerts(j, n + 1)
  }

  lemma FirstAlertRule(r: Rule, k: nat)
    requires k <= |r.actions| && FirstAlert(r, k).Some?
    ensures FirstAlert(r, k).value.rule == r.id && FirstAlert(r, |r.actions|) == FirstAlert(r, k)
    decreases |r.actions| - k, k
  {
    if k < |r.actions| { FirstAlertRule(r, k + 1); } else { FirstAlertId(r, k); }
  }

  lemma {:induction false} FirstAlertId(r: Rule, k: nat)
    requires k <= |r.actions| && FirstAlert(r, k).Some?
    ensures FirstAlert(r, k).value.rule == r.id
  {
    if FirstAlert(r, k - 1).Some? { FirstAlertId(r, k - 1); }
  }

  lemma AlertAppended(alerts: seq<Alert>, a: Alert, rule: nat)
    ensures HasAlert(alerts + [a], rule) <==> HasAlert(alerts, rule) || a.rule == rule
  {
    var more := alerts + [a];
    assert more[|alerts|] == a;
    if HasAlert(alerts, rule) {
      var i :| 0 <= i < |alerts| && alerts[i].rule == rule;
      assert more[i] == alerts[i];
    }
  }

  lemma {:induction false} AlertsOf(j: Job, n: nat, k: nat)
    requires Distinct(j) && n <= |j.rules| && k < |j.rules|
    ensures HasAlert(Alerts(j, n), j.rules[k].id) <==> k < n && AlertOf(j, j.rules[k]).Some?
  {
    if n > 0 {
      AlertsOf(j, n - 1, k);
      var r, before, after := j.rules[n - 1], Alerts(j, n - 1), Alerts(j, n);
      if AlertOf(j, r).Some? {
        FirstAlertId(r, |r.actions|);
        AlertAppended(before, AlertOf(j, r).value, j.rules[k].id);
        assert after == before + [AlertOf(j, r).value];
        assert k < n - 1 || k > n - 1 ==> j.rules[k].id != r.id;
      } else {
        assert after == before;
      }
    }
  }

  lemma RunsOf(s: Effects, j: Job, k: nat)
    requires Distinct(j) && Partial(s, j) && k < |j.rules|
    ensures HasRun(s.runs, j.rules[k].id) <==> k < |s.runs|
  {
    forall i | 0 <= i < |s.runs| ensures s.runs[i].outcome.rule == j.rules[i].id {
      assert Outcomes(s.runs)[i] == Expected(j, |s.runs|)[i];
    }
    if k < |s.runs| { assert s.runs[k].outcome.rule == j.rules[k].id; }
  }

  // ---- A step ----

  lemma PerformKeeps(s: Effects, j: Job, n: nat, k: nat, endpoints: nat)
    requires Distinct(j) && Partial(s, j) && n < |j.rules| && n <= |s.runs| && Fires(j, j.rules[n])
    requires k < |j.rules[n].actions| && (FirstAlert(j.rules[n], k).Some? ==> AlertIn(s, j, n))
    ensures var t := Perform(s, j.rules[n].id, j.rules[n].actions[k], endpoints).0;
      && Partial(t, j) && t.runs == s.runs && (t.alerts == s.alerts || (n == |s.runs| && t.alerts == Alerts(j, n + 1)))
      && (FirstAlert(j.rules[n], k + 1).Some? ==> AlertIn(t, j, n))
  {
    var r, m := j.rules[n], |s.runs|;
    if r.actions[k].CreateAlert? {
      FirstAlertRule(r, k + 1);
      AlertsOf(j, m, n);
      if m < |j.rules| { AlertsOf(j, m + 1, n); }
    }
  }

  lemma RecordKeeps(s: Effects, j: Job, n: nat, results: seq<ActionResult>)
    requires Distinct(j) && Partial(s, j) && n < |j.rules| && n <= |s.runs|
    requires AlertOf(j, j.rules[n]).Some? ==> AlertIn(s, j, n)
    ensures var t := RecordRun(s, RuleRun(OutcomeOf(j, j.rules[n]), results));
      Partial(t, j) && t.alerts == s.alerts && n < |t.runs| && |s.runs| <= |t.runs|
  {
    RunsOf(s, j, n);
    var t := RecordRun(s, RuleRun(OutcomeOf(j, j.rules[n]), results));
    if n == |s.runs| {
      assert Outcomes(t.runs) == Outcomes(s.runs) + [OutcomeOf(j, j.rules[n])];
      assert Expected(j, n + 1) == Expected(j, n) + [OutcomeOf(j, j.rules[n])];
    }
  }

  // Effects only grow, so what other runners have seen stays.
  lemma OthersStay(s: Effects, t: Effects, j: Job, x: Runner)
    requires Partial(s, j) && Partial(t, j) && RunnerOk(s, j, x) && |s.runs| <= |t.runs|
    requires t.alerts == s.alerts || (|t.runs| == |s.runs| < |j.rules| && t.alerts == Alerts(j, |s.runs| + 1))
    ensures RunnerOk(t, j, x)
  {
  }

  lemma AdvanceKeeps(s: Effects, j: Job, x: Runner, endpoints: nat)
    requires Distinct(j) && Partial(s, j) && RunnerOk(s, j, x)
    ensures var (t, y) := Advance(s, j, x, endpoints);
      && Partial(t, j) && RunnerOk(t, j, y) && |s.runs| <= |t.runs|
      && (t.alerts == s.alerts || (|t.runs| == |s.runs| < |j.rules| && t.alerts == Alerts(j, |s.runs| + 1)))
  {
    if x.rule < |j.rules| {
      var r := j.rules[x.rule];
      if x.looking {
        RunsOf(s, j, x.rule);
      } else if x.action < |r.actions| {
        PerformKeeps(s, j, x.rule, x.action, endpoints);
      } else {
        RecordKeeps(s, j, x.rule, x.results);
      }
    }
  }

  ghost predicate SceneOk(w: Scene, j: Job) {
    Partial(w.db, j) && forall i :: 0 <= i < |w.runners| ==> RunnerOk(w.db, j, w.runners[i])
  }

  lemma StepKeeps(w: Scene, j: Job, op: Op)
    requires Distinct(j) && SceneOk(w, j)
    ensures SceneOk(Step(w, j, op), j)
  {
    if op.Move? && op.runner < |w.runners| {
      var v := Step(w, j, op);
      AdvanceKeeps(w.db, j, w.runners[op.runner], op.endpoints);
      forall i | 0 <= i < |v.runners| ensures RunnerOk(v.db, j, v.runners[i]) {
        if i != op.runner { OthersStay(w.db, v.db, j, w.runners[i]); }
      }
    }
  }

  lemma {:induction false} RunKeeps(j: Job, ops: seq<Op>)
    requires Distinct(j)
    ensures SceneOk(Run(j, ops), j)
  {
    if ops == [] {
      assert Outcomes([]) == Expected(j, 0);
    } else {
      RunKeeps(j, ops[..|ops| - 1]);
      StepKeeps(Run(j, ops[..|ops| - 1]), j, ops[|ops| - 1]);
    }
  }

  // ---- Results ----

  lemma {:induction false} PerformAll(s: Effects, j: Job, n: nat, k: nat)
    requires Distinct(j) && Partial(s, j) && n < |j.rules| && n == |s.runs| && Fires(j, j.rules[n])
    requires k <= |j.rules[n].actions|
    ensures var t := PerformUpTo(s, j.rules[n], k, j.endpoints).0;
      && Partial(t, j) && t.runs == s.runs && (FirstAlert(j.rules[n], k).Some? ==> AlertIn(t, j, n))
  {
    if k > 0 {
      PerformAll(s, j, n, k - 1);
      PerformKeeps(PerformUpTo(s, j.rules[n], k - 1, j.endpoints).0, j, n, k - 1, j.endpoints);
    }
  }

  lemma AttemptRuleKeeps(s: Effects, j: Job, n: nat)
    requires Distinct(j) && Partial(s, j) && n < |j.rules| && n <= |s.runs|
    ensures Partial(AttemptRule(s, j, j.rules[n]), j) && n < |AttemptRule(s, j, j.rules[n]).runs|
  {
    RunsOf(s, j, n);
    var r := j.rules[n];
    if n == |s.runs| {
      var k := if Fires(j, r) then |r.actions| else 0;
      if Fires(j, r) { PerformAll(s, j, n, k); }
      var (t, results) := PerformUpTo(s, r, k, j.endpoints);
      RecordKeeps(t, j, n, results);
    }
  }

  lemma {:induction false} AttemptRules(s: Effects, j: Job, n: nat)
    requires Distinct(j) && Partial(s, j) && n <= |j.rules|
    ensures Partial(AttemptUpTo(s, j, n), j) && n <= |AttemptUpTo(s, j, n).runs|
  {
    if n > 0 {
      AttemptRules(s, j, n - 1);
      AttemptRuleKeeps(AttemptUpTo(s, j, n - 1), j, n - 1);
    }
  }

  lemma AttemptCompletes(s: Effects, j: Job)
    requires Distinct(j) && Partial(s, j)
    ensures Complete(Attempt(s, j), j)
  {
    AttemptRules(s, j, |j.rules|);
  }

  lemma AloneCompletes(j: Job)
    requires Distinct(j)
    ensures Complete(Attempt(NOTHING, j), j)
  {
    assert Outcomes(NOTHING.runs) == Expected(j, 0);
    AttemptCompletes(NOTHING, j);
  }

  // However earlier attempts were cut off or overlapped, an uninterrupted one then leaves the alerts and outcomes that
  // it would have left on its own.
  lemma CrashesDoNotShow(j: Job, ops: seq<Op>)
    requires Distinct(j)
    ensures var after, alone := Attempt(Run(j, ops).db, j), Attempt(NOTHING, j);
      after.alerts == alone.alerts && Outcomes(after.runs) == Outcomes(alone.runs)
  {
    RunKeeps(j, ops);
    AttemptCompletes(Run(j, ops).db, j);
    AloneCompletes(j);
  }

  // And as soon as any one of the overlapping attempts has come to its end, all of it is there.
  lemma OverlapDoesNotShow(j: Job, ops: seq<Op>, i: nat)
    requires Distinct(j) && i < |Run(j, ops).runners| && Run(j, ops).runners[i].rule >= |j.rules|
    ensures var w, alone := Run(j, ops).db, Attempt(NOTHING, j);
      w.alerts == alone.alerts && Outcomes(w.runs) == Outcomes(alone.runs)
  {
    RunKeeps(j, ops);
    assert RunnerOk(Run(j, ops).db, j, Run(j, ops).runners[i]);
    AloneCompletes(j);
  }

  ghost predicate OnePerRule(s: Effects) {
    && (forall a, b :: 0 <= a < b < |s.alerts| ==> s.alerts[a].rule != s.alerts[b].rule)
    && (forall a, b :: 0 <= a < b < |s.runs| ==> s.runs[a].outcome.rule != s.runs[b].outcome.rule)
  }

  // At every moment no rule has more than one alert or one run for the event.
  lemma {:induction false} NeverTwice(j: Job, ops: seq<Op>)
    ensures OnePerRule(Run(j, ops).db)
  {
    if ops != [] {
      NeverTwice(j, ops[..|ops| - 1]);
      var before := Run(j, ops[..|ops| - 1]);
      assert OnePerRule(before.db);
    }
  }

  // ---- Webhook rows ----

  function HooksOf(hooks: seq<nat>, rule: nat): nat {
    if hooks == [] then 0 else HooksOf(hooks[..|hooks| - 1], rule) + if hooks[|hooks| - 1] == rule then 1 else 0
  }

  // How many of the first n actions queue webhooks.
  function EmitCount(r: Rule, n: nat): nat
    requires n <= |r.actions|
  {
    if n == 0 then 0 else EmitCount(r, n - 1) + if r.actions[n - 1].EmitWebhook? then 1 else 0
  }

  // The step runs the EMIT_WEBHOOK statement of action a of rule k.
  predicate Emits(w: Scene, j: Job, op: Op, k: nat, a: nat)
    requires k < |j.rules|
  {
    && op.Move? && op.runner < |w.runners|
    && w.runners[op.runner].rule == k && !w.runners[op.runner].looking && w.runners[op.runner].action == a
    && a < |j.rules[k].actions| && j.rules[k].actions[a].EmitWebhook?
  }

  // How often the run did.
  ghost function EmissionsAt(j: Job, ops: seq<Op>, k: nat, a: nat): nat
    requires k < |j.rules|
  {
    if ops == [] then 0
    else EmissionsAt(j, ops[..|ops| - 1], k, a)
         + if Emits(Run(j, ops[..|ops| - 1]), j, ops[|ops| - 1], k, a) then 1 else 0
  }

  ghost function Emissions(j: Job, ops: seq<Op>, k: nat, n: nat): nat
    requires k < |j.rules|
  {
    if n == 0 then 0 else Emissions(j, ops, k, n - 1) + EmissionsAt(j, ops, k, n - 1)
  }

  lemma {:induction false} HooksConcat(xs: seq<nat>, ys: seq<nat>, rule: nat)
    ensures HooksOf(xs + ys, rule) == HooksOf(xs, rule) + HooksOf(ys, rule)
  {
    if ys == [] {
      assert xs + ys == xs;
    } else {
      assert (xs + ys)[..|xs + ys| - 1] == xs + ys[..|ys| - 1];
      HooksConcat(xs, ys[..|ys| - 1], rule);
    }
  }

  lemma {:induction false} HooksRepeated(rule: nat, n: nat, other: nat)
    ensures HooksOf(Repeat(rule, n), other) == if rule == other then n else 0
  {
    if n > 0 {
      assert Repeat(rule, n)[..n - 1] == Repeat(rule, n - 1);
      HooksRepeated(rule, n - 1, other);
    }
  }

  lemma PerformHooks(s: Effects, rule: nat, a: Action, endpoints: nat, other: nat)
    ensures HooksOf(Perform(s, rule, a, endpoints).0.hooks, other)
         == HooksOf(s.hooks, other) + if a.EmitWebhook? && rule == other then endpoints else 0
  {
    if a.EmitWebhook? {
      HooksConcat(s.hooks, Repeat(rule, endpoints), other);
      HooksRepeated(rule, endpoints, other);
    }
  }

  // A step queues rows for rule k exactly when it runs one of its EMIT_WEBHOOK statements.
  lemma StepHooks(w: Scene, j: Job, op: Op, k: nat)
    requires Distinct(j) && k < |j.rules|
    ensures HooksOf(Step(w, j, op).db.hooks, j.rules[k].id)
         == HooksOf(w.db.hooks, j.rules[k].id) + if EmitsAny(w, j, op, k) then op.endpoints else 0
  {
    if op.Move? && op.runner < |w.runners| {
      var x := w.runners[op.runner];
      if x.rule < |j.rules| && !x.looking && x.action < |j.rules[x.rule].actions| {
        PerformHooks(w.db, j.rules[x.rule].id, j.rules[x.rule].actions[x.action], op.endpoints, j.rules[k].id);
      }
    }
  }

  predicate EmitsAny(w: Scene, j: Job, op: Op, k: nat)
    requires k < |j.rules|
  {
    op.Move? && op.runner < |w.runners| && Emits(w, j, op, k, w.runners[op.runner].action)
  }

  lemma {:induction false} EmissionsStep(j: Job, ops: seq<Op>, k: nat, n: nat)
    requires k < |j.rules| && ops != []
    ensures var front, op := ops[..|ops| - 1], ops[|ops| - 1];
      Emissions(j, ops, k, n) == Emissions(j, front, k, n)
        + if EmitsAny(Run(j, front), j, op, k) && Run(j, front).runners[op.runner].action < n then 1 else 0
  {
    if n > 0 { EmissionsStep(j, ops, k, n - 1); }
  }

  lemma {:induction false} NoEmissions(j: Job, k: nat, n: nat)
    requires k < |j.rules|
    ensures Emissions(j, [], k, n) == 0
  {
    if n > 0 { NoEmissions(j, k, n - 1); }
  }

  lemma TimesMore(x: nat, n: nat)
    ensures x * (n + 1) == x * n + x
  {
  }

  // What the EMIT_WEBHOOK statements of rule k that ran were worth: each a row for every endpoint subscribed then.
  ghost function RowsEmitted(j: Job, ops: seq<Op>, k: nat): nat
    requires k < |j.rules|
  {
    if ops == [] then 0
    else RowsEmitted(j, ops[..|ops| - 1], k)
         + if EmitsAny(Run(j, ops[..|ops| - 1]), j, ops[|ops| - 1], k) then ops[|ops| - 1].endpoints else 0
  }

  // In every run, whatever endpoints come and go, the webhook rows of a rule are exactly those.
  lemma {:induction false} HooksAreEmissions(j: Job, ops: seq<Op>, k: nat)
    requires Distinct(j) && k < |j.rules|
    ensures HooksOf(Run(j, ops).db.hooks, j.rules[k].id) == RowsEmitted(j, ops, k)
  {
    if ops != [] {
      HooksAreEmissions(j, ops[..|ops| - 1], k);
      StepHooks(Run(j, ops[..|ops| - 1]), j, ops[|ops| - 1], k);
    }
  }

  // Endpoints neither come nor go.
  ghost predicate Steady(j: Job, ops: seq<Op>) {
    forall n :: 0 <= n < |ops| && ops[n].Move? ==> ops[n].endpoints == j.endpoints
  }

  lemma {:induction false} SteadyRows(j: Job, ops: seq<Op>, k: nat)
    requires Distinct(j) && k < |j.rules| && Steady(j, ops)
    ensures RowsEmitted(j, ops, k) == j.endpoints * Emissions(j, ops, k, |j.rules[k].actions|)
  {
    var n := |j.rules[k].actions|;
    if ops == [] {
      NoEmissions(j, k, n);
    } else {
      var front := ops[..|ops| - 1];
      SteadyRows(j, front, k);
      EmissionsStep(j, ops, k, n);
      TimesMore(j.endpoints, Emissions(j, front, k, n));
      assert ops[|ops| - 1].Move? ==> ops[|ops| - 1].endpoints == j.endpoints;
    }
  }

  // ---- Recorded rules ----

  // Each EMIT_WEBHOOK among the first n actions of rule k has run.
  ghost predicate EmittedUpTo(j: Job, ops: seq<Op>, k: nat, n: nat)
    requires k < |j.rules|
  {
    forall a: nat :: a < n && a < |j.rules[k].actions| && j.rules[k].actions[a].EmitWebhook? ==>
      EmissionsAt(j, ops, k, a) >= 1
  }

  // Those behind the runner have.
  ghost predicate RunnerEmitted(j: Job, ops: seq<Op>, x: Runner) {
    x.rule < |j.rules| && !x.looking && Fires(j, j.rules[x.rule]) ==> EmittedUpTo(j, ops, x.rule, x.action)
  }

  ghost predicate RuleEmitted(j: Job, ops: seq<Op>, k: nat)
    requires k < |j.rules|
  {
    Fires(j, j.rules[k]) ==> EmittedUpTo(j, ops, k, |j.rules[k].actions|)
  }

  ghost predicate AllEmitted(j: Job, ops: seq<Op>) {
    && (forall k :: 0 <= k < |Run(j, ops).db.runs| && k < |j.rules| ==> RuleEmitted(j, ops, k))
    && (forall i :: 0 <= i < |Run(j, ops).runners| ==> RunnerEmitted(j, ops, Run(j, ops).runners[i]))
  }

  lemma EmittedStays(j: Job, ops: seq<Op>, k: nat, n: nat)
    requires ops != [] && k < |j.rules| && EmittedUpTo(j, ops[..|ops| - 1], k, n)
    ensures EmittedUpTo(j, ops, k, n)
  {
    forall a: nat | a < n && a < |j.rules[k].actions| && j.rules[k].actions[a].EmitWebhook?
      ensures EmissionsAt(j, ops, k, a) >= 1
    {
      assert EmissionsAt(j, ops[..|ops| - 1], k, a) >= 1;
    }
  }

  // The runner that moves has run the action it leaves behind.
  lemma MoverEmitted(j: Job, ops: seq<Op>, i: nat)
    requires Distinct(j) && ops != [] && AllEmitted(j, ops[..|ops| - 1])
    requires ops[|ops| - 1].Move? && ops[|ops| - 1].runner == i < |Run(j, ops[..|ops| - 1]).runners|
    ensures var before, op := Run(j, ops[..|ops| - 1]), ops[|ops| - 1];
      RunnerEmitted(j, ops, Advance(before.db, j, before.runners[i], op.endpoints).1)
  {
    var before := Run(j, ops[..|ops| - 1]);
    var x := before.runners[i];
    assert RunnerEmitted(j, ops[..|ops| - 1], x);
    if x.rule < |j.rules| && !x.looking && x.action < |j.rules[x.rule].actions| && Fires(j, j.rules[x.rule]) {
      EmittedStays(j, ops, x.rule, x.action);
      assert j.rules[x.rule].actions[x.action].EmitWebhook? ==> Emits(before, j, ops[|ops| - 1], x.rule, x.action);
    }
  }

  // The rule it records, if it does, has all of its actions behind it.
  lemma RecorderEmitted(j: Job, ops: seq<Op>, i: nat, k: nat)
    requires Distinct(j) && ops != [] && AllEmitted(j, ops[..|ops| - 1]) && SceneOk(Run(j, ops[..|ops| - 1]), j)
    requires ops[|ops| - 1].Move? && ops[|ops| - 1].runner == i < |Run(j, ops[..|ops| - 1]).runners|
    requires |Run(j, ops[..|ops| - 1]).db.runs| <= k < |Run(j, ops).db.runs| && k < |j.rules|
    ensures RuleEmitted(j, ops, k)
  {
    var before := Run(j, ops[..|ops| - 1]);
    var x := before.runners[i];
    assert RunnerOk(before.db, j, x) && RunnerEmitted(j, ops[..|ops| - 1], x);
    assert x.rule == k && !x.looking && x.action == |j.rules[k].actions| by {
      if x.rule < |j.rules| { RunsOf(before.db, j, x.rule); }
    }
    if Fires(j, j.rules[k]) { EmittedStays(j, ops, k, x.action); }
  }

  lemma {:induction false} RunEmitted(j: Job, ops: seq<Op>)
    requires Distinct(j)
    ensures AllEmitted(j, ops)
  {
    if ops != [] {
      var front, op := ops[..|ops| - 1], ops[|ops| - 1];
      RunKeeps(j, front);
      RunEmitted(j, front);
      forall k | 0 <= k < |Run(j, ops).db.runs| && k < |j.rules| ensures RuleEmitted(j, ops, k) {
        if k < |Run(j, front).db.runs| {
          assert RuleEmitted(j, front, k);
          if Fires(j, j.rules[k]) { EmittedStays(j, ops, k, |j.rules[k].actions|); }
        } else {
          RecorderEmitted(j, ops, op.runner, k);
        }
      }
      forall i | 0 <= i < |Run(j, ops).runners| ensures RunnerEmitted(j, ops, Run(j, ops).runners[i]) {
        if op.Move? && i == op.runner && i < |Run(j, front).runners| {
          MoverEmitted(j, ops, i);
        } else if i < |Run(j, front).runners| {
          var x := Run(j, front).runners[i];
          assert RunnerEmitted(j, front, x);
          if x.rule < |j.rules| && !x.looking && Fires(j, j.rules[x.rule]) { EmittedStays(j, ops, x.rule, x.action); }
        }
      }
    }
  }

  // ---- Once, or more than once ----

  // One EMIT_WEBHOOK statement of the rule ran exactly once.
  ghost predicate OnceAt(j: Job, ops: seq<Op>, k: nat, a: nat)
    requires k < |j.rules| && a < |j.rules[k].actions|
  {
    j.rules[k].actions[a].EmitWebhook? ==> EmissionsAt(j, ops, k, a) == 1
  }

  lemma {:induction false} OtherActionsEmitNothing(j: Job, ops: seq<Op>, k: nat, a: nat)
    requires k < |j.rules| && a < |j.rules[k].actions| && !j.rules[k].actions[a].EmitWebhook?
    ensures EmissionsAt(j, ops, k, a) == 0
  {
    if ops != [] { OtherActionsEmitNothing(j, ops[..|ops| - 1], k, a); }
  }

  lemma {:induction false} EmissionsCountIff(j: Job, ops: seq<Op>, k: nat, n: nat)
    requires k < |j.rules| && n <= |j.rules[k].actions| && EmittedUpTo(j, ops, k, n)
    ensures Emissions(j, ops, k, n) >= EmitCount(j.rules[k], n)
    ensures Emissions(j, ops, k, n) == EmitCount(j.rules[k], n) <==> forall a: nat :: a < n ==> OnceAt(j, ops, k, a)
  {
    if n > 0 {
      EmissionsCountIff(j, ops, k, n - 1);
      if !j.rules[k].actions[n - 1].EmitWebhook? { OtherActionsEmitNothing(j, ops, k, n - 1); }
      assert OnceAt(j, ops, k, n - 1) <==>
             EmissionsAt(j, ops, k, n - 1) == if j.rules[k].actions[n - 1].EmitWebhook? then 1 else 0;
    }
  }

  lemma {:induction false} PerformUpToHooks(s: Effects, r: Rule, n: nat, endpoints: nat, other: nat)
    requires n <= |r.actions|
    ensures HooksOf(PerformUpTo(s, r, n, endpoints).0.hooks, other)
         == HooksOf(s.hooks, other) + if r.id == other then endpoints * EmitCount(r, n) else 0
  {
    if n > 0 {
      PerformUpToHooks(s, r, n - 1, endpoints, other);
      PerformHooks(PerformUpTo(s, r, n - 1, endpoints).0, r.id, r.actions[n - 1], endpoints, other);
      TimesMore(endpoints, EmitCount(r, n - 1));
    }
  }

  lemma {:induction false} AttemptHooks(j: Job, n: nat, k: nat)
    requires Distinct(j) && k < |j.rules| && n <= |j.rules|
    ensures HooksOf(AttemptUpTo(NOTHING, j, n).hooks, j.rules[k].id)
         == if k < n && Fires(j, j.rules[k]) then j.endpoints * EmitCount(j.rules[k], |j.rules[k].actions|) else 0
  {
    if n > 0 {
      AttemptHooks(j, n - 1, k);
      AttemptRuleHooks(j, n - 1, j.rules[k].id);
    }
  }

  // What the attempt adds at rule n.
  lemma AttemptRuleHooks(j: Job, n: nat, id: nat)
    requires Distinct(j) && n < |j.rules|
    ensures var r := j.rules[n];
            HooksOf(AttemptUpTo(NOTHING, j, n + 1).hooks, id) == HooksOf(AttemptUpTo(NOTHING, j, n).hooks, id)
              + if r.id == id && Fires(j, r) then j.endpoints * EmitCount(r, |r.actions|) else 0
  {
    var before, r := AttemptUpTo(NOTHING, j, n), j.rules[n];
    NotYetRun(j, n);
    if Fires(j, r) { PerformUpToHooks(before, r, |r.actions|, j.endpoints, id); }
  }

  // An attempt alone meets each rule without a run.
  lemma NotYetRun(j: Job, n: nat)
    requires Distinct(j) && n < |j.rules|
    ensures !HasRun(AttemptUpTo(NOTHING, j, n).runs, j.rules[n].id)
  {
    RunIdsOf(j, n, n);
  }

  lemma {:induction false} RunIdsOf(j: Job, n: nat, k: nat)
    requires Distinct(j) && n <= k < |j.rules|
    ensures !HasRun(AttemptUpTo(NOTHING, j, n).runs, j.rules[k].id)
  {
    if n > 0 {
      var before, r := AttemptUpTo(NOTHING, j, n - 1), j.rules[n - 1];
      RunIdsOf(j, n - 1, k);
      PerformKeepsRuns(before, r, if Fires(j, r) then |r.actions| else 0, j.endpoints);
    }
  }

  lemma {:induction false} PerformKeepsRuns(s: Effects, r: Rule, n: nat, endpoints: nat)
    requires n <= |r.actions|
    ensures PerformUpTo(s, r, n, endpoints).0.runs == s.runs
  {
    if n > 0 { PerformKeepsRuns(s, r, n - 1, endpoints); }
  }

  // Each EMIT_WEBHOOK statement of a recorded, matched rule has run at least once.
  lemma WebhooksAtLeastOnce(j: Job, ops: seq<Op>, k: nat, a: nat)
    requires Distinct(j) && k < |j.rules| && HasRun(Run(j, ops).db.runs, j.rules[k].id) && Fires(j, j.rules[k])
    requires a < |j.rules[k].actions| && j.rules[k].actions[a].EmitWebhook?
    ensures EmissionsAt(j, ops, k, a) >= 1
    ensures Steady(j, ops) ==>
              HooksOf(Run(j, ops).db.hooks, j.rules[k].id) >= j.endpoints * EmitCount(j.rules[k], |j.rules[k].actions|)
  {
    var n := |j.rules[k].actions|;
    RecordedEmitted(j, ops, k);
    if Steady(j, ops) {
      HooksAreEmissions(j, ops, k);
      SteadyRows(j, ops, k);
      EmissionsCountIff(j, ops, k, n);
      TimesOrder(j.endpoints, EmitCount(j.rules[k], n), Emissions(j, ops, k, n));
    }
  }

  lemma RecordedEmitted(j: Job, ops: seq<Op>, k: nat)
    requires Distinct(j) && k < |j.rules| && HasRun(Run(j, ops).db.runs, j.rules[k].id)
    ensures RuleEmitted(j, ops, k)
  {
    RunKeeps(j, ops);
    RunEmitted(j, ops);
    RunsOf(Run(j, ops).db, j, k);
  }

  lemma TimesOrder(x: nat, m: nat, n: nat)
    requires m <= n
    ensures x * m <= x * n && (x > 0 ==> (x * m == x * n <==> m == n))
  {
    if m < n { TimesGap(x, m, n - m - 1); }
  }

  lemma TimesGap(x: nat, m: nat, gap: nat)
    ensures x * m + x <= x * (m + 1 + gap)
  {
    assert x * (m + 1 + gap) == x * m + x + x * gap;
    assert x * gap >= 0;
  }

  // While the same endpoints are subscribed, the rows of a recorded, matched rule are those of one uninterrupted
  // attempt exactly when each of its EMIT_WEBHOOK statements ran once.
  lemma WebhooksOnceIff(j: Job, ops: seq<Op>, k: nat)
    requires Distinct(j) && k < |j.rules| && j.endpoints > 0 && Steady(j, ops)
    requires HasRun(Run(j, ops).db.runs, j.rules[k].id) && Fires(j, j.rules[k])
    ensures HooksOf(Run(j, ops).db.hooks, j.rules[k].id) == HooksOf(Attempt(NOTHING, j).hooks, j.rules[k].id)
       <==> forall a: nat :: a < |j.rules[k].actions| ==> OnceAt(j, ops, k, a)
  {
    var n := |j.rules[k].actions|;
    RecordedEmitted(j, ops, k);
    HooksAreEmissions(j, ops, k);
    SteadyRows(j, ops, k);
    AttemptHooks(j, |j.rules|, k);
    EmissionsCountIff(j, ops, k, n);
    TimesOrder(j.endpoints, EmitCount(j.rules[k], n), Emissions(j, ops, k, n));
  }

  // More than once does happen: nothing makes the rows unique, so those of a cut attempt stay beside the next one's.
  ghost predicate Reached(j: Job, w: Scene) { exists ops :: Run(j, ops) == w }

  lemma Next(j: Job, w: Scene, op: Op, v: Scene)
    requires Reached(j, w) && Step(w, j, op) == v
    ensures Reached(j, v)
  {
    var ops :| Run(j, ops) == w;
    assert (ops + [op])[..|ops|] == ops;
    assert Run(j, ops + [op]) == v;
  }

  ghost predicate OneHook(j: Job) {
    j.rules == [Rule(7, [], [EmitWebhook])] && j.endpoints == 1
  }

  const CUT := Runner(0, 1, [Queued(1)], false)
  const FOUND := Runner(0, 0, [], false)
  const FIRST := Runner(0, 0, [], true)

  lemma Started(j: Job)
    requires OneHook(j)
    ensures Reached(j, Scene(NOTHING, [FOUND]))
  {
    var none: seq<Op> := [];
    assert Run(j, none) == Scene(NOTHING, []);
    Next(j, Scene(NOTHING, []), Begin, Scene(NOTHING, [FIRST]));
    assert [FIRST][0 := FOUND] == [FOUND];
    Next(j, Scene(NOTHING, [FIRST]), Move(0, 1), Scene(NOTHING, [FOUND]));
  }

  lemma HookCut(j: Job)
    requires OneHook(j)
    ensures Reached(j, Scene(Effects([], [], [7]), [CUT]))
  {
    Started(j);
    Queues(j, []);
    assert [FOUND][0 := CUT] == [CUT];
    Next(j, Scene(NOTHING, [FOUND]), Move(0, 1), Scene(Effects([], [], [7]), [CUT]));
  }

  lemma Queues(j: Job, hooks: seq<nat>)
    requires OneHook(j)
    ensures Advance(Effects([], [], hooks), j, FOUND, 1) == (Effects([], [], hooks + [7]), CUT)
  {
    assert Repeat(7, 1) == [7];
    var nothing: seq<ActionResult> := [];
    assert nothing + [Queued(1)] == [Queued(1)];
  }

  lemma HookAgain(j: Job)
    requires OneHook(j)
    ensures Reached(j, Scene(Effects([], [], [7, 7]), [CUT, CUT]))
  {
    HookCut(j);
    var s := Effects([], [], [7]);
    Next(j, Scene(s, [CUT]), Begin, Scene(s, [CUT, FIRST]));
    assert [CUT, FIRST][1 := FOUND] == [CUT, FOUND];
    Next(j, Scene(s, [CUT, FIRST]), Move(1, 1), Scene(s, [CUT, FOUND]));
    assert [7] + [7] == [7, 7];
    Queues(j, [7]);
    assert [CUT, FOUND][1 := CUT] == [CUT, CUT];
    Next(j, Scene(s, [CUT, FOUND]), Move(1, 1), Scene(Effects([], [], [7, 7]), [CUT, CUT]));
  }

  lemma AloneOnce(j: Job)
    requires OneHook(j)
    ensures HooksOf(Attempt(NOTHING, j).hooks, 7) == 1
  {
    var r := j.rules[0];
    assert PerformUpTo(NOTHING, r, 0, 1).0 == NOTHING;
    assert PerformUpTo(NOTHING, r, 1, 1).0.hooks == Repeat(7, 1);
    HooksRepeated(7, 1, 7);
    assert AttemptUpTo(NOTHING, j, 0) == NOTHING;
    assert Attempt(NOTHING, j).hooks == Repeat(7, 1);
  }

  lemma WebhooksCanRepeat(j: Job)
    requires OneHook(j)
    ensures exists w :: Reached(j, w) && HasRun(w.db.runs, 7)
                      && HooksOf(w.db.hooks, 7) > HooksOf(Attempt(NOTHING, j).hooks, 7)
  {
    HookAgain(j);
    AloneOnce(j);
    var w := Scene(Effects([], [], [7, 7]), [CUT, CUT]);
    var v := Step(w, j, Move(1, 1));
    Next(j, w, Move(1, 1), v);
    assert v.db.runs[0].outcome.rule == 7;
    assert [7, 7][..1] == [7] && [7][..0] == [];
    assert HooksOf([7, 7], 7) == 2;
  }
}
