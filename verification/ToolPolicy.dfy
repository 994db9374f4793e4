/** The rule-based policy engine: first matching rule, then a per-session count of denials. */
module ToolPolicy {
  import opened Wrappers

  datatype Decision = Allow | Deny | Ask | Passthrough

  /** One evaluation: the call's coordinates and what the tool itself answers. */
  datatype Query = Query(
    toolName: string,
    sessionId: string,
    workingDirectory: Option<string>,
    readOnly: bool,
    toolDecision: Decision)

  datatype Rule = Rule(
    decision: Decision,
    toolName: Option<string>,
    sessionPrefix: Option<string>,
    directoryPrefix: Option<string>,
    readOnly: Option<bool>,
    reason: Option<string>,
    source: Option<string>)
  {
    predicate Matches(q: Query) {
      && (toolName.None? || toolName.value == q.toolName)
      && (sessionPrefix.None? || sessionPrefix.value <= q.sessionId)
      && (directoryPrefix.None? ||
          directoryPrefix.value <= (if q.workingDirectory.Some? then q.workingDirectory.value else ""))
      && (readOnly.None? || readOnly.value == q.readOnly)
    }
  }

  datatype Counts = Counts(consecutive: nat, total: nat)

  datatype Audit = Audit(matchedRule: Option<string>, fellBack: bool, counts: Option<Counts>)

  const NO_AUDIT := Audit(None, false, None)

  datatype Outcome = Outcome(decision: Decision, reason: Option<string>, source: string, audit: Audit)

  /** The source's `x or default`: missing and empty texts give the default. */
  function OrElse(x: Option<string>, default: string): string {
    if x.Some? && x.value != "" then x.value else default
  }

  // ------------------------------------------------------------------ what an engine decides

  /** The first rule that matches and does not pass through. */
  function Decisive(rules: seq<Rule>, q: Query): Option<Rule> {
    if rules == [] then None
    else if rules[0].Matches(q) && rules[0].decision != Passthrough then Some(rules[0])
    else Decisive(rules[1..], q)
  }

  function RuleOutcome(rule: Rule): Outcome {
    Outcome(rule.decision, rule.reason, OrElse(rule.source, "rule"),
        Audit(Some(OrElse(rule.toolName, "*")), false, None))
  }

  function RawOutcome(rules: seq<Rule>, toolPolicy: bool, q: Query): Outcome {
    var rule := Decisive(rules, q);
    if rule.Some? then RuleOutcome(rule.value)
    else if toolPolicy then Outcome(q.toolDecision, None, "tool.check_permissions", NO_AUDIT)
    else Outcome(Ask, Some("No matching policy rule"), "policy.default", NO_AUDIT)
  }

  function CountsOf(tracking: map<string, Counts>, sessionId: string): Counts {
    if sessionId in tracking then tracking[sessionId] else Counts(0, 0)
  }

  function Counted(c: Counts, decision: Decision): Counts {
    match decision
    case Allow => Counts(0, c.total)
    case Deny => Counts(c.consecutive + 1, c.total + 1)
    case _ => c
  }

  function Tracked(threshold: int, c: Counts, raw: Outcome): Outcome {
    if raw.decision == Deny && c.consecutive >= threshold then
      Outcome(Ask, Some(OrElse(raw.reason, "Repeated denials fallback to ask")), raw.source,
              Audit(raw.audit.matchedRule, true, Some(c)))
    else if raw.audit == NO_AUDIT then raw
    else raw.(audit := raw.audit.(counts := Some(c)))
  }

  // ------------------------------------------------------------------ which rule decides

  /** A coordinate the rule names differs from the query's; session and directory are named by a prefix. */
  ghost predicate Excludes(rule: Rule, q: Query) {
    || (rule.toolName.Some? && rule.toolName.value != q.toolName)
    || (rule.sessionPrefix.Some? && forall rest :: rule.sessionPrefix.value + rest != q.sessionId)
    || (rule.directoryPrefix.Some? && rule.directoryPrefix.value != "" &&
        (q.workingDirectory.None? || forall rest :: rule.directoryPrefix.value + rest != q.workingDirectory.value))
    || (rule.readOnly.Some? && rule.readOnly.value != q.readOnly)
  }

  lemma {:induction false} PrefixHasRest(prefix: string, text: string)
    ensures prefix <= text <==> exists rest :: prefix + rest == text
  {
    if prefix <= text {
      assert prefix + text[|prefix|..] == text;
    }
  }

  lemma {:induction false} MatchesIff(rule: Rule, q: Query)
    ensures rule.Matches(q) <==> !Excludes(rule, q)
  {
    if rule.sessionPrefix.Some? {
      PrefixHasRest(rule.sessionPrefix.value, q.sessionId);
    }
    if rule.directoryPrefix.Some? {
      PrefixHasRest(rule.directoryPrefix.value, "");
      if q.workingDirectory.Some? {
        PrefixHasRest(rule.directoryPrefix.value, q.workingDirectory.value);
      }
    }
  }

  /** The first rule that does not pass through and excludes nothing of the query decides, with its own reason. */
  lemma {:induction false} FirstRuleDecides(rules: seq<Rule>, toolPolicy: bool, q: Query, i: nat)
    requires i < |rules| && rules[i].decision != Passthrough && !Excludes(rules[i], q)
    requires forall j :: 0 <= j < i ==> rules[j].decision == Passthrough || Excludes(rules[j], q)
    ensures var raw := RawOutcome(rules, toolPolicy, q);
            && raw.decision == rules[i].decision && raw.reason == rules[i].reason
            && raw.source == (if rules[i].source in {None, Some("")} then "rule" else rules[i].source.value)
            && raw.audit.matchedRule == (if rules[i].toolName in {None, Some("")} then Some("*") else rules[i].toolName)
  {
    hide Rule.Matches, Excludes;
    MatchesIff(rules[0], q);
    if i > 0 {
      FirstRuleDecides(rules[1..], toolPolicy, q, i - 1);
    }
  }

  /** When every rule passes through or excludes the query, the tool answers, or without a tool policy the user is
      asked. */
  lemma {:induction false} NoRuleDecides(rules: seq<Rule>, toolPolicy: bool, q: Query)
    requires forall j :: 0 <= j < |rules| ==> rules[j].decision == Passthrough || Excludes(rules[j], q)
    ensures var raw := RawOutcome(rules, toolPolicy, q);
            && raw.audit.matchedRule == None
            && (toolPolicy ==> raw.decision == q.toolDecision && raw.reason == None
                               && raw.source == "tool.check_permissions")
            && (!toolPolicy ==> raw.decision == Ask && raw.reason == Some("No matching policy rule")
                                && raw.source == "policy.default")
  {
    hide Rule.Matches, Excludes;
    if rules != [] {
      MatchesIff(rules[0], q);
      NoRuleDecides(rules[1..], toolPolicy, q);
    }
  }

  class RuleBasedToolPolicyEngine {
    const rules: seq<Rule>
    const toolPolicy: bool
    const threshold: int
    var tracking: map<string, Counts>

    constructor (rules: seq<Rule>, toolPolicy: bool, threshold: int)
      ensures this.rules == rules && this.toolPolicy == toolPolicy && this.threshold == threshold && tracking == map[]
    {
      this.rules, this.toolPolicy, this.threshold, tracking := rules, toolPolicy, threshold, map[];
    }

    method Track(sessionId: string, raw: Outcome) returns (outcome: Outcome)
      modifies this
      ensures var c := Counted(CountsOf(old(tracking), sessionId), raw.decision);
              tracking == old(tracking)[sessionId := c] && outcome == Tracked(threshold, c, raw)
    {
      var state := if sessionId in tracking then tracking[sessionId] else Counts(0, 0);
      outcome := raw;
      if raw.decision == Allow {
        state := Counts(0, state.total);
      } else if raw.decision == Deny {
        state := Counts(state.consecutive + 1, state.total + 1);
        if state.consecutive >= threshold {
          var reason := OrElse(raw.reason, "Repeated denials fallback to ask");
          outcome := Outcome(Ask, Some(reason), raw.source, raw.audit.(fellBack := true, counts := Some(state)));
        }
      }
      tracking := tracking[sessionId := state];
      if outcome.audit != NO_AUDIT {
        outcome := outcome.(audit := outcome.audit.(counts := Some(state)));
      }
    }

    method Evaluate(q: Query) returns (outcome: Outcome)
      modifies this
      ensures var r := EvaluateOne(rules, toolPolicy, threshold, old(tracking), q);
              outcome == r.0 && tracking == r.1
    {
      var i := 0;
      while i < |rules|
        invariant 0 <= i <= |rules|
        invariant Decisive(rules[i..], q) == Decisive(rules, q)
      {
        if rules[i].Matches(q) && rules[i].decision != Passthrough {
          outcome := Track(q.sessionId, RuleOutcome(rules[i]));
          return;
        }
        i := i + 1;
      }
      if toolPolicy {
        outcome := Track(q.sessionId, Outcome(q.toolDecision, None, "tool.check_permissions", NO_AUDIT));
        return;
      }
      outcome := Track(q.sessionId, Outcome(Ask, Some("No matching policy rule"), "policy.default", NO_AUDIT));
    }
  }

  // ------------------------------------------------------------------ histories

  function EvaluateOne(rules: seq<Rule>, toolPolicy: bool, threshold: int, tracking: map<string, Counts>, q: Query)
    : (Outcome, map<string, Counts>)
  {
    var raw := RawOutcome(rules, toolPolicy, q);
    var c := Counted(CountsOf(tracking, q.sessionId), raw.decision);
    (Tracked(threshold, c, raw), tracking[q.sessionId := c])
  }

  /** The counters after a history of evaluations, oldest first. */
  function TrackingAfter(rules: seq<Rule>, toolPolicy: bool, threshold: int, history: seq<Query>): map<string, Counts> {
    if history == [] then map[]
    else
      var before := TrackingAfter(rules, toolPolicy, threshold, history[..|history| - 1]);
      EvaluateOne(rules, toolPolicy, threshold, before, history[|history| - 1]).1
  }

  /** The outcome of the last evaluation of a history. */
  function LastOutcome(rules: seq<Rule>, toolPolicy: bool, threshold: int, history: seq<Query>): Outcome
    requires history != []
  {
    var before := TrackingAfter(rules, toolPolicy, threshold, history[..|history| - 1]);
    EvaluateOne(rules, toolPolicy, threshold, before, history[|history| - 1]).0
  }

  /** The raw decisions made for one session, oldest first. */
  function RawDecisions(rules: seq<Rule>, toolPolicy: bool, history: seq<Query>, sessionId: string): seq<Decision> {
    if history == [] then []
    else
      var last := history[|history| - 1];
      RawDecisions(rules, toolPolicy, history[..|history| - 1], sessionId) +
      if last.sessionId == sessionId then [RawOutcome(rules, toolPolicy, last).decision] else []
  }

  /** Denials after the last position that allows. */
  ghost predicate DenialsSinceAllow(ds: seq<Decision>, n: nat) {
    exists cut: nat :: CutAtAllow(ds, cut) && n == multiset(ds[cut..])[Deny]
  }

  ghost predicate CutAtAllow(ds: seq<Decision>, cut: nat) {
    cut <= |ds| && (cut == 0 || ds[cut - 1] == Allow) && Allow !in ds[cut..]
  }

  lemma {:induction false} OneMoreDecision(ds: seq<Decision>, c: Counts, d: Decision)
    requires DenialsSinceAllow(ds, c.consecutive) && c.total == multiset(ds)[Deny]
    ensures DenialsSinceAllow(ds + [d], Counted(c, d).consecutive)
    ensures Counted(c, d).total == multiset(ds + [d])[Deny]
  {
    if d == Allow {
      assert CutAtAllow(ds + [d], |ds| + 1);
    } else {
      var cut: nat :| CutAtAllow(ds, cut) && c.consecutive == multiset(ds[cut..])[Deny];
      assert (ds + [d])[cut..] == ds[cut..] + [d];
      assert CutAtAllow(ds + [d], cut);
    }
  }

  /** For every history: a session's consecutive count is its raw denials since its last raw allow, its total
      is all its raw denials, and other sessions do not matter. */
  lemma {:induction false} CountersExact(rules: seq<Rule>, toolPolicy: bool, threshold: int, history: seq<Query>,
      sessionId: string)
    ensures var c := CountsOf(TrackingAfter(rules, toolPolicy, threshold, history), sessionId);
            var ds := RawDecisions(rules, toolPolicy, history, sessionId);
            && DenialsSinceAllow(ds, c.consecutive)
            && c.total == multiset(ds)[Deny]
  {
    if history == [] {
      assert CutAtAllow([], 0);
    } else {
      var before, q := history[..|history| - 1], history[|history| - 1];
      CountersExact(rules, toolPolicy, threshold, before, sessionId);
      var ds := RawDecisions(rules, toolPolicy, before, sessionId);
      var c := CountsOf(TrackingAfter(rules, toolPolicy, threshold, before), sessionId);
      var d := RawOutcome(rules, toolPolicy, q).decision;
      if q.sessionId == sessionId {
        OneMoreDecision(ds, c, d);
        assert RawDecisions(rules, toolPolicy, history, sessionId) == ds + [d];
        assert CountsOf(TrackingAfter(rules, toolPolicy, threshold, history), sessionId) == Counted(c, d);
      } else {
        assert RawDecisions(rules, toolPolicy, history, sessionId) == ds + [] == ds;
        assert CountsOf(TrackingAfter(rules, toolPolicy, threshold, history), sessionId) == c;
      }
    }
  }

  lemma {:induction false} AllowBeforeCut(ds: seq<Decision>, i: nat, cut: nat)
    requires CutAtAllow(ds, cut) && i < cut
    ensures Allow in ds[i..]
  {
    assert ds[i..][cut - 1 - i] == ds[cut - 1];
  }

  /** The count is a function of the decisions. */
  lemma {:induction false} DenialsSinceAllowUnique(ds: seq<Decision>, m: nat, n: nat)
    requires DenialsSinceAllow(ds, m) && DenialsSinceAllow(ds, n)
    ensures m == n
  {
    var i: nat :| CutAtAllow(ds, i) && m == multiset(ds[i..])[Deny];
    var j: nat :| CutAtAllow(ds, j) && n == multiset(ds[j..])[Deny];
    if i < j {
      AllowBeforeCut(ds, i, j);
    } else if j < i {
      AllowBeforeCut(ds, j, i);
    }
  }

  /** For every history: the last answer is the raw decision, except that a denial becomes an ask exactly when
      the raw denials since the last raw allow, itself included, have reached the threshold. */
  lemma {:induction false} DenialBecomesAskIff(rules: seq<Rule>, toolPolicy: bool, threshold: int,
      history: seq<Query>, n: nat)
    requires history != []
    requires DenialsSinceAllow(RawDecisions(rules, toolPolicy, history, history[|history| - 1].sessionId), n)
    ensures var raw := RawOutcome(rules, toolPolicy, history[|history| - 1]).decision;
            LastOutcome(rules, toolPolicy, threshold, history).decision ==
            if raw == Deny && n >= threshold then Ask else raw
  {
    var q := history[|history| - 1];
    CountersExact(rules, toolPolicy, threshold, history, q.sessionId);
    DenialsSinceAllowUnique(RawDecisions(rules, toolPolicy, history, q.sessionId), n,
                            CountsOf(TrackingAfter(rules, toolPolicy, threshold, history), q.sessionId).consecutive);
  }

  /** What the last answer tells beside its decision: a rule's answer and a fallback carry the session's counters as
      they are after it, a fallback says so and keeps a reason that was given, and the source never changes. */
  lemma {:induction false} AnswerTells(rules: seq<Rule>, toolPolicy: bool, threshold: int, history: seq<Query>)
    requires history != []
    ensures var q := history[|history| - 1];
            var raw, last := RawOutcome(rules, toolPolicy, q), LastOutcome(rules, toolPolicy, threshold, history);
            var counts := CountsOf(TrackingAfter(rules, toolPolicy, threshold, history), q.sessionId);
            && last.source == raw.source && last.audit.matchedRule == raw.audit.matchedRule
            && (last.audit.fellBack <==> raw.decision == Deny && counts.consecutive >= threshold)
            && last.audit.counts == (if last.audit.fellBack || raw.audit.matchedRule.Some? then Some(counts) else None)
            && (!last.audit.fellBack ==> last.reason == raw.reason)
            && (last.audit.fellBack ==> last.decision == Ask && last.reason.Some?)
            && (last.audit.fellBack ==> last.reason == if raw.reason in {None, Some("")} then
                  Some("Repeated denials fallback to ask") else raw.reason)
  {
    hide Rule.Matches, Decisive;
  }

  function WithoutPassthrough(rules: seq<Rule>): seq<Rule> {
    if rules == [] then []
    else (if rules[0].decision == Passthrough then [] else [rules[0]]) + WithoutPassthrough(rules[1..])
  }

  lemma {:induction false} DecisiveIgnoresPassthrough(rules: seq<Rule>, q: Query)
    ensures Decisive(WithoutPassthrough(rules), q) == Decisive(rules, q)
  {
    if rules != [] {
      DecisiveIgnoresPassthrough(rules[1..], q);
      var kept := WithoutPassthrough(rules[1..]);
      assert WithoutPassthrough(rules) == if rules[0].decision == Passthrough then kept else [rules[0]] + kept;
      assert ([rules[0]] + kept)[1..] == kept;
    }
  }

  /** Deleting every pass-through rule changes no outcome and no counter of any history. */
  lemma {:induction false} PassthroughRulesInert(rules: seq<Rule>, toolPolicy: bool, threshold: int,
      history: seq<Query>)
    ensures TrackingAfter(WithoutPassthrough(rules), toolPolicy, threshold, history) ==
            TrackingAfter(rules, toolPolicy, threshold, history)
    ensures history != [] ==> LastOutcome(WithoutPassthrough(rules), toolPolicy, threshold, history) ==
                              LastOutcome(rules, toolPolicy, threshold, history)
  {
    if history != [] {
      PassthroughRulesInert(rules, toolPolicy, threshold, history[..|history| - 1]);
      DecisiveIgnoresPassthrough(rules, history[|history| - 1]);
    }
  }
}
