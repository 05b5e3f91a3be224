/** The shared rule set: built-in signals, and whatever rules have been learned and approved. */
module LearnedRules {
  import opened DirectoryRules
  import opened Digits
  import opened RuleDefinition

  datatype RuleStatus = DraftRule | Probation | Approved | Disabled | Rejected

  datatype Rule = Rule(enabled: bool, status: RuleStatus, definition: string)

  function Clamp(s: Signal): Signal {
    if s.authority > MAX_LEARNED then s.(authority := MAX_LEARNED) else s
  }

  /** The signal of a rule that is enabled, in force and readable, capped. */
  function SignalsOf(rule: Rule): (r: seq<Signal>)
    ensures forall s <- r :: s.authority <= MAX_LEARNED
  {
    var parsed := Parse(rule.definition);
    if rule.enabled && (rule.status.Approved? || rule.status.Probation?) && parsed.Some? then
      [Clamp(parsed.value)]
    else []
  }

  function Accepted(rules: seq<Rule>): (r: seq<Signal>)
    ensures forall s <- r :: s.authority <= MAX_LEARNED
  {
    if rules == [] then [] else Accepted(rules[..|rules| - 1]) + SignalsOf(rules[|rules| - 1])
  }

  method Sorted(s: seq<Signal>) returns (r: seq<Signal>)
    ensures r == SortFrom(s, 0)
  {
    var a := new Signal[|s|](i requires 0 <= i < |s| => s[i]);
    assert a[..] == s;
    SelectionSort(a);
    r := a[..];
  }

  method FirstMatching(signals: seq<Signal>, segments: seq<string>) returns (c: Context)
    ensures c == FirstMatch(SortFrom(signals, 0), segments)
  {
    var active := Sorted(signals);
    for i := 0 to |active|
      invariant FirstMatch(active, segments) == FirstMatch(active[i..], segments)
    {
      assert active[i..][0] == active[i] && active[i..][1..] == active[i + 1..];
      var matched := MatchedTerms(active[i].terms, segments);
      if matched != [] {
        return Context(active[i].role, active[i].authority, "normal", Guards(active[i].role), matched);
      }
    }
    return Context(UnknownRole, 50, "unknown", false, []);
  }

  method MatchedTerms(terms: seq<string>, segments: seq<string>) returns (matched: seq<string>)
    ensures matched == Matched(terms, segments)
  {
    matched := [];
    for j := 0 to |terms|
      invariant Matched(terms, segments) == matched + Matched(terms[j..], segments)
    {
      assert terms[j..][0] == terms[j] && terms[j..][1..] == terms[j + 1..];
      if Matches(segments, terms[j]) { matched := matched + [terms[j]]; }
    }
  }

  class RuleSet {
    const builtin: seq<Signal>
    var learned: seq<Signal>

    ghost predicate Valid()
      reads this
    {
      IsBuiltin(builtin) && Descending(learned) && forall s <- learned :: s.authority <= MAX_LEARNED
    }

    constructor (builtin: seq<Signal>)
      requires IsBuiltin(builtin)
      ensures Valid() && this.builtin == builtin && learned == []
    {
      this.builtin := builtin;
      learned := [];
    }

    /** Replaces whatever was learned before. */
    method MergeLearned(rules: seq<Rule>)
      requires Valid()
      modifies this
      ensures Valid() && learned == SortFrom(Accepted(rules), 0)
    {
      var signals := [];
      for i := 0 to |rules|
        invariant signals == Accepted(rules[..i])
      {
        assert rules[..i + 1][..i] == rules[..i];
        if !rules[i].enabled || !(rules[i].status.Approved? || rules[i].status.Probation?) { continue; }
        var parsed := ParseDirectorySignal(rules[i].definition);
        if parsed.None? { continue; }
        var sig := parsed.value;
        if sig.authority > MAX_LEARNED { sig := sig.(authority := MAX_LEARNED); }
        signals := signals + [sig];
      }
      assert rules[..|rules|] == rules;
      learned := Sorted(signals);
      LowStaysLow(signals, 0);
      SortSorts(signals, 0);
    }

    method ClearLearned()
      requires Valid()
      modifies this
      ensures Valid() && learned == []
    {
      learned := [];
    }

    /** What the built-in table decides stands unless a learned rule outranks it, and no rule outranks protection. */
    method ClassifySegments(sensitive: seq<string>, segments: seq<string>) returns (c: Context)
      requires Valid()
      ensures c == Classify(sensitive, builtin + learned, segments)
      ensures var plain := Classify(sensitive, builtin, segments);
              && (plain.role.UnknownRole? || c == plain || c.authority > plain.authority)
              && (plain.guarded || plain.role.FormalArchive? || plain.role.ProjectWork? ==> c == plain)
    {
      BuiltinWinsTies(sensitive, builtin, learned, segments);
      LearnedRulesNeverUnprotect(sensitive, builtin, learned, segments);
      for i := 0 to |sensitive|
        invariant Matched(sensitive, segments) == Matched(sensitive[i..], segments)
      {
        assert sensitive[i..][0] == sensitive[i] && sensitive[i..][1..] == sensitive[i + 1..];
        if Matches(segments, sensitive[i]) {
          return Context(Sensitive, 100, "high", true, [sensitive[i]]);
        }
      }
      c := FirstMatching(builtin + learned, segments);
    }
  }

  /** The priority a learned role is printed with. */
  function AuthorityForLearnedRole(role: Role): Int64 {
    match role
    case System | Backup | Raw | FormalArchive | ProjectWork => 60
    case Unorganized => 45
    case Temporary => 20
    case Cache => 10
    case UnknownRole | Sensitive => 40
  }

  /** A generated draft, once approved, is in force exactly as it was generated. */
  lemma ApprovedDraftIsInForce(name: string, role: Role)
    requires name != "" && '\n' !in name && !role.UnknownRole? && !role.Sensitive?
    ensures var authority := AuthorityForLearnedRole(role);
            Accepted([Rule(true, Approved, BuildDefinition(name, role, authority))]) ==
                [Signal(role, authority, [name])]
  {
    DefinitionRoundTrips(name, role, AuthorityForLearnedRole(role));
  }
}
