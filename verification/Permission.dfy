/** Tool-name globs and permission rules (src/oran-permission/rule_set.cpp). */
module Permission {
  import opened Core

  // ---------------------------------------------------------------- glob matching

  /** The meaning of a glob: `*` matches any character sequence, anything else itself. */
  ghost predicate Matches(p: string, t: string)
    decreases |p| + |t|
  {
    if p == "" then t == ""
    else if p[0] == '*' then Matches(p[1..], t) || (t != "" && Matches(p, t[1..]))
    else t != "" && p[0] == t[0] && Matches(p[1..], t[1..])
  }

  /** Pattern and text, compared from positions `i` and `j` on. */
  ghost predicate From(p: string, t: string, i: nat, j: nat)
    requires i <= |p| && j <= |t|
  {
    Matches(p[i..], t[j..])
  }

  lemma FromUnfold(p: string, t: string, i: nat, j: nat)
    requires i < |p| && j <= |t|
    ensures From(p, t, i, j) <==>
      if p[i] == '*' then From(p, t, i + 1, j) || (j < |t| && From(p, t, i, j + 1))
      else j < |t| && p[i] == t[j] && From(p, t, i + 1, j + 1)
  {
    assert p[i..][1..] == p[i + 1..];
    if j < |t| {
      assert t[j..][1..] == t[j + 1..];
    }
  }

  /** `n` literal characters of the pattern at `i` equal the text at `j`. */
  ghost predicate Literal(p: string, t: string, i: nat, j: nat, n: nat) {
    && i + n <= |p| && j + n <= |t|
    && p[i..i + n] == t[j..j + n]
    && (forall k :: i <= k < i + n ==> p[k] != '*')
  }

  lemma {:induction false} LiteralPrefix(p: string, t: string, i: nat, j: nat, n: nat)
    requires Literal(p, t, i, j, n)
    ensures From(p, t, i, j) <==> From(p, t, i + n, j + n)
    decreases n
  {
    if n > 0 {
      FromUnfold(p, t, i, j);
      assert p[i] == p[i..i + n][0] == t[j..j + n][0] == t[j];
      assert p[i + 1..i + n] == p[i..i + n][1..] == t[j..j + n][1..] == t[j + 1..j + n];
      LiteralPrefix(p, t, i + 1, j + 1, n - 1);
    }
  }

  /** A star may swallow more text. */
  lemma {:induction false} StarAbsorbs(p: string, t: string, i: nat, a: nat, b: nat)
    requires i < |p| && p[i] == '*' && a <= b <= |t|
    requires From(p, t, i, b)
    ensures From(p, t, i, a)
    decreases b - a
  {
    if a < b {
      StarAbsorbs(p, t, i, a + 1, b);
      FromUnfold(p, t, i, a);
    }
  }

  /** A star that matches gives up at some text position. */
  lemma {:induction false} StarStops(p: string, t: string, i: nat, a: nat) returns (j: nat)
    requires i < |p| && p[i] == '*' && a <= |t|
    requires From(p, t, i, a)
    ensures a <= j <= |t| && From(p, t, i + 1, j)
    decreases |t| - a
  {
    FromUnfold(p, t, i, a);
    if From(p, t, i + 1, a) {
      j := a;
    } else {
      j := StarStops(p, t, i, a + 1);
    }
  }

  /** A pattern that begins with `n` literals can only match where they occur. */
  lemma {:induction false} LiteralsOccur(p: string, t: string, i: nat, j: nat, n: nat)
    requires i + n <= |p| && j <= |t| && From(p, t, i, j)
    requires forall k :: i <= k < i + n ==> p[k] != '*'
    ensures j + n <= |t| && From(p, t, i + n, j + n)
    decreases n
  {
    if n > 0 {
      FromUnfold(p, t, i, j);
      LiteralsOccur(p, t, i + 1, j + 1, n - 1);
    }
  }

  /** Between star `star` and a later star at `pi` only the leftmost placement of the literals
      matters, so the earlier star never needs to be revisited. */
  lemma LaterStarSuffices(p: string, t: string, star: nat, match_: nat, pi: nat, ti: nat)
    requires star < pi < |p| && p[star] == '*' && p[pi] == '*' && ti <= |t| && match_ <= ti
    requires pi - (star + 1) == ti - match_ && Literal(p, t, star + 1, match_, ti - match_)
    ensures From(p, t, star, match_) <==> From(p, t, pi, ti)
  {
    var n := ti - match_;
    if From(p, t, pi, ti) {
      LiteralPrefix(p, t, star + 1, match_, n);
      FromUnfold(p, t, star, match_);
    }
    if From(p, t, star, match_) {
      var j := StarStops(p, t, star, match_);
      LiteralsOccur(p, t, star + 1, j, n);
      StarAbsorbs(p, t, pi, ti, j + n);
    }
  }

  /** When the text is used up the current placement is the only one left. */
  lemma LastPlacement(p: string, t: string, star: nat, match_: nat, pi: nat)
    requires star < pi <= |p| && p[star] == '*' && match_ <= |t|
    requires pi - (star + 1) == |t| - match_ && Literal(p, t, star + 1, match_, |t| - match_)
    ensures From(p, t, star, match_) <==> From(p, t, pi, |t|)
  {
    var n := |t| - match_;
    LiteralPrefix(p, t, star + 1, match_, n);
    FromUnfold(p, t, star, match_);
    if From(p, t, star, match_) {
      var j := StarStops(p, t, star, match_);
      LiteralsOccur(p, t, star + 1, j, n);
    }
  }

  lemma MismatchAdvances(p: string, t: string, star: nat, match_: nat, pi: nat, ti: nat)
    requires star < pi <= |p| && p[star] == '*' && match_ <= ti < |t|
    requires pi - (star + 1) == ti - match_ && Literal(p, t, star + 1, match_, ti - match_)
    requires pi < |p| ==> p[pi] != '*' && p[pi] != t[ti]
    ensures From(p, t, star, match_) <==> From(p, t, star, match_ + 1)
  {
    LiteralPrefix(p, t, star + 1, match_, ti - match_);
    NoMatchHere(p, t, pi, ti);
    FromUnfold(p, t, star, match_);
  }

  lemma NoMatchHere(p: string, t: string, pi: nat, ti: nat)
    requires pi <= |p| && ti < |t|
    requires pi < |p| ==> p[pi] != '*' && p[pi] != t[ti]
    ensures !From(p, t, pi, ti)
  {
    if pi < |p| {
      FromUnfold(p, t, pi, ti);
    }
  }

  /** The matcher's state: either no star was seen and matching is where it was, or the whole
      question is the last star at the remembered text position, with the literals since then
      already compared. */
  ghost predicate Searching(p: string, t: string, pi: nat, ti: nat, star: int, match_: nat) {
    && pi <= |p| && ti <= |t| && match_ <= ti && -1 <= star < |p|
    && if star < 0 then Matches(p, t) <==> From(p, t, pi, ti)
       else
         && star < pi && p[star] == '*'
         && pi - (star + 1) == ti - match_
         && Literal(p, t, star + 1, match_, ti - match_)
         && (Matches(p, t) <==> From(p, t, star, match_))
  }

  lemma SeeStar(p: string, t: string, pi: nat, ti: nat, star: int, match_: nat)
    requires Searching(p, t, pi, ti, star, match_) && pi < |p| && p[pi] == '*'
    ensures Searching(p, t, pi + 1, ti, pi, ti)
  {
    if star >= 0 {
      LaterStarSuffices(p, t, star, match_, pi, ti);
    }
  }

  lemma SeeLiteral(p: string, t: string, pi: nat, ti: nat, star: int, match_: nat)
    requires Searching(p, t, pi, ti, star, match_) && pi < |p| && ti < |t| && p[pi] != '*' && p[pi] == t[ti]
    ensures Searching(p, t, pi + 1, ti + 1, star, match_)
  {
    if star < 0 {
      FromUnfold(p, t, pi, ti);
    } else {
      assert p[star + 1..pi + 1] == p[star + 1..pi] + [p[pi]];
      assert t[match_..ti + 1] == t[match_..ti] + [t[ti]];
    }
  }

  method GlobMatch(pattern: string, text: string) returns (matched: bool)
    ensures matched <==> Matches(pattern, text)
  {
    var pi, ti, star, match_ := 0, 0, -1, 0;
    assert pattern[0..] == pattern && text[0..] == text;
    while ti < |text|
      invariant Searching(pattern, text, pi, ti, star, match_)
      decreases |text| - match_, |pattern| - star, |text| - ti
    {
      if pi < |pattern| && pattern[pi] == '*' {
        SeeStar(pattern, text, pi, ti, star, match_);
        star := pi;
        pi := pi + 1;
        match_ := ti;
      } else if pi < |pattern| && pattern[pi] == text[ti] {
        SeeLiteral(pattern, text, pi, ti, star, match_);
        pi := pi + 1;
        ti := ti + 1;
      } else if star != -1 {
        MismatchAdvances(pattern, text, star, match_, pi, ti);
        pi := star + 1;
        match_ := match_ + 1;
        ti := match_;
      } else {
        NoMatchHere(pattern, text, pi, ti);
        return false;
      }
    }
    if star >= 0 {
      LastPlacement(pattern, text, star, match_, pi);
    }
    while pi < |pattern| && pattern[pi] == '*'
      invariant pi <= |pattern|
      invariant Matches(pattern, text) <==> From(pattern, text, pi, |text|)
    {
      FromUnfold(pattern, text, pi, |text|);
      pi := pi + 1;
    }
    if pi < |pattern| {
      FromUnfold(pattern, text, pi, |text|);
    }
    return pi == |pattern|;
  }

  // ---------------------------------------------------------------- rules and decisions

  datatype Verdict = Allow | Deny | Ask

  datatype Mode = Strict | Default | Permissive | Sandboxed

  datatype Capability = ReadFile | WriteFile | RunShell | EgressHttp | Other(name: string)

  /** `input` is the compiled input pattern, known only by which inputs it accepts. */
  datatype Rule = Rule(verdict: Verdict, toolPattern: string, capability: Option<Capability>,
                       input: Option<string -> bool>, replayMax: nat, approvalTtl: nat)

  datatype Reason = ByRule(index: nat) | ByMode(mode: Mode)

  datatype Decision = Decision(verdict: Verdict, reason: Reason, replayMax: nat, approvalTtl: nat)

  const DEFAULT_REPLAY_MAX: nat := 8
  const DEFAULT_APPROVAL_TTL: nat := 3600

  /** How much a verdict restricts: allow, then ask, then deny. */
  function Rank(v: Verdict): nat {
    match v
    case Allow => 0
    case Ask => 1
    case Deny => 2
  }

  function ModeDefault(mode: Mode): Verdict {
    match mode
    case Strict => Deny
    case Sandboxed => Deny
    case Default => Ask
    case Permissive => Allow
  }

  /** One call as a rule sees it: the tool, its input and one required capability, if any. */
  datatype Call = Call(tool: string, input: string, capability: Option<Capability>)

  ghost predicate Applies(rule: Rule, call: Call) {
    && Matches(rule.toolPattern, call.tool)
    && (rule.capability.None? || rule.capability == call.capability)
    && (rule.input.None? || rule.input.value(call.input))
  }

  /** Some rule with this verdict applies. */
  ghost predicate Any(rules: seq<Rule>, v: Verdict, call: Call) {
    exists i :: 0 <= i < |rules| && rules[i].verdict == v && Applies(rules[i], call)
  }

  /** Index of the first applicable rule with this verdict. */
  ghost function First(rules: seq<Rule>, v: Verdict, call: Call): (i: nat)
    requires Any(rules, v, call)
    ensures i < |rules| && rules[i].verdict == v && Applies(rules[i], call)
    ensures forall k :: 0 <= k < i ==> rules[k].verdict != v || !Applies(rules[k], call)
  {
    if rules[0].verdict == v && Applies(rules[0], call) then 0
    else
      var j :| 0 <= j < |rules| && rules[j].verdict == v && Applies(rules[j], call);
      assert rules[1..][j - 1] == rules[j];
      var i := First(rules[1..], v, call) + 1;
      assert forall k :: 0 < k < i ==> rules[k] == rules[1..][k - 1];
      i
  }

  ghost function FiredBy(rules: seq<Rule>, v: Verdict, call: Call): Decision
    requires Any(rules, v, call)
  {
    var i := First(rules, v, call);
    Decision(v, ByRule(i), rules[i].replayMax, rules[i].approvalTtl)
  }

  /** Deny rules outrank allow rules, which outrank ask rules; the mode decides the rest. */
  ghost function Requirement(rules: seq<Rule>, call: Call, mode: Mode): Decision {
    if Any(rules, Deny, call) then FiredBy(rules, Deny, call)
    else if Any(rules, Allow, call) then FiredBy(rules, Allow, call)
    else if Any(rules, Ask, call) then FiredBy(rules, Ask, call)
    else Decision(ModeDefault(mode), ByMode(mode), DEFAULT_REPLAY_MAX, DEFAULT_APPROVAL_TTL)
  }

  method FindRule(rules: seq<Rule>, v: Verdict, call: Call) returns (found: Option<nat>)
    ensures found.Some? <==> Any(rules, v, call)
    ensures found.Some? ==> found.value == First(rules, v, call)
  {
    for i := 0 to |rules|
      invariant forall k :: 0 <= k < i ==> rules[k].verdict != v || !Applies(rules[k], call)
    {
      var rule := rules[i];
      if rule.verdict == v {
        var named := GlobMatch(rule.toolPattern, call.tool);
        if named && (rule.capability.None? || rule.capability == call.capability)
           && (rule.input.None? || rule.input.value(call.input)) {
          return Some(i);
        }
      }
    }
    return None;
  }

  /** The decision is that of the first rule with its verdict that applies, with that rule's limits. */
  ghost predicate Fires(d: Decision, rules: seq<Rule>, v: Verdict, call: Call) {
    && d.verdict == v && d.reason.ByRule? && d.reason.index < |rules|
    && var rule := rules[d.reason.index];
    && rule.verdict == v && Applies(rule, call) && d.replayMax == rule.replayMax && d.approvalTtl == rule.approvalTtl
    && forall k :: 0 <= k < d.reason.index ==> rules[k].verdict != v || !Applies(rules[k], call)
  }

  /** A deny rule that applies decides; otherwise an allow rule; otherwise an ask rule. Without any of
      them permissive mode allows, default mode asks, and the other modes deny. */
  method EvaluateRequirement(rules: seq<Rule>, call: Call, mode: Mode) returns (d: Decision)
    ensures d == Requirement(rules, call, mode)
    ensures Any(rules, Deny, call) ==> Fires(d, rules, Deny, call)
    ensures !Any(rules, Deny, call) && Any(rules, Allow, call) ==> Fires(d, rules, Allow, call)
    ensures !Any(rules, Deny, call) && !Any(rules, Allow, call) && Any(rules, Ask, call) ==> Fires(d, rules, Ask, call)
    ensures !Any(rules, Deny, call) && !Any(rules, Allow, call) && !Any(rules, Ask, call) ==>
      && d.reason == ByMode(mode) && d.replayMax == 8 && d.approvalTtl == 3600
      && d.verdict == (if mode == Permissive then Allow else if mode == Default then Ask else Deny)
  {
    var order := [Deny, Allow, Ask];
    for k := 0 to 3
      invariant k >= 1 ==> !Any(rules, Deny, call)
      invariant k >= 2 ==> !Any(rules, Allow, call)
      invariant k >= 3 ==> !Any(rules, Ask, call)
    {
      var found := FindRule(rules, order[k], call);
      if found.Some? {
        var rule := rules[found.value];
        return Decision(order[k], ByRule(found.value), rule.replayMax, rule.approvalTtl);
      }
    }
    return Decision(ModeDefault(mode), ByMode(mode), DEFAULT_REPLAY_MAX, DEFAULT_APPROVAL_TTL);
  }

  function Min(a: nat, b: nat): nat {
    if a <= b then a else b
  }

  function Intersect(left: Decision, right: Decision): (r: Decision)
    ensures Rank(r.verdict) == if Rank(left.verdict) >= Rank(right.verdict) then Rank(left.verdict)
                               else Rank(right.verdict)
  {
    if left.verdict == Deny then left
    else if right.verdict == Deny then right
    else if right.verdict == Ask then
      if left.verdict == Ask then
        left.(replayMax := Min(left.replayMax, right.replayMax),
              approvalTtl := Min(left.approvalTtl, right.approvalTtl))
      else right
    else left
  }

  ghost function Requires(rules: seq<Rule>, tool: string, input: string, c: Capability, mode: Mode): Decision {
    Requirement(rules, Call(tool, input, Some(c)), mode)
  }

  /** The decision for a nonempty list of required capabilities. */
  ghost function Combined(rules: seq<Rule>, tool: string, input: string, caps: seq<Capability>, mode: Mode): Decision
    requires caps != []
  {
    var last := Requires(rules, tool, input, caps[|caps| - 1], mode);
    if |caps| == 1 then last else Intersect(Combined(rules, tool, input, caps[..|caps| - 1], mode), last)
  }

  ghost function Evaluated(rules: seq<Rule>, tool: string, input: string, caps: seq<Capability>, mode: Mode): Decision {
    if caps == [] then Requirement(rules, Call(tool, input, None), mode)
    else Combined(rules, tool, input, caps, mode)
  }

  /** The decision over the first `k` capabilities. */
  ghost function CombinedFirst(rules: seq<Rule>, tool: string, input: string, caps: seq<Capability>, mode: Mode, k: nat): Decision
    requires 0 < k <= |caps|
  {
    Combined(rules, tool, input, caps[..k], mode)
  }

  lemma CombinedEnds(rules: seq<Rule>, tool: string, input: string, caps: seq<Capability>, mode: Mode)
    requires caps != []
    ensures CombinedFirst(rules, tool, input, caps, mode, 1) == Requires(rules, tool, input, caps[0], mode)
    ensures CombinedFirst(rules, tool, input, caps, mode, |caps|) == Combined(rules, tool, input, caps, mode)
  {
    assert caps[..1] == [caps[0]] && caps[..|caps|] == caps;
  }

  lemma CombinedStep(rules: seq<Rule>, tool: string, input: string, caps: seq<Capability>, mode: Mode, k: nat)
    requires 0 < k < |caps|
    ensures CombinedFirst(rules, tool, input, caps, mode, k + 1)
      == Intersect(CombinedFirst(rules, tool, input, caps, mode, k), Requires(rules, tool, input, caps[k], mode))
  {
    assert caps[..k + 1][..k] == caps[..k];
  }

  lemma {:induction false} DenyIsFinal(rules: seq<Rule>, tool: string, input: string, caps: seq<Capability>,
                                       mode: Mode, k: nat)
    requires 0 < k <= |caps| && CombinedFirst(rules, tool, input, caps, mode, k).verdict == Deny
    ensures CombinedFirst(rules, tool, input, caps, mode, |caps|) == CombinedFirst(rules, tool, input, caps, mode, k)
    decreases |caps| - k
  {
    if k < |caps| {
      CombinedStep(rules, tool, input, caps, mode, k);
      DenyIsFinal(rules, tool, input, caps, mode, k + 1);
    }
  }

  method Evaluate(rules: seq<Rule>, tool: string, input: string, caps: seq<Capability>, mode: Mode)
    returns (d: Decision)
    ensures d == Evaluated(rules, tool, input, caps, mode)
  {
    if caps == [] {
      d := EvaluateRequirement(rules, Call(tool, input, None), mode);
      return;
    }
    d := EvaluateRequirement(rules, Call(tool, input, Some(caps[0])), mode);
    CombinedEnds(rules, tool, input, caps, mode);
    for i := 1 to |caps|
      invariant d == CombinedFirst(rules, tool, input, caps, mode, i)
    {
      if d.verdict == Deny {
        DenyIsFinal(rules, tool, input, caps, mode, i);
        return;
      }
      var next := EvaluateRequirement(rules, Call(tool, input, Some(caps[i])), mode);
      CombinedStep(rules, tool, input, caps, mode, i);
      d := Intersect(d, next);
    }
  }

  // ---------------------------------------------------------------- what the verdict means

  /** `d` restricts as much as the strictest required capability and no more; when it asks, its
      limits are the smallest among the capabilities that ask. */
  ghost predicate Strictest(d: Decision, rules: seq<Rule>, tool: string, input: string, caps: seq<Capability>, mode: Mode) {
    && (forall c :: c in caps ==> Rank(Requires(rules, tool, input, c, mode).verdict) <= Rank(d.verdict))
    && (exists c :: c in caps && Requires(rules, tool, input, c, mode).verdict == d.verdict)
    && (d.verdict == Ask ==>
         && (forall c :: c in caps && Requires(rules, tool, input, c, mode).verdict == Ask ==>
              && d.replayMax <= Requires(rules, tool, input, c, mode).replayMax
              && d.approvalTtl <= Requires(rules, tool, input, c, mode).approvalTtl)
         && (exists c :: c in caps && Requires(rules, tool, input, c, mode).verdict == Ask
              && d.replayMax == Requires(rules, tool, input, c, mode).replayMax)
         && (exists c :: c in caps && Requires(rules, tool, input, c, mode).verdict == Ask
              && d.approvalTtl == Requires(rules, tool, input, c, mode).approvalTtl))
  }

  lemma StrictestSingle(rules: seq<Rule>, tool: string, input: string, c: Capability, mode: Mode)
    ensures Strictest(Requires(rules, tool, input, c, mode), rules, tool, input, [c], mode)
  {
    assert c in [c];
  }

  lemma StrictestStep(d: Decision, rules: seq<Rule>, tool: string, input: string, caps: seq<Capability>,
                      mode: Mode, c: Capability)
    requires Strictest(d, rules, tool, input, caps, mode)
    ensures Strictest(Intersect(d, Requires(rules, tool, input, c, mode)), rules, tool, input, caps + [c], mode)
  {
    var all := caps + [c];
    var r := Requires(rules, tool, input, c, mode);
    var e := Intersect(d, r);
    assert c in all;
    assert forall x :: x in caps ==> x in all;
    if d.verdict == Ask && r.verdict == Ask {
      var x :| x in caps && Requires(rules, tool, input, x, mode).verdict == Ask
        && d.replayMax == Requires(rules, tool, input, x, mode).replayMax;
      var y :| y in caps && Requires(rules, tool, input, y, mode).verdict == Ask
        && d.approvalTtl == Requires(rules, tool, input, y, mode).approvalTtl;
      assert x in all && y in all;
      assert e.replayMax == (if d.replayMax <= r.replayMax then d.replayMax else r.replayMax);
    }
  }

  lemma {:induction false} CombinedIsStrictest(rules: seq<Rule>, tool: string, input: string,
                                               caps: seq<Capability>, mode: Mode)
    requires caps != []
    ensures Strictest(Combined(rules, tool, input, caps, mode), rules, tool, input, caps, mode)
    decreases |caps|
  {
    var init, last := caps[..|caps| - 1], caps[|caps| - 1];
    assert caps == init + [last];
    if init == [] {
      StrictestSingle(rules, tool, input, last, mode);
    } else {
      CombinedIsStrictest(rules, tool, input, init, mode);
      StrictestStep(Combined(rules, tool, input, init, mode), rules, tool, input, init, mode, last);
    }
  }

  /** Verdict and ask limits depend only on which capabilities are required. */
  lemma OrderIrrelevant(rules: seq<Rule>, tool: string, input: string, caps: seq<Capability>,
                        caps': seq<Capability>, mode: Mode)
    requires forall c :: c in caps <==> c in caps'
    ensures var d, d' := Evaluated(rules, tool, input, caps, mode), Evaluated(rules, tool, input, caps', mode);
      d.verdict == d'.verdict && (d.verdict == Ask ==> d.replayMax == d'.replayMax && d.approvalTtl == d'.approvalTtl)
  {
    if caps' != [] {
      assert caps'[0] in caps;
    }
    if caps != [] {
      assert caps[0] in caps';
      CombinedIsStrictest(rules, tool, input, caps, mode);
      CombinedIsStrictest(rules, tool, input, caps', mode);
      var d, d' := Combined(rules, tool, input, caps, mode), Combined(rules, tool, input, caps', mode);
      var c :| c in caps && Requires(rules, tool, input, c, mode).verdict == d.verdict;
      var c' :| c' in caps' && Requires(rules, tool, input, c', mode).verdict == d'.verdict;
      assert c in caps' && c' in caps;
      assert Rank(d.verdict) == Rank(d'.verdict);
    }
  }

  /** Requiring one more capability never loosens a nonempty requirement. */
  lemma MoreCapabilitiesTighten(rules: seq<Rule>, tool: string, input: string, caps: seq<Capability>,
                                c: Capability, mode: Mode)
    requires caps != []
    ensures Rank(Evaluated(rules, tool, input, caps + [c], mode).verdict) >=
            Rank(Evaluated(rules, tool, input, caps, mode).verdict)
  {
    assert (caps + [c])[..|caps|] == caps;
  }

  /** A rule written for capability `c` can apply once `c` is required; rules for the whole tool
      apply either way. */
  lemma NamingACapabilityAddsRules(rules: seq<Rule>, v: Verdict, tool: string, input: string, c: Capability)
    ensures Any(rules, v, Call(tool, input, None)) ==> Any(rules, v, Call(tool, input, Some(c)))
  {
    var bare, named := Call(tool, input, None), Call(tool, input, Some(c));
    if Any(rules, v, bare) {
      var i :| 0 <= i < |rules| && rules[i].verdict == v && Applies(rules[i], bare);
      assert Applies(rules[i], named);
    }
  }

  /** Whether going from no required capability to `c` gives up a restriction, from the rules. */
  ghost predicate Loosens(rules: seq<Rule>, tool: string, input: string, c: Capability, mode: Mode) {
    var bare, named := Call(tool, input, None), Call(tool, input, Some(c));
    && !Any(rules, Deny, named)
    && !Any(rules, Allow, bare)
    && (if Any(rules, Allow, named) then Any(rules, Ask, bare) || ModeDefault(mode) != Allow
        else Any(rules, Ask, named) && !Any(rules, Ask, bare) && ModeDefault(mode) == Deny)
  }

  /** The condition is decided from the rules alone, before anything is evaluated. */
  method DecideLoosens(rules: seq<Rule>, tool: string, input: string, c: Capability, mode: Mode) returns (loosens: bool)
    ensures loosens <==> Loosens(rules, tool, input, c, mode)
  {
    var bare, named := Call(tool, input, None), Call(tool, input, Some(c));
    var denied := FindRule(rules, Deny, named);
    var allowedBare := FindRule(rules, Allow, bare);
    var allowed := FindRule(rules, Allow, named);
    var askedBare := FindRule(rules, Ask, bare);
    var asked := FindRule(rules, Ask, named);
    loosens := denied.None? && allowedBare.None?
      && (if allowed.Some? then askedBare.Some? || ModeDefault(mode) != Allow
          else asked.Some? && askedBare.None? && ModeDefault(mode) == Deny);
  }

  /** From the empty list the law fails, exactly when a scoped rule of the capability is looser
      than what applied to the whole tool. */
  lemma FirstCapabilityTightensIff(rules: seq<Rule>, tool: string, input: string, c: Capability, mode: Mode)
    ensures Rank(Evaluated(rules, tool, input, [c], mode).verdict) >=
            Rank(Evaluated(rules, tool, input, [], mode).verdict)
        <==> !Loosens(rules, tool, input, c, mode)
  {
    NamingACapabilityAddsRules(rules, Deny, tool, input, c);
    NamingACapabilityAddsRules(rules, Allow, tool, input, c);
    NamingACapabilityAddsRules(rules, Ask, tool, input, c);
  }

  lemma FirstCapabilityMayLoosen()
    ensures var rules := [Rule(Allow, "File*", Some(ReadFile), None, 8, 3600)];
      && Evaluated(rules, "FileRead", "{}", [], Strict).verdict == Deny
      && Evaluated(rules, "FileRead", "{}", [ReadFile], Strict).verdict == Allow
  {
    var rules := [Rule(Allow, "File*", Some(ReadFile), None, 8, 3600)];
    var bare, named := Call("FileRead", "{}", None), Call("FileRead", "{}", Some(ReadFile));
    NamedMatches();
    assert Applies(rules[0], named);
    assert Any(rules, Allow, named) && !Any(rules, Deny, named);
    assert !Any(rules, Deny, bare) && !Any(rules, Allow, bare) && !Any(rules, Ask, bare);
    assert Requires(rules, "FileRead", "{}", ReadFile, Strict).verdict == Allow;
  }

  lemma NamedMatches()
    ensures Matches("File*", "FileRead")
  {
    assert Matches("", "");
    assert Matches("*", "");
    assert Matches("*", "d");
    assert Matches("*", "ad") by { assert "ad"[1..] == "d"; }
    assert Matches("*", "ead") by { assert "ead"[1..] == "ad"; }
    assert Matches("*", "Read") by { assert "Read"[1..] == "ead"; }
    assert Matches("e*", "eRead") by { assert "e*"[1..] == "*" && "eRead"[1..] == "Read"; }
    assert Matches("le*", "leRead") by { assert "le*"[1..] == "e*" && "leRead"[1..] == "eRead"; }
    assert Matches("ile*", "ileRead") by { assert "ile*"[1..] == "le*" && "ileRead"[1..] == "leRead"; }
    assert "File*"[1..] == "ile*" && "FileRead"[1..] == "ileRead";
  }

  // ---------------------------------------------------------------- adding a deny rule

  function Insert(rules: seq<Rule>, at: nat, rule: Rule): seq<Rule>
    requires at <= |rules|
  {
    rules[..at] + [rule] + rules[at..]
  }

  lemma AnyInserted(rules: seq<Rule>, at: nat, rule: Rule, v: Verdict, call: Call)
    requires at <= |rules|
    ensures Any(Insert(rules, at, rule), v, call) <==>
      Any(rules, v, call) || (rule.verdict == v && Applies(rule, call))
  {
    var more := Insert(rules, at, rule);
    if Any(rules, v, call) {
      var i :| 0 <= i < |rules| && rules[i].verdict == v && Applies(rules[i], call);
      var j := if i < at then i else i + 1;
      assert more[j] == rules[i];
    }
    assert more[at] == rule;
    if Any(more, v, call) {
      var i :| 0 <= i < |more| && more[i].verdict == v && Applies(more[i], call);
      if i != at {
        var j := if i < at then i else i - 1;
        assert more[i] == rules[j];
      }
    }
  }

  lemma DenyRuleTightensRequirement(rules: seq<Rule>, at: nat, rule: Rule, call: Call, mode: Mode)
    requires at <= |rules| && rule.verdict == Deny
    ensures Rank(Requirement(Insert(rules, at, rule), call, mode).verdict) >=
            Rank(Requirement(rules, call, mode).verdict)
  {
    AnyInserted(rules, at, rule, Deny, call);
    AnyInserted(rules, at, rule, Allow, call);
    AnyInserted(rules, at, rule, Ask, call);
  }

  /** Adding a deny rule anywhere never loosens a decision. */
  lemma {:induction false} DenyRuleTightens(rules: seq<Rule>, at: nat, rule: Rule, tool: string, input: string,
                                            caps: seq<Capability>, mode: Mode)
    requires at <= |rules| && rule.verdict == Deny
    ensures Rank(Evaluated(Insert(rules, at, rule), tool, input, caps, mode).verdict) >=
            Rank(Evaluated(rules, tool, input, caps, mode).verdict)
    decreases |caps|
  {
    if caps == [] {
      DenyRuleTightensRequirement(rules, at, rule, Call(tool, input, None), mode);
    } else {
      DenyRuleTightensRequirement(rules, at, rule, Call(tool, input, Some(caps[|caps| - 1])), mode);
      if |caps| > 1 {
        DenyRuleTightens(rules, at, rule, tool, input, caps[..|caps| - 1], mode);
      }
    }
  }
}
