/** From an agent's relevance labels to the exported training events: what lines up with what. */
module Export {
  import opened Wrappers
  import opened Sets

  datatype RuleRef = RuleRef(id: string, expected: int, required: bool)

  datatype Judgement = Judgement(rule: string, mark: string, rationale: string)

  // A saved memory as the relevance check reads it; its id is printed by the database in lower case.
  datatype Practice = Practice(id: string, text: string, rev: int, isPractice: bool)

  datatype Rule = Rule(id: string, text: string, required: bool)

  datatype Decision = Decision(rule: string, included: bool, reason: string, probability: Option<real>)

  datatype Response = Response(
    decisionId: string, mode: string, modelVersion: Option<string>, calibrationVersion: Option<string>,
    calibrated: bool, coverage: string, decisions: seq<Decision>)

  datatype Error = Invalid | Conflict | NotFound | Unavailable

  // The stored snapshot: the request sent, the response with the memories behind it, the agent's labels.
  datatype Payload = Payload(
    origin: string, model: string, request: seq<Rule>, response: Response, rules: seq<Practice>,
    judgements: seq<Judgement>)

  datatype Review = Review(sharedTraining: bool, sensitiveReviewed: bool, origin: string, judgements: seq<Judgement>)

  datatype Event = Event(rule: string, rev: int, prediction: string, mark: string)

  // ---- identifiers ----

  predicate Hex(c: char) {
    '0' <= c <= '9' || 'a' <= c <= 'f' || 'A' <= c <= 'F'
  }

  function WithoutDashes(s: string): string {
    if s == "" then "" else (if s[0] == '-' then "" else [s[0]]) + WithoutDashes(s[1..])
  }

  // core.ValidID: every dash is stripped before the hexadecimal digits are decoded.
  predicate ValidId(s: string) {
    && |s| == 36 && s[8] == '-' && s[13] == '-' && s[18] == '-' && s[23] == '-'
    && |WithoutDashes(s)| % 2 == 0
    && forall i | 0 <= i < |WithoutDashes(s)| :: Hex(WithoutDashes(s)[i])
  }

  // store.validUUID
  predicate ValidUuid(s: string) {
    |s| == 36 && forall i | 0 <= i < |s| :: if i in {8, 13, 18, 23} then s[i] == '-' else Hex(s[i])
  }

  function Lower(s: string): string {
    seq(|s|, i requires 0 <= i < |s| => if 'A' <= s[i] <= 'Z' then s[i] - 'A' + 'a' else s[i])
  }

  predicate Canonical(s: string) {
    Lower(s) == s
  }

  lemma LowerIdempotent(s: string)
    ensures Canonical(Lower(s))
  {
  }

  // Strings are byte strings, in UTF-8. The number of bytes of the white-space character that `s`
  // starts with, or 0: the ASCII ones, then U+0085 and U+00A0, then U+1680, U+2000 to U+200A, U+2028,
  // U+2029, U+202F, U+205F and U+3000.
  function SpaceLength(s: string): (n: nat)
    ensures n <= |s|
  {
    if |s| >= 1 && s[0] in " \t\n\U{0B}\U{0C}\r" then 1
    else if |s| >= 2 && s[0] == '\U{C2}' && s[1] in "\U{85}\U{A0}" then 2
    else if |s| >= 3 && (
      || (s[0] == '\U{E1}' && s[1] == '\U{9A}' && s[2] == '\U{80}')
      || (s[0] == '\U{E2}' && s[1] == '\U{80}' && ('\U{80}' <= s[2] <= '\U{8A}' || s[2] in "\U{A8}\U{A9}\U{AF}"))
      || (s[0] == '\U{E2}' && s[1] == '\U{81}' && s[2] == '\U{9F}')
      || (s[0] == '\U{E3}' && s[1] == '\U{80}' && s[2] == '\U{80}'))
    then 3
    else 0
  }

  // Empty after strings.TrimSpace.
  predicate Blank(s: string) {
    s == "" || (SpaceLength(s) > 0 && Blank(s[SpaceLength(s)..]))
  }

  // ---- validateJudgements ----

  predicate LabelOk(j: Judgement) {
    && j.mark in ["relevant", "not_relevant", "insufficient_context"]
    && !Blank(j.rationale) && |j.rationale| <= 2000
  }

  ghost predicate DistinctStrings(ids: seq<string>) {
    forall i, j | 0 <= i < j < |ids| :: ids[i] != ids[j]
  }

  function RuleIds(judgements: seq<Judgement>): seq<string> {
    seq(|judgements|, i requires 0 <= i < |judgements| => judgements[i].rule)
  }

  /** Exactly one well-formed label for every one of 1 to 64 distinct valid rule ids. */
  ghost predicate OneLabelEach(rules: seq<string>, judgements: seq<Judgement>) {
    && 1 <= |rules| <= 64 && |judgements| == |rules|
    && DistinctStrings(rules) && DistinctStrings(RuleIds(judgements))
    && (forall i | 0 <= i < |rules| :: ValidId(rules[i]))
    && (forall i | 0 <= i < |judgements| :: LabelOk(judgements[i]))
    && (forall i | 0 <= i < |rules| :: rules[i] in RuleIds(judgements))
    && (forall i | 0 <= i < |judgements| :: judgements[i].rule in rules)
  }

  /** The delete loop accepts the one-to-one labelings and nothing else. */
  method ValidateJudgements(rules: seq<string>, judgements: seq<Judgement>) returns (ok: bool)
    ensures ok <==> OneLabelEach(rules, judgements)
    ensures ok ==> forall i | 0 <= i < |judgements| ::
              && judgements[i].mark in {"relevant", "not_relevant", "insufficient_context"}
              && 0 < |judgements[i].rationale| <= 2000
  {
    if |rules| < 1 || |rules| > 64 || |judgements| != |rules| { return false; }
    var ids: set<string> := {};
    for i := 0 to |rules|
      invariant ids == Members(rules[..i]) && DistinctStrings(rules[..i])
      invariant forall k | 0 <= k < i :: ValidId(rules[k])
    {
      Prefix(rules, i);
      if !ValidId(rules[i]) || rules[i] in ids { return false; }
      ids := ids + {rules[i]};
    }
    assert rules[..|rules|] == rules;
    ghost var names := RuleIds(judgements);
    for i := 0 to |judgements|
      invariant ids == Members(rules) - Members(names[..i]) && DistinctStrings(names[..i])
      invariant forall k | 0 <= k < i :: LabelOk(judgements[k]) && names[k] in Members(rules)
    {
      Prefix(names, i);
      if judgements[i].rule !in ids || !LabelOk(judgements[i]) {
        LabelRefused(rules, judgements, i);
        return false;
      }
      ids := ids - {judgements[i].rule};
    }
    assert names[..|names|] == names;
    Pigeonhole(rules, names);
    return true;
  }

  lemma LabelRefused(rules: seq<string>, judgements: seq<Judgement>, i: nat)
    requires i < |judgements|
    requires judgements[i].rule !in Members(rules) - Members(RuleIds(judgements)[..i]) || !LabelOk(judgements[i])
    ensures !OneLabelEach(rules, judgements)
  {
    Prefix(RuleIds(judgements), i);
  }

  lemma Prefix(s: seq<string>, i: nat)
    requires i < |s|
    ensures Members(s[..i + 1]) == Members(s[..i]) + {s[i]}
    ensures DistinctStrings(s[..i + 1]) <==> DistinctStrings(s[..i]) && s[i] !in Members(s[..i])
    ensures s[i] in Members(s[..i]) ==> !DistinctStrings(s)
  {
    assert s[..i + 1] == s[..i] + [s[i]];
    MembersSnoc(s[..i], s[i]);
    if s[i] in Members(s[..i]) {
      var k :| 0 <= k < i && s[..i][k] == s[i];
      assert s[..i + 1][k] == s[..i + 1][i];
      assert s[k] == s[i];
    }
  }

  ghost function Members(s: seq<string>): set<string> {
    set x | x in s
  }

  lemma MembersSnoc(s: seq<string>, x: string)
    ensures Members(s + [x]) == Members(s) + {x}
  {
    forall y ensures y in s + [x] <==> y in s || y == x {}
  }

  lemma {:induction false} DistinctSize(s: seq<string>)
    requires DistinctStrings(s)
    ensures |Members(s)| == |s|
  {
    if s == [] {
      assert Members(s) == {};
    } else {
      var n := |s| - 1;
      DistinctSize(s[..n]);
      MembersSnoc(s[..n], s[n]);
      assert s == s[..n] + [s[n]];
      assert s[n] !in s[..n];
    }
  }

  lemma Pigeonhole(a: seq<string>, b: seq<string>)
    requires DistinctStrings(a) && DistinctStrings(b) && |a| == |b|
    requires forall i | 0 <= i < |b| :: b[i] in a
    ensures Members(a) == Members(b)
    ensures forall i | 0 <= i < |a| :: a[i] in b
  {
    DistinctSize(a);
    DistinctSize(b);
    assert Members(b) <= Members(a);
    SubsetOfSameSize(Members(b), Members(a));
    forall i | 0 <= i < |a| ensures a[i] in b { assert a[i] in Members(a); }
  }

  // ---- relevance ----

  // Get: ids are compared as UUIDs, whatever their spelling.
  function Get(practices: map<string, Practice>, id: string): Option<Practice> {
    if ValidUuid(id) && Lower(id) in practices then Some(practices[Lower(id)]) else None
  }

  ghost predicate Stored(practices: map<string, Practice>) {
    forall id | id in practices :: practices[id].id == id && Canonical(id)
  }

  predicate Resolves(practices: map<string, Practice>, ref: RuleRef) {
    && ValidId(ref.id)
    && (var p := Get(practices, ref.id);
        p.Some? && (ref.expected > 0 ==> ref.expected == p.value.rev) && p.value.isPractice)
  }

  /** What relevance builds: request rule i and memory i both come from reference i. */
  ghost predicate Resolved(
      practices: map<string, Practice>, refs: seq<RuleRef>, request: seq<Rule>, rules: seq<Practice>) {
    && |request| == |rules| == |refs|
    && forall i | 0 <= i < |refs| :: Built(practices, refs[i], request[i], rules[i])
  }

  ghost predicate Built(practices: map<string, Practice>, ref: RuleRef, asked: Rule, rule: Practice) {
    && Resolves(practices, ref)
    && rule == practices[Lower(ref.id)]
    && asked == Rule(rule.id, rule.text, ref.required)
  }

  function RequestIds(request: seq<Rule>): seq<string> {
    seq(|request|, i requires 0 <= i < |request| => request[i].id)
  }

  function RefIds(refs: seq<RuleRef>): seq<string> {
    seq(|refs|, i requires 0 <= i < |refs| => refs[i].id)
  }

  /** Builds the aligned request and memory lists, or fails if any reference does not resolve. */
  method Relevance(practices: map<string, Practice>, refs: seq<RuleRef>)
    returns (ok: bool, request: seq<Rule>, rules: seq<Practice>)
    ensures ok <==>
              && 1 <= |refs| <= 64 && DistinctStrings(RefIds(refs))
              && forall i | 0 <= i < |refs| :: Resolves(practices, refs[i])
    ensures ok ==> Resolved(practices, refs, request, rules)
    ensures ok ==> forall i | 0 <= i < |refs| ::
              && rules[i].isPractice && (refs[i].expected > 0 ==> rules[i].rev == refs[i].expected)
              && request[i].id == rules[i].id && request[i].text == rules[i].text
              && request[i].required == refs[i].required
  {
    request, rules := [], [];
    if |refs| == 0 || |refs| > 64 { return false, [], []; }
    var seen: set<string> := {};
    ghost var ids := RefIds(refs);
    for i := 0 to |refs|
      invariant seen == Members(ids[..i]) && DistinctStrings(ids[..i])
      invariant |request| == |rules| == i
      invariant forall k | 0 <= k < i :: Built(practices, refs[k], request[k], rules[k])
    {
      var ref := refs[i];
      Prefix(ids, i);
      if !ValidId(ref.id) || ref.id in seen { return false, [], []; }
      seen := seen + {ref.id};
      var memory := Get(practices, ref.id);
      if memory.None? { return false, [], []; }
      if ref.expected > 0 && ref.expected != memory.value.rev { return false, [], []; }
      if !memory.value.isPractice { return false, [], []; }
      request := request + [Rule(memory.value.id, memory.value.text, ref.required)];
      rules := rules + [memory.value];
    }
    assert ids[..|ids|] == ids;
    return true, request, rules;
  }

  // The client refuses to send a request with repeated rule ids.
  ghost predicate Sendable(request: seq<Rule>) {
    forall i, j | 0 <= i < j < |request| :: request[i].id != request[j].id
  }

  predicate DecisionOk(d: Decision, rule: Rule, baseline: bool) {
    && d.rule == rule.id
    && (rule.required ==> d.included && d.reason == "required")
    && (d.reason == "required" || d.reason == "scope_match" ==> d.included)
    && (d.reason == "abstained" ==> !d.included)
    && d.reason in ["required", "scope_match", "abstained", "model", "keyword"]
    && (d.probability.Some? ==> 0.0 <= d.probability.value <= 1.0)
    && (baseline ==> d.probability.None? && d.reason != "model")
  }

  predicate ValidResponse(out: Response, request: seq<Rule>) {
    && out.decisionId != ""
    && (out.mode == "baseline" || out.mode == "model")
    && (out.coverage == "complete" || out.coverage == "partial")
    && |out.decisions| == |request|
    && (out.mode == "baseline" ==>
          out.modelVersion.None? && out.calibrationVersion.None? && !out.calibrated && out.coverage == "complete")
    && forall i | 0 <= i < |request| :: DecisionOk(out.decisions[i], request[i], out.mode == "baseline")
  }

  // ---- the archive ----

  // What a stored snapshot satisfies: decision i, memory i and request rule i are about one rule.
  ghost predicate Aligned(p: Payload) {
    && |p.response.decisions| == |p.rules| == |p.request|
    && Sendable(p.request)
    && forall i | 0 <= i < |p.rules| :: p.request[i].id == p.rules[i].id == p.response.decisions[i].rule
  }

  // labels[id].Label, which is empty for an id without a label; a later label replaces an earlier one.
  ghost function LabelOf(judgements: seq<Judgement>, id: string): string {
    if judgements == [] then ""
    else
      var n := |judgements| - 1;
      if judgements[n].rule == id then judgements[n].mark else LabelOf(judgements[..n], id)
  }

  lemma {:induction false} LabelFound(judgements: seq<Judgement>, id: string) returns (k: int)
    ensures k == -1 ==> id !in RuleIds(judgements) && LabelOf(judgements, id) == ""
    ensures k != -1 ==>
            0 <= k < |judgements| && judgements[k].rule == id && LabelOf(judgements, id) == judgements[k].mark
  {
    if judgements == [] { return -1; }
    var n := |judgements| - 1;
    if judgements[n].rule == id { return n; }
    k := LabelFound(judgements[..n], id);
    if k == -1 {
      assert RuleIds(judgements) == RuleIds(judgements[..n]) + [judgements[n].rule];
    }
  }

  /** What event i says: its own rule and revision, the label given to it, and what was predicted for it. */
  ghost predicate Says(p: Payload, judgements: seq<Judgement>, i: nat, event: Event)
    requires i < |p.rules| == |p.response.decisions|
  {
    var d := p.response.decisions[i];
    && event.rule == p.rules[i].id == d.rule
    && event.rev == p.rules[i].rev
    && event.mark == LabelOf(judgements, p.rules[i].id)
    && (event.prediction == "relevant" <==> d.included)
    && (event.prediction == "insufficient_context" <==> !d.included && d.reason == "abstained")
    && (event.prediction == "not_relevant" <==> !d.included && d.reason != "abstained")
  }

  /** One event per rule, in order, each with its own rule's prediction, revision and label. */
  method Events(p: Payload, judgements: seq<Judgement>) returns (events: seq<Event>)
    requires Aligned(p)
    ensures |events| == |p.rules|
    ensures forall i | 0 <= i < |events| :: Says(p, judgements, i, events[i])
  {
    var labels: map<string, string> := map[];
    for i := 0 to |judgements|
      invariant forall id :: LabelOf(judgements[..i], id) == if id in labels then labels[id] else ""
    {
      assert judgements[..i + 1][..i] == judgements[..i];
      labels := labels[judgements[i].rule := judgements[i].mark];
    }
    assert judgements[..|judgements|] == judgements;
    events := [];
    for i := 0 to |p.response.decisions|
      invariant |events| == i
      invariant forall k | 0 <= k < i :: Says(p, judgements, k, events[k])
    {
      var d, rule := p.response.decisions[i], p.rules[i];
      var prediction := "not_relevant";
      if d.included {
        prediction := "relevant";
      } else if d.reason == "abstained" {
        prediction := "insufficient_context";
      }
      events := events + [Event(rule.id, rule.rev, prediction, if rule.id in labels then labels[rule.id] else "")];
    }
  }

  // ---- who has a label ----

  /** A submission as it is stored: labels and references use the submitted ids, the rules the stored ones. */
  ghost predicate Submission(practices: map<string, Practice>, refs: seq<RuleRef>, p: Payload) {
    && Stored(practices)
    && OneLabelEach(RefIds(refs), p.judgements)
    && Resolved(practices, refs, p.request, p.rules)
    && Sendable(p.request)
    && ValidResponse(p.response, p.request)
  }

  lemma SubmissionAligned(practices: map<string, Practice>, refs: seq<RuleRef>, p: Payload)
    requires Submission(practices, refs, p)
    ensures Aligned(p)
    ensures |p.rules| == |refs| && forall i | 0 <= i < |refs| :: p.rules[i].id == Lower(refs[i].id)
  {
    forall i | 0 <= i < |refs| ensures p.rules[i].id == Lower(refs[i].id) {
      assert Built(practices, refs[i], p.request[i], p.rules[i]);
    }
  }

  /**
  What the events of a submission say about the references it was made with: in order, the stored id
  of each and its expected revision; a required rule and one whose scope matched are predicted
  relevant, and one the service abstained on is predicted to lack context.
  */
  lemma SubmissionExports(
      practices: map<string, Practice>, refs: seq<RuleRef>, p: Payload, judgements: seq<Judgement>, events: seq<Event>,
      i: nat)
    requires Submission(practices, refs, p) && |events| == |p.rules| == |p.response.decisions| && i < |refs|
    requires forall k | 0 <= k < |events| :: Says(p, judgements, k, events[k])
    ensures |events| == |refs| == |p.response.decisions|
    ensures events[i].rule == Lower(refs[i].id)
    ensures refs[i].expected > 0 ==> events[i].rev == refs[i].expected
    ensures refs[i].required || p.response.decisions[i].reason == "scope_match" ==> events[i].prediction == "relevant"
    ensures p.response.decisions[i].reason == "abstained" ==> events[i].prediction == "insufficient_context"
  {
    SubmissionAligned(practices, refs, p);
    assert Says(p, judgements, i, events[i]);
    assert Built(practices, refs[i], p.request[i], p.rules[i]);
    assert DecisionOk(p.response.decisions[i], p.request[i], p.response.mode == "baseline");
  }

  /**
  An automatic candidate exports a label for every rule exactly when every rule id was submitted in
  canonical lower case: labels are kept under the submitted spelling and looked up by the stored one.
  */
  lemma AgentLabelsCompleteIffCanonical(practices: map<string, Practice>, refs: seq<RuleRef>, p: Payload)
    requires Submission(practices, refs, p)
    ensures (forall i | 0 <= i < |p.rules| :: LabelOf(p.judgements, p.rules[i].id) != "")
       <==> (forall i | 0 <= i < |refs| :: Canonical(refs[i].id))
  {
    SubmissionAligned(practices, refs, p);
    forall i | 0 <= i < |refs|
      ensures LabelOf(p.judgements, p.rules[i].id) != "" <==> Canonical(refs[i].id)
    {
      LabelledIffCanonical(practices, refs, p, i);
    }
  }

  lemma LabelledIffCanonical(practices: map<string, Practice>, refs: seq<RuleRef>, p: Payload, i: nat)
    requires Submission(practices, refs, p) && i < |refs|
    ensures |p.rules| == |refs|
    ensures LabelOf(p.judgements, p.rules[i].id) != "" <==> Canonical(refs[i].id)
  {
    SubmissionAligned(practices, refs, p);
    var ids := RefIds(refs);
    var k := LabelFound(p.judgements, p.rules[i].id);
    if k == -1 {
      assert ids[i] in RuleIds(p.judgements);
    } else {
      assert LabelOk(p.judgements[k]);
      assert p.judgements[k].rule in ids;
      var j :| 0 <= j < |refs| && ids[j] == p.judgements[k].rule;
      // Reference j is spelled in lower case, so it names the memory of reference i: it is reference i.
      LowerIdempotent(refs[i].id);
      assert p.rules[j].id == p.rules[i].id;
      assert p.request[j].id == p.request[i].id;
      assert i == j;
    }
  }

  // ---- the two notions of an id ----

  lemma {:induction false} WithoutDashesConcat(a: string, b: string)
    ensures WithoutDashes(a + b) == WithoutDashes(a) + WithoutDashes(b)
  {
    if a == "" {
      assert a + b == b;
    } else {
      assert (a + b)[1..] == a[1..] + b;
      WithoutDashesConcat(a[1..], b);
    }
  }

  lemma {:induction false} NothingToStrip(s: string)
    requires forall i | 0 <= i < |s| :: s[i] != '-'
    ensures WithoutDashes(s) == s
  {
    if s != "" { NothingToStrip(s[1..]); }
  }

  lemma {:induction false} StripsDashes(s: string)
    ensures |WithoutDashes(s)| <= |s|
    ensures |WithoutDashes(s)| == |s| ==> WithoutDashes(s) == s && forall i | 0 <= i < |s| :: s[i] != '-'
  {
    if s != "" { StripsDashes(s[1..]); }
  }

  // The five groups of a text with dashes at the four fixed places.
  lemma {:induction false} Groups(s: string)
    requires |s| == 36 && s[8] == '-' && s[13] == '-' && s[18] == '-' && s[23] == '-'
    ensures WithoutDashes(s) == WithoutDashes(s[..8]) + WithoutDashes(s[9..13]) + WithoutDashes(s[14..18])
                                + WithoutDashes(s[19..23]) + WithoutDashes(s[24..])
  {
    assert s[0..] == s && s[0..8] == s[..8];
    SplitAt(s, 0, 8);
    SplitAt(s, 9, 13);
    SplitAt(s, 14, 18);
    SplitAt(s, 19, 23);
    Regroup(WithoutDashes(s[..8]), WithoutDashes(s[9..13]), WithoutDashes(s[14..18]),
            WithoutDashes(s[19..23]), WithoutDashes(s[24..]));
  }

  lemma Regroup(a: string, b: string, c: string, d: string, e: string)
    ensures a + (b + (c + (d + e))) == a + b + c + d + e
  {
    assert a + (b + (c + (d + e))) == a + b + (c + (d + e)) == a + b + c + (d + e) == a + b + c + d + e;
  }

  lemma SplitAt(s: string, i: nat, j: nat)
    requires i <= j < |s| && s[j] == '-'
    ensures WithoutDashes(s[i..]) == WithoutDashes(s[i..j]) + WithoutDashes(s[j + 1..])
  {
    assert s[i..] == s[i..j] + s[j..];
    WithoutDashesConcat(s[i..j], s[j..]);
    assert s[j..][1..] == s[j + 1..];
  }

  /** A text that ValidID accepts is a UUID exactly if it has no dashes besides the four. */
  lemma {:induction false} ValidIdIsUuidIffFourDashes(s: string)
    ensures ValidUuid(s) <==> ValidId(s) && |WithoutDashes(s)| == 32
  {
    if |s| == 36 && s[8] == '-' && s[13] == '-' && s[18] == '-' && s[23] == '-' {
      Groups(s);
      var a, b, c, d, e := s[..8], s[9..13], s[14..18], s[19..23], s[24..];
      StripsDashes(a);
      StripsDashes(b);
      StripsDashes(c);
      StripsDashes(d);
      StripsDashes(e);
      if ValidUuid(s) {
        NothingToStrip(a);
        NothingToStrip(b);
        NothingToStrip(c);
        NothingToStrip(d);
        NothingToStrip(e);
      }
      if ValidUuid(s) || |WithoutDashes(s)| == 32 { SameDigits(s, a + b + c + d + e); }
    }
  }

  lemma {:induction false} SameDigits(s: string, digits: string)
    requires |s| == 36 && s[8] == '-' && s[13] == '-' && s[18] == '-' && s[23] == '-'
    requires digits == s[..8] + s[9..13] + s[14..18] + s[19..23] + s[24..]
    requires WithoutDashes(s) == digits
    ensures ValidUuid(s) <==> forall i | 0 <= i < |digits| :: Hex(digits[i])
  {
    assert forall i | 0 <= i < 8 :: digits[i] == s[i];
    assert forall i | 8 <= i < 12 :: digits[i] == s[i + 1];
    assert forall i | 12 <= i < 16 :: digits[i] == s[i + 2];
    assert forall i | 16 <= i < 20 :: digits[i] == s[i + 3];
    assert forall i | 20 <= i < 32 :: digits[i] == s[i + 4];
    if forall i | 0 <= i < |digits| :: Hex(digits[i]) {
      forall i | 0 <= i < 36 && i !in {8, 13, 18, 23} ensures Hex(s[i]) {
        var before := if i < 8 then 0 else if i < 13 then 1 else if i < 18 then 2 else if i < 23 then 3 else 4;
        var k := i - before;
        assert Hex(digits[k]);
      }
    }
  }

  // ---- a label that gets lost ----

  /**
  The failing half is not empty: whatever UUID is submitted in another spelling than its canonical
  one, there is a submission whose only rule is exported without a label.
  */
  lemma LabelGetsLost(id: string) returns (practices: map<string, Practice>, refs: seq<RuleRef>, p: Payload)
    requires ValidUuid(id) && !Canonical(id)
    ensures Submission(practices, refs, p)
    ensures |refs| == |p.rules| == 1 && refs[0].id == id && p.rules[0].id == Lower(id)
    ensures LabelOf(p.judgements, p.rules[0].id) == ""
  {
    var stored := Lower(id);
    LowerIdempotent(id);
    ValidIdIsUuidIffFourDashes(id);
    var practice := Practice(stored, "Prefer small functions.", 1, true);
    practices := map[stored := practice];
    refs := [RuleRef(id, 1, false)];
    var request := [Rule(stored, practice.text, false)];
    var response :=
        Response("d", "baseline", None, None, false, "complete", [Decision(stored, false, "keyword", None)]);
    var judgement := Judgement(id, "relevant", "It applies.");
    assert SpaceLength(judgement.rationale) == 0;
    p := Payload("real", "m", request, response, [practice], [judgement]);
    assert Built(practices, refs[0], request[0], practice);
    assert RefIds(refs) == [id] && RuleIds(p.judgements) == [id];
    LabelledIffCanonical(practices, refs, p, 0);
  }

  /** One such input. */
  lemma UpperCaseLosesLabel() returns (practices: map<string, Practice>, refs: seq<RuleRef>, p: Payload)
    ensures Submission(practices, refs, p) && |refs| == |p.rules| == 1 && !Canonical(refs[0].id)
    ensures LabelOf(p.judgements, p.rules[0].id) == ""
  {
    var id := "AAAAAAAA-AAAA-AAAA-AAAA-AAAAAAAAAAAA";
    assert Lower(id)[0] == 'a';
    practices, refs, p := LabelGetsLost(id);
  }

  /** A human review is checked against the stored rule ids, so every rule exports the reviewer's label. */
  lemma {:induction false} ReviewLabelsComplete(p: Payload, judgements: seq<Judgement>, i: nat)
    requires Aligned(p) && i < |p.rules|
    requires OneLabelEach(RequestIds(p.request), judgements)
    ensures LabelOf(judgements, p.rules[i].id) in ["relevant", "not_relevant", "insufficient_context"]
    ensures exists k :: 0 <= k < |judgements| && judgements[k].rule == p.rules[i].id
                        && LabelOf(judgements, p.rules[i].id) == judgements[k].mark
  {
    assert RequestIds(p.request)[i] in RuleIds(judgements);
    var k := LabelFound(judgements, p.rules[i].id);
    assert LabelOk(judgements[k]);
  }
}
