/** The dashboard's reader for the Prometheus text exposition format, version 0.0.4. */
module Prometheus {
  import opened Options
  import opened Text

  /** parseFloat on one word; None is NaN. */
  type ParseFloat = string -> Option<real>

  datatype Sample = Sample(labels: map<string, string>, value: real)
  type Metrics = map<string, seq<Sample>>

  /** parseFloat on any text: it skips leading whitespace, stops at the next, and is NaN on no text
      and on a word that starts with '#'. */
  function ReadNumber(pf: ParseFloat, s: string): Option<real> {
    var word := Word(TrimLeft(s));
    if word == "" || word[0] == '#' then None else pf(word)
  }

  /* ---------- The reader as functions ---------- */

  function ParsePair(pair: string): Option<(string, string)> {
    var eq := IndexOf(pair, '=');
    if eq == |pair| then None
    else Some((Trim(pair[..eq]), Trim(DropLast(DropFirst(pair[eq + 1..], '"'), '"'))))
  }

  function PairsToLabels(pairs: seq<string>): map<string, string> {
    if pairs == [] then map[]
    else
      var m := PairsToLabels(pairs[..|pairs| - 1]);
      match ParsePair(pairs[|pairs| - 1])
      case None => m
      case Some((k, v)) => WithLabel(m, k, v)
  }

  /** The accessor that every plain object inherits; assigning it text stores nothing. */
  const PROTO := "__proto__"

  function WithLabel(m: map<string, string>, key: string, val: string): map<string, string> {
    if key == PROTO then m else m[key := val]
  }

  function LabelsOf(labelStr: string): map<string, string> {
    if labelStr == "" then map[]
    else PairsToLabels(Split(DropLast(DropFirst(labelStr, '{'), '}'), ','))
  }

  function ParseLine(pf: ParseFloat, line: string): Option<(string, Sample)> {
    if (line != "" && line[0] == '#') || Trim(line) == "" then None
    else
      var open := IndexOf(line, '{');
      if open == |line| then
        ReadWords(pf, Split(line, ' '))
      else
        match ParseRest(pf, line[open..])
        case None => None
        case Some(s) => Some((line[..open], s))
  }

  /** A line without an opening brace. */
  function ReadWords(pf: ParseFloat, words: seq<string>): Option<(string, Sample)> {
    if |words| < 2 || ReadNumber(pf, words[1]).None? then None
    else Some((words[0], Sample(map[], ReadNumber(pf, words[1]).value)))
  }

  /** A line from its opening brace on. */
  function ParseRest(pf: ParseFloat, rest: string): Option<Sample> {
    var close := IndexOf(rest, '}');
    if close == |rest| then None
    else
      var parts := Split(Trim(rest[close + 1..]), ' ');
      if ReadNumber(pf, parts[0]).None? then None
      else Some(Sample(LabelsOf(rest[..close + 1]), ReadNumber(pf, parts[0]).value))
  }

  function Lookup(metrics: Metrics, name: string): seq<Sample> { if name in metrics then metrics[name] else [] }

  function Push(m: Metrics, name: string, s: Sample): Metrics {
    m[name := Lookup(m, name) + [s]]
  }

  function ParseLines(pf: ParseFloat, lines: seq<string>): Metrics {
    if lines == [] then map[]
    else
      var m := ParseLines(pf, lines[..|lines| - 1]);
      match ParseLine(pf, lines[|lines| - 1])
      case None => m
      case Some((name, s)) => Push(m, name, s)
  }

  /* ---------- The reader's loops ---------- */

  lemma PairsStep(pairs: seq<string>, i: nat)
    requires i < |pairs|
    ensures PairsToLabels(pairs[..i + 1]) ==
            match ParsePair(pairs[i]) case None => PairsToLabels(pairs[..i])
                                      case Some((k, v)) => WithLabel(PairsToLabels(pairs[..i]), k, v)
  {
    assert pairs[..i + 1][..i] == pairs[..i];
  }

  method ParseLabels(labelStr: string) returns (labels: map<string, string>)
    ensures labels == LabelsOf(labelStr)
  {
    labels := map[];
    if labelStr == "" { return; }
    var cleaned := DropLast(DropFirst(labelStr, '{'), '}');
    var pairs := Split(cleaned, ',');
    for i := 0 to |pairs|
      invariant labels == PairsToLabels(pairs[..i])
    {
      PairsStep(pairs, i);
      var pair := pairs[i];
      var eqIdx := IndexOf(pair, '=');
      if eqIdx == |pair| { continue; }
      var key := Trim(pair[..eqIdx]);
      var val := Trim(DropLast(DropFirst(pair[eqIdx + 1..], '"'), '"'));
      labels := WithLabel(labels, key, val);
    }
    assert pairs[..|pairs|] == pairs;
  }

  /** The body of the line loop; None where the loop goes on to the next line. */
  method ReadLine(pf: ParseFloat, line: string) returns (r: Option<(string, Sample)>)
    ensures r == ParseLine(pf, line)
  {
    if (line != "" && line[0] == '#') || Trim(line) == "" { return None; }
    var spaceIdx := IndexOf(line, '{');
    if spaceIdx == |line| {
      var parts := Split(line, ' ');
      if |parts| >= 2 {
        var value := ReadNumber(pf, parts[1]);
        if value.Some? {
          return Some((parts[0], Sample(map[], value.value)));
        }
      }
      return None;
    }
    var rest := line[spaceIdx..];
    var closeIdx := IndexOf(rest, '}');
    if closeIdx == |rest| { return None; }
    var parts := Split(Trim(rest[closeIdx + 1..]), ' ');
    var value := ReadNumber(pf, parts[0]);
    if value.None? { return None; }
    var labels := ParseLabels(rest[..closeIdx + 1]);
    return Some((line[..spaceIdx], Sample(labels, value.value)));
  }

  method ParsePrometheusText(pf: ParseFloat, text: string) returns (metrics: Metrics)
    ensures metrics == ParseLines(pf, Split(text, '\n'))
  {
    metrics := map[];
    var lines := Split(text, '\n');
    for i := 0 to |lines|
      invariant metrics == ParseLines(pf, lines[..i])
    {
      assert lines[..i + 1][..i] == lines[..i];
      var r := ReadLine(pf, lines[i]);
      if r.Some? { metrics := Push(metrics, r.value.0, r.value.1); }
    }
    assert lines[..|lines|] == lines;
  }

  /* ---------- Sums over samples ---------- */

  predicate Matches(s: Sample, filter: map<string, string>) {
    forall k :: k in filter ==> k in s.labels && s.labels[k] == filter[k]
  }

  function SumOf(samples: seq<Sample>, filter: map<string, string>): real {
    if samples == [] then 0.0
    else
      var s := samples[|samples| - 1];
      SumOf(samples[..|samples| - 1], filter) + if Matches(s, filter) then s.value else 0.0
  }

  lemma {:induction false} SumConcat(a: seq<Sample>, b: seq<Sample>, filter: map<string, string>)
    ensures SumOf(a + b, filter) == SumOf(a, filter) + SumOf(b, filter)
  {
    if b == [] {
      assert a + b == a;
    } else {
      SumConcat(a, b[..|b| - 1], filter);
      assert (a + b)[..|a + b| - 1] == a + b[..|b| - 1];
    }
  }

  /** A sample anywhere adds its value if its labels have every pair of the filter, and otherwise
      nothing, whatever else it holds. */
  lemma OneSampleAdds(a: seq<Sample>, s: Sample, b: seq<Sample>, filter: map<string, string>)
    ensures (forall k :: k in filter ==> k in s.labels && s.labels[k] == filter[k]) ==>
              SumOf(a + [s] + b, filter) == SumOf(a + b, filter) + s.value
    ensures (exists k :: k in filter && (k !in s.labels || s.labels[k] != filter[k])) ==>
              SumOf(a + [s] + b, filter) == SumOf(a + b, filter)
    ensures SumOf([], filter) == 0.0
  {
    SumConcat(a + [s], b, filter);
    SumConcat(a, [s], filter);
    SumConcat(a, b, filter);
    assert [s][..0] == [];
  }

  method GetSum(metrics: Metrics, name: string, filter: map<string, string>) returns (total: real)
    ensures total == SumOf(Lookup(metrics, name), filter)
  {
    var samples := Lookup(metrics, name);
    total := 0.0;
    for i := 0 to |samples|
      invariant total == SumOf(samples[..i], filter)
    {
      assert samples[..i + 1][..i] == samples[..i];
      if Matches(samples[i], filter) { total := total + samples[i].value; }
    }
    assert samples[..|samples|] == samples;
  }

  /** Members that a plain object inherits from Object.prototype, all of them functions. */
  const INHERITED: set<string> :=
    {"constructor", "toString", "toLocaleString", "valueOf", "hasOwnProperty", "isPrototypeOf", "propertyIsEnumerable",
     "__defineGetter__", "__defineSetter__", "__lookupGetter__", "__lookupSetter__"}

  lemma InheritedNames(x: string)
    ensures x in INHERITED <==>
            || x == "constructor" || x == "toString" || x == "toLocaleString" || x == "valueOf" || x == "hasOwnProperty"
            || x == "isPrototypeOf" || x == "propertyIsEnumerable" || x == "__defineGetter__" || x == "__defineSetter__"
            || x == "__lookupGetter__" || x == "__lookupSetter__"
  {
  }

  /** A count that began with an inherited function is text, to which every amount is appended. */
  datatype Count = Number(value: real) | Text

  datatype Transition = Transition(state: string, count: Count)

  function Start(state: string): Count { if state in INHERITED then Text else Number(0.0) }

  function Plus(c: Count, amount: real): Count { if c.Text? then Text else Number(c.value + amount) }

  function Bumped(m: map<string, Count>, state: string, amount: real): map<string, Count> {
    if state == PROTO then m else m[state := Plus(if state in m then m[state] else Start(state), amount)]
  }

  function ToState(s: Sample): string { if "to_state" in s.labels then s.labels["to_state"] else "" }

  const TRANSITIONS := "migrate_state_transitions_total"

  function Tally(samples: seq<Sample>, planId: string): map<string, Count> {
    if samples == [] then map[]
    else
      var m, s := Tally(samples[..|samples| - 1], planId), samples[|samples| - 1];
      if OfPlan(s, planId) then Bumped(m, ToState(s), s.value) else m
  }

  predicate OfPlan(s: Sample, planId: string) { "plan_id" in s.labels && s.labels["plan_id"] == planId }

  lemma OfPlanMatches(s: Sample, planId: string)
    ensures OfPlan(s, planId) <==> Matches(s, map["plan_id" := planId])
  {
  }

  /** r lists the entries of m, each once, in any order. */
  ghost predicate Lists(r: seq<Transition>, m: map<string, Count>) {
    && (forall i, j :: 0 <= i < j < |r| ==> r[i].state != r[j].state)
    && forall t :: t in r <==> t.state in m && t.count == m[t.state]
  }

  method GetTransitions(metrics: Metrics, planId: string) returns (r: seq<Transition>)
    ensures Lists(r, Tally(Lookup(metrics, "migrate_state_transitions_total"), planId))
  {
    var samples := Lookup(metrics, TRANSITIONS);
    var result: map<string, Count> := map[];
    for i := 0 to |samples|
      invariant result == Tally(samples[..i], planId)
    {
      assert samples[..i + 1][..i] == samples[..i];
      var s := samples[i];
      if "plan_id" in s.labels && s.labels["plan_id"] == planId {
        result := Bumped(result, ToState(s), s.value);
      }
    }
    assert samples[..|samples|] == samples;
    r := Entries(result);
  }

  method Entries(m: map<string, Count>) returns (r: seq<Transition>)
    ensures Lists(r, m)
  {
    r := [];
    var rest := m.Keys;
    while rest != {}
      invariant rest <= m.Keys
      invariant forall i, j :: 0 <= i < j < |r| ==> r[i].state != r[j].state
      invariant forall t :: t in r <==> t.state in m && t.state !in rest && t.count == m[t.state]
      decreases rest
    {
      var k :| k in rest;
      rest := rest - {k};
      r := r + [Transition(k, m[k])];
    }
  }

  /* ---------- What the tally means ---------- */

  /** A transition of the plan into this state; without a to_state it is into the empty one. */
  predicate IsInto(s: Sample, planId: string, state: string) {
    && "plan_id" in s.labels && s.labels["plan_id"] == planId
    && if "to_state" in s.labels then s.labels["to_state"] == state else state == ""
  }

  /** The plan has a sample of this target state. */
  ghost predicate Counted(samples: seq<Sample>, planId: string, state: string) {
    exists s :: s in samples && IsInto(s, planId, state)
  }

  function SumInto(samples: seq<Sample>, planId: string, state: string): real {
    if samples == [] then 0.0
    else
      var s := samples[|samples| - 1];
      SumInto(samples[..|samples| - 1], planId, state)
      + if IsInto(s, planId, state) then s.value else 0.0
  }

  lemma CountedLast(samples: seq<Sample>, planId: string, state: string)
    requires samples != []
    ensures var s := samples[|samples| - 1];
            Counted(samples, planId, state) <==>
            || Counted(samples[..|samples| - 1], planId, state)
            || IsInto(s, planId, state)
  {
    assert samples == samples[..|samples| - 1] + [samples[|samples| - 1]];
  }

  lemma {:induction false} UncountedSum(samples: seq<Sample>, planId: string, state: string)
    ensures !Counted(samples, planId, state) ==> SumInto(samples, planId, state) == 0.0
  {
    if samples != [] {
      CountedLast(samples, planId, state);
      UncountedSum(samples[..|samples| - 1], planId, state);
    }
  }

  /** Another plan's sample, or one without a plan, changes nothing. */
  lemma {:induction false} OthersDoNotCount(a: seq<Sample>, s: Sample, b: seq<Sample>, planId: string)
    requires "plan_id" !in s.labels || s.labels["plan_id"] != planId
    ensures Tally(a + [s] + b, planId) == Tally(a + b, planId)
  {
    if b == [] {
      assert (a + [s] + b)[..|a|] == a && a + b == a && (a + [s] + b)[|a|] == s;
    } else {
      OthersDoNotCount(a, s, b[..|b| - 1], planId);
      assert (a + [s] + b)[..|a| + |b|] == a + [s] + b[..|b| - 1];
      assert (a + b)[..|a + b| - 1] == a + b[..|b| - 1];
    }
  }

  /** Each counted state but one has an entry, with the sum of exactly its own samples or with text. */
  lemma {:induction false} TallyIs(samples: seq<Sample>, planId: string, state: string)
    ensures state in Tally(samples, planId) <==> state != PROTO && Counted(samples, planId, state)
    ensures state in Tally(samples, planId) ==>
              Tally(samples, planId)[state] ==
              if state in INHERITED then Text else Number(SumInto(samples, planId, state))
  {
    if samples != [] {
      var front := samples[..|samples| - 1];
      TallyIs(front, planId, state);
      CountedLast(samples, planId, state);
      UncountedSum(front, planId, state);
    }
  }

  /** r has exactly the states of the plan's samples, each once with the sum of its own samples. */
  ghost predicate IsExact(r: seq<Transition>, samples: seq<Sample>, planId: string) {
    && (forall t :: t in r ==> t.count == Number(SumInto(samples, planId, t.state)))
    && (forall x :: Counted(samples, planId, x) <==> Transition(x, Number(SumInto(samples, planId, x))) in r)
  }

  lemma ListedIffCounted(samples: seq<Sample>, planId: string, r: seq<Transition>, x: string)
    requires Lists(r, Tally(samples, planId))
    ensures (exists t :: t in r && t.state == x) <==> x != PROTO && Counted(samples, planId, x)
    ensures forall t :: t in r && t.state == x ==>
              t.count == if x in INHERITED then Text else Number(SumInto(samples, planId, x))
  {
    TallyIs(samples, planId, x);
    if x in Tally(samples, planId) { assert Transition(x, Tally(samples, planId)[x]) in r; }
  }

  /** The transitions are exact if and only if no target state of the plan is the name of a member that
      plain objects inherit. */
  lemma TransitionsExactIff(samples: seq<Sample>, planId: string, r: seq<Transition>)
    requires Lists(r, Tally(samples, planId))
    ensures IsExact(r, samples, planId) <==>
            forall x :: Counted(samples, planId, x) ==> x != PROTO && x !in INHERITED
  {
    forall x
      ensures (exists t :: t in r && t.state == x) <==> x != PROTO && Counted(samples, planId, x)
      ensures forall t :: t in r && t.state == x ==>
                t.count == if x in INHERITED then Text else Number(SumInto(samples, planId, x))
    {
      ListedIffCounted(samples, planId, r, x);
    }
  }

  function Total(r: seq<Transition>): real {
    if r == [] then 0.0 else (if r[0].count.Number? then r[0].count.value else 0.0) + Total(r[1..])
  }

  /** The plan's samples of these target states. */
  function SumOver(states: seq<string>, samples: seq<Sample>, planId: string): real {
    if states == [] then 0.0 else SumInto(samples, planId, states[0]) + SumOver(states[1..], samples, planId)
  }

  ghost predicate NoneTwice(states: seq<string>) { forall i, j :: 0 <= i < j < |states| ==> states[i] != states[j] }

  lemma {:induction false} SumOverLast(states: seq<string>, samples: seq<Sample>, planId: string)
    requires samples != [] && NoneTwice(states)
    ensures var s := samples[|samples| - 1];
            SumOver(states, samples, planId) ==
            SumOver(states, samples[..|samples| - 1], planId)
            + if OfPlan(s, planId) && ToState(s) in states then s.value else 0.0
  {
    if states != [] {
      SumOverLast(states[1..], samples, planId);
      assert states == [states[0]] + states[1..];
      assert states[0] !in states[1..];
    }
  }

  lemma {:induction false} SumOverNothing(states: seq<string>, planId: string)
    ensures SumOver(states, [], planId) == 0.0
  {
    if states != [] { SumOverNothing(states[1..], planId); }
  }

  /** All of the plan's samples are of these states or of the one that has no entry. */
  lemma {:induction false} SumOverAll(states: seq<string>, samples: seq<Sample>, planId: string)
    requires NoneTwice(states) && PROTO !in states
    requires forall x :: Counted(samples, planId, x) ==> x == PROTO || x in states
    ensures SumOver(states, samples, planId) + SumInto(samples, planId, PROTO) ==
            SumOf(samples, map["plan_id" := planId])
  {
    if samples == [] {
      SumOverNothing(states, planId);
    } else {
      forall x ensures Counted(samples[..|samples| - 1], planId, x) ==> Counted(samples, planId, x) {
        CountedLast(samples, planId, x);
      }
      CountedLast(samples, planId, ToState(samples[|samples| - 1]));
      OfPlanMatches(samples[|samples| - 1], planId);
      SumOverLast(states, samples, planId);
      SumOverAll(states, samples[..|samples| - 1], planId);
    }
  }

  function States(r: seq<Transition>): seq<string> { seq(|r|, i requires 0 <= i < |r| => r[i].state) }

  lemma {:induction false} TotalIsSumOver(r: seq<Transition>, samples: seq<Sample>, planId: string)
    requires forall t :: t in r ==> t.count == Number(SumInto(samples, planId, t.state))
    ensures Total(r) == SumOver(States(r), samples, planId)
  {
    if r != [] {
      TotalIsSumOver(r[1..], samples, planId);
      assert States(r)[1..] == States(r[1..]);
    }
  }

  lemma ListedTotal(samples: seq<Sample>, planId: string, r: seq<Transition>)
    requires Lists(r, Tally(samples, planId)) && forall t :: t in r ==> t.count.Number?
    ensures Total(r) + SumInto(samples, planId, PROTO) == SumOf(samples, map["plan_id" := planId])
  {
    forall t | t in r ensures t.count == Number(SumInto(samples, planId, t.state)) && t.state != PROTO {
      ListedIffCounted(samples, planId, r, t.state);
    }
    forall x | Counted(samples, planId, x) && x != PROTO ensures x in States(r) {
      ListedIffCounted(samples, planId, r, x);
      var t :| t in r && t.state == x;
      var i :| 0 <= i < |r| && r[i] == t;
      assert States(r)[i] == x;
    }
    TotalIsSumOver(r, samples, planId);
    SumOverAll(States(r), samples, planId);
  }

  /** The counts are numbers that add up to the plan's sum if and only if no target state names an
      inherited function and the samples of the state without an entry sum to nothing. */
  lemma TransitionsSumUpIff(samples: seq<Sample>, planId: string, r: seq<Transition>)
    requires Lists(r, Tally(samples, planId))
    ensures (forall t :: t in r ==> t.count.Number?) && Total(r) == SumOf(samples, map["plan_id" := planId]) <==>
            (forall x :: x in INHERITED ==> !Counted(samples, planId, x)) && SumInto(samples, planId, PROTO) == 0.0
  {
    if forall t :: t in r ==> t.count.Number? {
      ListedTotal(samples, planId, r);
      forall x | x in INHERITED ensures !Counted(samples, planId, x) {
        assert x != PROTO;
        ListedIffCounted(samples, planId, r, x);
      }
    } else {
      var t :| t in r && t.count.Text?;
      ListedIffCounted(samples, planId, r, t.state);
    }
  }

  /** One transition into a state called constructor is listed with text for a count. */
  lemma ConstructorIsText(s: Sample, planId: string)
    requires s.labels == map["plan_id" := planId, "to_state" := "constructor"]
    ensures Tally([s], planId) == map["constructor" := Text]
  {
    assert [s][..0] == [];
  }
}
