/** Text in the Prometheus exposition format, version 0.0.4, and which of it the reader understands. */
module Exposition {
  import opened Options
  import opened Text
  import opened Prometheus

  /* ---------- The exposition format ---------- */

  predicate IsNameChar(c: char) {
    'a' <= c <= 'z' || 'A' <= c <= 'Z' || '0' <= c <= '9' || c == '_' || c == ':'
  }

  ghost predicate IsName(s: string) { s != "" && forall c :: c in s ==> IsNameChar(c) }

  /** A number as written and as the format takes it; None is NaN or an infinity. */
  datatype Numeral = Numeral(text: string, value: Option<real>)

  ghost predicate IsNumber(s: string) {
    s != "" && forall c :: c in s ==> !IsSpace(c) && c != '{' && c != '}' && c != '#'
  }

  /** One label as written: g0 name g1 = g2 "value" g3. */
  datatype Pair = Pair(name: string, value: string, g0: string, g1: string, g2: string, g3: string)

  /** What stands after the number: an optional timestamp and blanks. */
  datatype Tail = Tail(gap: string, stamp: string, trail: string)

  datatype Entry =
    | Comment(lead: string, text: string)
    | Blank(lead: string)
    | Plain(lead: string, name: string, gap: string, number: Numeral, tail: Tail)
    | Labelled(lead: string, name: string, gap: string, pairs: seq<Pair>, comma: bool, closing: string,
               after: string, number: Numeral, tail: Tail)

  ghost predicate PairOk(p: Pair) {
    IsName(p.name) && IsGap(p.g0) && IsGap(p.g1) && IsGap(p.g2) && IsGap(p.g3)
  }

  ghost predicate TailOk(t: Tail) {
    && IsGap(t.gap) && IsGap(t.trail) && (t.stamp != "" ==> t.gap != "")
    && forall c :: c in t.stamp ==> !IsSpace(c) && c != '{'
  }

  ghost predicate Distinct(ps: seq<Pair>) { forall i, j :: 0 <= i < j < |ps| ==> ps[i].name != ps[j].name }

  /** Legal text: any gaps, any label values, an optional comma after the last label. */
  ghost predicate WellFormed(e: Entry) {
    && IsGap(e.lead)
    && match e
       case Comment(_, text) => '\n' !in text
       case Blank(_) => true
       case Plain(_, name, gap, number, tail) =>
         IsName(name) && IsGap(gap) && gap != "" && IsNumber(number.text) && TailOk(tail)
       case Labelled(_, name, gap, ps, comma, closing, after, number, tail) =>
         && IsName(name) && IsGap(gap) && IsGap(closing) && IsGap(after) && IsNumber(number.text) && TailOk(tail)
         && (forall p :: p in ps ==> PairOk(p)) && Distinct(ps)
         && (if ps == [] then !comma else comma || closing == "")
  }

  predicate IsSpecial(c: char) { c == '\\' || c == '"' || c == '\n' }

  function EscapeChar(c: char): string {
    if c == '\\' then "\\\\" else if c == '"' then "\\\"" else if c == '\n' then "\\n" else [c]
  }

  /** A label value as the format writes it. */
  function Escape(v: string): string { if v == "" then "" else EscapeChar(v[0]) + Escape(v[1..]) }

  function Quoted(p: Pair): string { p.g2 + "\"" + Escape(p.value) + "\"" + p.g3 }

  function RenderPair(p: Pair): string { p.g0 + p.name + p.g1 + "=" + Quoted(p) }

  function RenderPairs(ps: seq<Pair>): seq<string> {
    seq(|ps|, i requires 0 <= i < |ps| => RenderPair(ps[i]))
  }

  /** What the commas between the braces separate. */
  function Pieces(ps: seq<Pair>, comma: bool, closing: string): seq<string> {
    RenderPairs(ps) + if ps == [] || comma then [closing] else []
  }

  function RenderTail(t: Tail): string { t.gap + t.stamp + t.trail }

  /** A labelled line from its opening brace on. */
  function RenderRest(ps: seq<Pair>, comma: bool, closing: string, back: string): string {
    "{" + Join(Pieces(ps, comma, closing), [',']) + "}" + back
  }

  function RenderEntry(e: Entry): string {
    match e
    case Comment(lead, text) => lead + "#" + text
    case Blank(lead) => lead
    case Plain(lead, name, gap, number, tail) => lead + name + gap + number.text + RenderTail(tail)
    case Labelled(lead, name, gap, ps, comma, closing, after, number, tail) =>
      lead + name + gap + RenderRest(ps, comma, closing, after + (number.text + RenderTail(tail)))
  }

  function RenderLines(doc: seq<Entry>): seq<string> {
    seq(|doc|, i requires 0 <= i < |doc| => RenderEntry(doc[i]))
  }

  /** Every line ends in a newline. */
  function Unlines(lines: seq<string>): string {
    if lines == [] then "" else lines[0] + ['\n'] + Unlines(lines[1..])
  }

  function Render(doc: seq<Entry>): string { Unlines(RenderLines(doc)) }

  function LabelMap(ps: seq<Pair>): map<string, string> {
    if ps == [] then map[] else LabelMap(ps[..|ps| - 1])[ps[|ps| - 1].name := ps[|ps| - 1].value]
  }

  /** A sample as the document states it. */
  datatype Said = Said(name: string, labels: map<string, string>, value: Option<real>)

  function Meaning(e: Entry): Option<Said> {
    match e
    case Comment(_, _) => None
    case Blank(_) => None
    case Plain(_, name, _, number, _) => Some(Said(name, map[], number.value))
    case Labelled(_, name, _, ps, _, _, _, number, _) => Some(Said(name, LabelMap(ps), number.value))
  }

  /** The samples of one name, in document order. */
  function SamplesOf(doc: seq<Entry>, name: string): seq<Said> {
    if doc == [] then []
    else
      SamplesOf(doc[..|doc| - 1], name) +
      match Meaning(doc[|doc| - 1])
      case None => []
      case Some(w) => if w.name == name then [w] else []
  }

  ghost predicate Agrees(s: Sample, w: Said) {
    s.labels == w.labels && w.value == Some(s.value)
  }

  /* ---------- Which text the reader understands ---------- */

  /** Values it can carry: no backslash, quote, newline, comma, closing brace or edge whitespace. */
  ghost predicate IsPlainValue(v: string) {
    && (forall c :: c in v ==> !IsSpecial(c) && c != ',' && c != '}')
    && (v != "" ==> !IsSpace(v[0]) && !IsSpace(v[|v| - 1]))
  }

  /** Whether a comment that does not start at the first column is taken for a sample: one with an
      opening brace when a number follows the next closing one, and one without when tabs stand
      before it and its second word is a number. */
  predicate TakenForSample(pf: ParseFloat, lead: string, text: string) {
    if '{' in text then
      var rest := text[IndexOf(text, '{')..];
      var close := IndexOf(rest, '}');
      close < |rest| && ReadNumber(pf, Split(Trim(rest[close + 1..]), ' ')[0]).Some?
    else
      ' ' !in lead && ' ' in text && ReadNumber(pf, Split(text, ' ')[1]).Some?
  }

  ghost predicate Readable(pf: ParseFloat, e: Entry)
    requires WellFormed(e)
  {
    match e
    case Comment(lead, text) => lead == "" || !TakenForSample(pf, lead, text)
    case Blank(_) => true
    case Plain(lead, _, gap, number, _) =>
      lead == "" && gap[0] == ' ' && ' ' !in gap[1..] && IsUnderstood(pf, number)
    case Labelled(lead, _, gap, ps, _, _, _, number, _) =>
      && lead == "" && gap == "" && IsUnderstood(pf, number)
      && AllCarried(ps)
  }

  ghost predicate AllCarried(ps: seq<Pair>) { forall p :: p in ps ==> IsCarried(p) }

  /** parseFloat makes of the number's text what the format does, and that is a number. */
  predicate IsUnderstood(pf: ParseFloat, n: Numeral) { n.value.Some? && pf(n.text) == n.value }

  /** A label the reader can carry: not the inherited accessor, and a plain value with nothing between
      its quotes and the equals sign or the comma. */
  ghost predicate IsCarried(p: Pair) { p.name != PROTO && p.g2 == "" && p.g3 == "" && IsPlainValue(p.value) }

  ghost predicate ReadsBack(pf: ParseFloat, e: Entry) {
    var r := ParseLine(pf, RenderEntry(e));
    match Meaning(e)
    case None => r.None?
    case Some(w) => r.Some? && r.value.0 == w.name && Agrees(r.value.1, w)
  }

  /* ---------- Numbers and names ---------- */

  /** The number is found behind whitespace other than blanks and before any whitespace. */
  lemma NumberFound(pf: ParseFloat, g: string, number: string, t: string)
    requires forall c :: c in g ==> IsSpace(c) && c != ' '
    requires IsNumber(number) && (t == "" || IsSpace(t[0]))
    ensures ReadNumber(pf, Split(g + (number + t), ' ')[0]) == pf(number)
  {
    assert ' ' !in number;
    SplitGrows(g, number + t, ' ');
    SplitGrows(number, t, ' ');
    SplitHead(t, ' ');
    var h := Split(t, ' ')[0];
    TrimLeftPast(g, number + h);
    assert number[0] in number;
    WordPrefix(number, h);
  }

  lemma NameHasNo(s: string, c: char)
    requires IsName(s) && !IsNameChar(c)
    ensures c !in s
  {
  }

  lemma NameEdges(s: string)
    requires IsName(s)
    ensures !IsSpace(s[0]) && !IsSpace(s[|s| - 1]) && s[0] != '#'
  {
    assert s[0] in s && s[|s| - 1] in s;
  }

  /* ---------- Label values ---------- */

  /** How the format reads an escaped value. */
  function Unescape(s: string): string {
    if s == "" then ""
    else if s[0] == '\\' && |s| > 1 then [if s[1] == 'n' then '\n' else s[1]] + Unescape(s[2..])
    else [s[0]] + Unescape(s[1..])
  }

  /** The format's own reading loses nothing, so every misreading below is the reader's. */
  lemma {:induction false} UnescapeInverts(v: string)
    ensures Unescape(Escape(v)) == v
  {
    if v != "" {
      var e, rest := EscapeChar(v[0]), Escape(v[1..]);
      UnescapeInverts(v[1..]);
      assert (e + rest)[|e|..] == rest;
    }
  }

  /** What the reader makes of a quoted value. */
  function ReadValue(p: Pair): string { Trim(DropLast(DropFirst(Quoted(p), '"'), '"')) }

  function Slashes(s: string): nat { multiset(s)['\\'] }

  predicate HasSpecial(v: string) { v != "" && (IsSpecial(v[0]) || HasSpecial(v[1..])) }

  lemma {:induction false} HasSpecialIff(v: string)
    ensures HasSpecial(v) <==> exists c :: c in v && IsSpecial(c)
    ensures !HasSpecial(v) ==> Escape(v) == v
  {
    if v != "" {
      HasSpecialIff(v[1..]);
      assert v == [v[0]] + v[1..];
    }
  }

  lemma SlashesJoin(a: string, b: string)
    ensures Slashes(a + b) == Slashes(a) + Slashes(b)
  {
  }

  lemma SlashesOfChar(c: char)
    ensures IsSpecial(c) ==> Slashes(EscapeChar(c)) > Slashes([c])
    ensures !IsSpecial(c) ==> EscapeChar(c) == [c]
  {
  }

  /** Escaping adds backslashes to exactly the values with special characters. */
  lemma {:induction false} EscapeCount(v: string)
    ensures if HasSpecial(v) then Slashes(Escape(v)) > Slashes(v) else Slashes(Escape(v)) == Slashes(v)
  {
    if v != "" {
      EscapeCount(v[1..]);
      SlashesOfChar(v[0]);
      SlashesJoin([v[0]], v[1..]);
      assert v == [v[0]] + v[1..];
      SlashesJoin(EscapeChar(v[0]), Escape(v[1..]));
    }
  }

  lemma {:induction false} EscapeAvoids(v: string, c: char)
    requires c == '\n' || (c != '\\' && c != '"' && c != 'n')
    requires c != '\n' ==> c !in v
    ensures c !in Escape(v)
  {
    if v != "" { EscapeAvoids(v[1..], c); }
  }

  lemma GapHasNone(g: string)
    requires IsGap(g)
    ensures Slashes(g) == 0
  {
    assert '\\' !in g;
  }

  lemma QuotedCount(p: Pair)
    requires PairOk(p)
    ensures Slashes(Quoted(p)) == Slashes(Escape(p.value))
  {
    SlashesJoin(p.g2 + "\"" + Escape(p.value) + "\"", p.g3);
    SlashesJoin(p.g2 + "\"" + Escape(p.value), "\"");
    SlashesJoin(p.g2 + "\"", Escape(p.value));
    SlashesJoin(p.g2, "\"");
    GapHasNone(p.g2);
    GapHasNone(p.g3);
  }

  lemma ReadValueCount(p: Pair)
    requires PairOk(p)
    ensures Slashes(ReadValue(p)) == Slashes(Escape(p.value))
  {
    var q := Quoted(p);
    QuotedCount(p);
    DropFirstCount(q);
    DropLastCount(DropFirst(q, '"'));
    TrimKeeps(DropLast(DropFirst(q, '"'), '"'), '\\');
  }

  lemma DropFirstCount(s: string)
    ensures Slashes(DropFirst(s, '"')) == Slashes(s)
  {
    if s != "" { assert s == [s[0]] + s[1..]; }
  }

  lemma DropLastCount(s: string)
    ensures Slashes(DropLast(s, '"')) == Slashes(s)
  {
    if s != "" { assert s == s[..|s| - 1] + [s[|s| - 1]]; }
  }

  /** A quote stays in the value when blanks stand between it and the comma or equals sign. */
  lemma QuoteStays(p: Pair)
    requires PairOk(p) && (p.g2 != "" || p.g3 != "")
    ensures '"' in ReadValue(p)
  {
    var q := Quoted(p);
    var d := DropFirst(q, '"');
    var last := q[|q| - 1];
    if p.g2 != "" {
      assert q[0] in p.g2 && d == q;
      assert DropLast(q, '"')[|p.g2|] == '"';
    } else {
      assert last in p.g3;
      assert d[|Escape(p.value)|] == '"' && d[|d| - 1] == last;
    }
    TrimKeeps(DropLast(d, '"'), '"');
  }

  lemma ReadValueBare(p: Pair)
    requires p.g2 == "" && p.g3 == ""
    ensures ReadValue(p) == Trim(Escape(p.value))
  {
    var w := Escape(p.value);
    assert Quoted(p) == "\"" + w + "\"";
    assert DropFirst("\"" + w + "\"", '"') == w + "\"";
    assert DropLast(w + "\"", '"') == w;
  }

  lemma {:induction false} TrimShortens(s: string)
    ensures |TrimLeft(s)| <= |s| && |TrimRight(s)| <= |s|
  {
    if s != "" { TrimShortens(s[1..]); TrimShortens(s[..|s| - 1]); }
  }

  lemma TrimFixed(s: string)
    ensures Trim(s) == s <==> (s != "" ==> !IsSpace(s[0]) && !IsSpace(s[|s| - 1]))
  {
    if s != "" && (IsSpace(s[0]) || IsSpace(s[|s| - 1])) {
      TrimShortens(s);
      TrimShortens(s[1..]);
      TrimShortens(TrimLeft(s));
      TrimShortens(s[..|s| - 1]);
    }
  }

  /** A value is read as it was meant exactly when nothing stands between it and its quotes'
      neighbours, it needs no escaping, and no whitespace stands at its edges. */
  lemma ValueIff(p: Pair)
    requires PairOk(p)
    ensures ReadValue(p) == p.value <==>
            && p.g2 == "" && p.g3 == "" && (forall c :: c in p.value ==> !IsSpecial(c))
            && (p.value != "" ==> !IsSpace(p.value[0]) && !IsSpace(p.value[|p.value| - 1]))
  {
    HasSpecialIff(p.value);
    if HasSpecial(p.value) {
      EscapeCount(p.value);
      ReadValueCount(p);
    } else if p.g2 != "" || p.g3 != "" {
      assert IsSpecial('"');
      QuoteStays(p);
    } else {
      ReadValueBare(p);
      TrimFixed(p.value);
    }
  }

  /* ---------- Label lists ---------- */

  /** The labels as the reader takes them from pieces it could separate. */
  function ReadMap(ps: seq<Pair>): map<string, string> {
    if ps == [] then map[]
    else
      var p := ps[|ps| - 1];
      WithLabel(ReadMap(ps[..|ps| - 1]), p.name, ReadValue(p))
  }

  /** No value would break the list apart. */
  ghost predicate Separable(ps: seq<Pair>) { forall p :: p in ps ==> ',' !in p.value && '}' !in p.value }

  lemma LastIsNew(ps: seq<Pair>)
    requires ps != [] && Distinct(ps)
    ensures Distinct(ps[..|ps| - 1])
    ensures forall p :: p in ps[..|ps| - 1] ==> p.name != ps[|ps| - 1].name
    ensures forall p :: p in ps <==> p in ps[..|ps| - 1] || p == ps[|ps| - 1]
  {
    assert ps == ps[..|ps| - 1] + [ps[|ps| - 1]];
  }

  lemma {:induction false} LabelMapHas(ps: seq<Pair>)
    requires Distinct(ps)
    ensures forall k :: k in LabelMap(ps) ==> exists p :: p in ps && p.name == k
    ensures forall p :: p in ps ==> p.name in LabelMap(ps) && LabelMap(ps)[p.name] == p.value
  {
    if ps != [] {
      LastIsNew(ps);
      LabelMapHas(ps[..|ps| - 1]);
    }
  }

  lemma {:induction false} ReadMapHas(ps: seq<Pair>)
    requires Distinct(ps)
    ensures ReadMap(ps).Keys == LabelMap(ps).Keys - {PROTO}
    ensures forall p :: p in ps && p.name != PROTO ==> p.name in ReadMap(ps) && ReadMap(ps)[p.name] == ReadValue(p)
  {
    if ps != [] {
      LastIsNew(ps);
      ReadMapHas(ps[..|ps| - 1]);
    }
  }

  lemma MapsAgree(ps: seq<Pair>)
    requires Distinct(ps)
    ensures ReadMap(ps) == LabelMap(ps) <==> forall p :: p in ps ==> IsRight(p)
  {
    LabelMapHas(ps);
    ReadMapHas(ps);
    if forall p :: p in ps ==> IsRight(p) {
      forall k | k in LabelMap(ps) ensures k in ReadMap(ps) && LabelMap(ps)[k] == ReadMap(ps)[k] {
        var p :| p in ps && p.name == k;
        assert IsRight(p);
      }
    } else {
      var p :| p in ps && !IsRight(p);
      assert p.name in LabelMap(ps);
    }
  }

  /** The reader stores this label, with its value. */
  predicate IsRight(p: Pair) { p.name != PROTO && ReadValue(p) == p.value }

  lemma PairRead(p: Pair)
    requires PairOk(p)
    ensures ParsePair(RenderPair(p)) == Some((p.name, ReadValue(p)))
  {
    var k := p.g0 + p.name + p.g1;
    NameHasNo(p.name, '=');
    assert RenderPair(p) == k + ['='] + Quoted(p);
    IndexOfFirst(k, '=', Quoted(p));
    var s := k + ['='] + Quoted(p);
    assert s[..|k|] == k && s[|k| + 1..] == Quoted(p);
    NameEdges(p.name);
    TrimAround(p.g0, p.name, p.g1);
  }

  lemma {:induction false} PairsRead(ps: seq<Pair>)
    requires forall p :: p in ps ==> PairOk(p)
    ensures PairsToLabels(RenderPairs(ps)) == ReadMap(ps)
  {
    if ps != [] {
      var front := ps[..|ps| - 1];
      PairsRead(front);
      assert RenderPairs(ps)[..|ps| - 1] == RenderPairs(front);
      assert ps[|ps| - 1] in ps;
      PairRead(ps[|ps| - 1]);
    }
  }

  lemma PairAvoids(p: Pair, c: char)
    requires PairOk(p) && (c == '\n' || ((c == ',' || c == '}') && c !in p.value))
    ensures c !in RenderPair(p)
  {
    EscapeAvoids(p.value, c);
    NameHasNo(p.name, c);
    assert c !in Quoted(p);
  }

  lemma PiecesAvoid(ps: seq<Pair>, comma: bool, closing: string, c: char)
    requires (forall p :: p in ps ==> PairOk(p)) && IsGap(closing)
    requires c == '\n' || ((c == ',' || c == '}') && forall p :: p in ps ==> c !in p.value)
    ensures forall r :: r in Pieces(ps, comma, closing) ==> c !in r
  {
    forall r | r in RenderPairs(ps) ensures c !in r {
      var i :| 0 <= i < |ps| && RenderPairs(ps)[i] == r;
      assert ps[i] in ps;
      PairAvoids(ps[i], c);
    }
  }

  lemma BlankPiece(pairs: seq<string>, closing: string)
    requires IsGap(closing)
    ensures PairsToLabels(pairs + [closing]) == PairsToLabels(pairs)
  {
    IndexOfAbsent(closing, '=');
    assert (pairs + [closing])[..|pairs|] == pairs;
  }

  lemma Braced(body: string)
    ensures LabelsOf("{" + body + "}") == PairsToLabels(Split(body, ','))
  {
    assert DropFirst("{" + body + "}", '{') == body + "}";
    assert DropLast(body + "}", '}') == body;
  }

  lemma LabelsRead(ps: seq<Pair>, comma: bool, closing: string)
    requires (forall p :: p in ps ==> PairOk(p)) && IsGap(closing) && Separable(ps)
    ensures '}' !in Join(Pieces(ps, comma, closing), [','])
    ensures LabelsOf("{" + Join(Pieces(ps, comma, closing), [',']) + "}") == ReadMap(ps)
  {
    var pieces := Pieces(ps, comma, closing);
    var body := Join(pieces, [',']);
    PiecesAvoid(ps, comma, closing, ',');
    PiecesAvoid(ps, comma, closing, '}');
    JoinAvoids(pieces, ',', '}');
    Braced(body);
    SplitJoin(pieces, ',');
    PairsRead(ps);
    if ps == [] || comma { BlankPiece(RenderPairs(ps), closing); } else { assert pieces == RenderPairs(ps); }
  }

  ghost predicate ValuesAvoid(m: map<string, string>, c: char) { forall k :: k in m ==> c !in m[k] }

  lemma PairValueAvoids(pair: string, c: char)
    requires !IsSpace(c) && c !in pair && ParsePair(pair).Some?
    ensures c !in ParsePair(pair).value.1
  {
    var q := pair[IndexOf(pair, '=') + 1..];
    assert c !in q && c !in DropFirst(q, '"') && c !in DropLast(DropFirst(q, '"'), '"');
    TrimKeeps(DropLast(DropFirst(q, '"'), '"'), c);
  }

  /** No value the reader returns holds a comma or a closing brace. */
  lemma {:induction false} PairsAvoid(pairs: seq<string>, c: char)
    requires !IsSpace(c) && forall r :: r in pairs ==> c !in r
    ensures ValuesAvoid(PairsToLabels(pairs), c)
  {
    if pairs != [] {
      PairsAvoid(pairs[..|pairs| - 1], c);
      assert pairs[|pairs| - 1] in pairs;
      if ParsePair(pairs[|pairs| - 1]).Some? { PairValueAvoids(pairs[|pairs| - 1], c); }
    }
  }

  lemma LabelsOfAvoid(body: string)
    requires '}' !in body
    ensures ValuesAvoid(LabelsOf("{" + body + "}"), ',') && ValuesAvoid(LabelsOf("{" + body + "}"), '}')
  {
    Braced(body);
    SplitAvoids(body, ',', ',');
    SplitAvoids(body, ',', '}');
    PairsAvoid(Split(body, ','), ',');
    PairsAvoid(Split(body, ','), '}');
  }

  lemma CutBraces(rest: string, close: nat)
    requires 0 < close < |rest| && rest[0] == '{' && rest[close] == '}' && '}' !in rest[..close]
    ensures rest[..close + 1] == "{" + rest[1..close] + "}"
    ensures '}' !in rest[1..close]
  {
    assert forall c :: c in rest[1..close] ==> c in rest[..close];
  }

  lemma ReadLabelsAvoid(pf: ParseFloat, rest: string)
    requires rest != "" && rest[0] == '{' && ParseRest(pf, rest).Some?
    ensures var m := ParseRest(pf, rest).value.labels; ValuesAvoid(m, ',') && ValuesAvoid(m, '}')
  {
    var close := IndexOf(rest, '}');
    CutBraces(rest, close);
    LabelsOfAvoid(rest[1..close]);
  }

  /* ---------- Labelled lines ---------- */

  lemma TailStarts(t: Tail)
    requires TailOk(t)
    ensures RenderTail(t) == "" || IsSpace(RenderTail(t)[0])
    ensures '{' !in RenderTail(t) && '\n' !in RenderTail(t)
  {
    var r := RenderTail(t);
    if t.gap != "" { assert r[0] in t.gap; } else if t.trail != "" { assert r[0] in t.trail; }
    assert IsSpace('\n');
  }

  lemma {:induction false} TrimRightStarts(t: string)
    requires t == "" || IsSpace(t[0])
    ensures TrimRight(t) == "" || IsSpace(TrimRight(t)[0])
  {
    if t != "" && IsSpace(t[|t| - 1]) { TrimRightStarts(t[..|t| - 1]); }
  }

  lemma NumberAfter(pf: ParseFloat, after: string, number: string, t: string)
    requires IsGap(after) && IsNumber(number) && (t == "" || IsSpace(t[0]))
    ensures ReadNumber(pf, Split(Trim(after + (number + t)), ' ')[0]) == pf(number)
  {
    assert number[0] in number && number[|number| - 1] in number;
    TrimLeftPast(after, number + t);
    TrimRightPast(number, t);
    TrimRightStarts(t);
    assert "" + (number + TrimRight(t)) == number + TrimRight(t);
    NumberFound(pf, "", number, TrimRight(t));
  }

  lemma RestRead(pf: ParseFloat, body: string, after: string, number: string, t: string)
    requires '}' !in body && IsGap(after) && IsNumber(number) && (t == "" || IsSpace(t[0]))
    ensures ParseRest(pf, "{" + body + "}" + (after + (number + t))) ==
            if pf(number).None? then None else Some(Sample(LabelsOf("{" + body + "}"), pf(number).value))
  {
    RestCut(pf, body, after + (number + t));
    NumberAfter(pf, after, number, t);
  }

  lemma RestCut(pf: ParseFloat, body: string, back: string)
    requires '}' !in body
    ensures ParseRest(pf, "{" + body + "}" + back) ==
            var v := ReadNumber(pf, Split(Trim(back), ' ')[0]);
            if v.None? then None else Some(Sample(LabelsOf("{" + body + "}"), v.value))
  {
    var rest := "{" + body + "}" + back;
    assert rest == ("{" + body) + ['}'] + back;
    IndexOfFirst("{" + body, '}', back);
    assert rest[..|body| + 2] == "{" + body + "}" && rest[|body| + 2..] == back;
  }

  /** A line is a comment or blank only if its first visible character says so. */
  lemma NotSkipped(g: string, s: string)
    requires IsGap(g) && s != "" && !IsSpace(s[0]) && (g == "" ==> s[0] != '#')
    ensures (g + s)[0] != '#' && Trim(g + s) != ""
  {
    TrimKeeps(g + s, s[0]);
    if g != "" { assert g[0] in g; }
  }

  lemma BraceSplits(pf: ParseFloat, pre: string, rest: string)
    requires '{' !in pre && rest != "" && rest[0] == '{'
    requires (pre + rest)[0] != '#' && Trim(pre + rest) != ""
    ensures ParseLine(pf, pre + rest) ==
            match ParseRest(pf, rest) case None => None case Some(s) => Some((pre, s))
  {
    IndexOfPast(pre, rest, '{');
    assert (pre + rest)[..|pre|] == pre && (pre + rest)[|pre|..] == rest;
  }

  function RestOf(e: Entry): string
    requires e.Labelled?
  {
    RenderRest(e.pairs, e.comma, e.closing, e.after + (e.number.text + RenderTail(e.tail)))
  }

  lemma LabelledRead(pf: ParseFloat, e: Entry)
    requires WellFormed(e) && e.Labelled?
    ensures ParseLine(pf, RenderEntry(e)) ==
            match ParseRest(pf, RestOf(e)) case None => None case Some(s) => Some((e.lead + e.name + e.gap, s))
  {
    var pre, rest := e.lead + e.name + e.gap, RestOf(e);
    assert pre + rest == e.lead + (e.name + e.gap + rest);
    NameEdges(e.name);
    NotSkipped(e.lead, e.name + e.gap + rest);
    NameHasNo(e.name, '{');
    BraceSplits(pf, pre, rest);
  }

  lemma RestOfSeparable(pf: ParseFloat, e: Entry)
    requires WellFormed(e) && e.Labelled? && Separable(e.pairs)
    ensures ParseRest(pf, RestOf(e)) ==
            if pf(e.number.text).None? then None else Some(Sample(ReadMap(e.pairs), pf(e.number.text).value))
  {
    TailStarts(e.tail);
    LabelsRead(e.pairs, e.comma, e.closing);
    RestRead(pf, Join(Pieces(e.pairs, e.comma, e.closing), [',']), e.after, e.number.text, RenderTail(e.tail));
  }

  lemma SeparableIfRead(pf: ParseFloat, e: Entry)
    requires WellFormed(e) && e.Labelled? && ParseRest(pf, RestOf(e)).Some?
    requires ParseRest(pf, RestOf(e)).value.labels == LabelMap(e.pairs)
    ensures Separable(e.pairs)
  {
    ReadLabelsAvoid(pf, RestOf(e));
    LabelMapHas(e.pairs);
  }

  lemma ReadMapIff(e: Entry)
    requires WellFormed(e) && e.Labelled? && Separable(e.pairs)
    ensures ReadMap(e.pairs) == LabelMap(e.pairs) <==> AllCarried(e.pairs)
  {
    MapsAgree(e.pairs);
    forall p | p in e.pairs ensures IsRight(p) <==> IsCarried(p) {
      CarriedIff(p);
    }
  }

  lemma CarriedIff(p: Pair)
    requires PairOk(p) && ',' !in p.value && '}' !in p.value
    ensures IsRight(p) <==> IsCarried(p)
  {
    ValueIff(p);
  }

  lemma NameAlone(lead: string, name: string, gap: string)
    ensures lead + name + gap == name <==> lead == "" && gap == ""
  {
    assert |lead + name + gap| == |lead| + |name| + |gap|;
    assert "" + name + "" == name;
  }

  lemma LabelledReads(pf: ParseFloat, e: Entry)
    requires WellFormed(e) && e.Labelled?
    ensures ReadsBack(pf, e) <==>
            && e.lead == "" && e.gap == "" && e.number.value.Some?
            && ParseRest(pf, RestOf(e)) == Some(Sample(LabelMap(e.pairs), e.number.value.value))
  {
    LabelledRead(pf, e);
    NameAlone(e.lead, e.name, e.gap);
  }

  lemma LabelsIff(pf: ParseFloat, e: Entry)
    requires WellFormed(e) && e.Labelled? && e.number.value.Some?
    ensures ParseRest(pf, RestOf(e)) == Some(Sample(LabelMap(e.pairs), e.number.value.value)) <==>
            IsUnderstood(pf, e.number) && AllCarried(e.pairs)
  {
    if Separable(e.pairs) {
      RestOfSeparable(pf, e);
      ReadMapIff(e);
    } else if ParseRest(pf, RestOf(e)) == Some(Sample(LabelMap(e.pairs), e.number.value.value)) {
      SeparableIfRead(pf, e);
    }
  }

  /** A labelled sample comes back exactly when no blank stands before or after its name or beside
      its quotes, its number is understood, and every label is one the reader can carry. */
  lemma LabelledIff(pf: ParseFloat, e: Entry)
    requires WellFormed(e) && e.Labelled?
    ensures ReadsBack(pf, e) <==> Readable(pf, e)
  {
    LabelledReads(pf, e);
    if e.number.value.Some? { LabelsIff(pf, e); }
  }

  /* ---------- Lines without labels ---------- */

  lemma NoBrace(pf: ParseFloat, line: string)
    requires '{' !in line && line != "" && line[0] != '#' && Trim(line) != ""
    ensures ParseLine(pf, line) == ReadWords(pf, Split(line, ' '))
  {
    IndexOfAbsent(line, '{');
  }

  /** The number behind the first blank is found behind tabs, and not behind another blank. */
  lemma NumberBehind(pf: ParseFloat, g: string, number: string, t: string)
    requires IsGap(g) && IsNumber(number) && (t == "" || IsSpace(t[0]))
    ensures ReadNumber(pf, Split(g + (number + t), ' ')[0]) == if ' ' in g then None else pf(number)
  {
    if ' ' in g {
      GapWord(pf, g, number + t);
    } else {
      NumberFound(pf, g, number, t);
    }
  }

  /** Between two blanks there is no number. */
  lemma GapWord(pf: ParseFloat, g: string, s: string)
    requires IsGap(g) && ' ' in g
    ensures ReadNumber(pf, Split(g + s, ' ')[0]) == None
  {
    var h := g[..IndexOf(g, ' ')];
    SplitAt(g, ' ', s);
    GapSlice(g, 0, |h|);
    assert g[0..|h|] == h;
    TrimLeftPast(h, "");
    assert h + "" == h;
  }

  lemma FirstPartStarts(line: string)
    requires line != "" && IsSpace(line[0])
    ensures !IsName(Split(line, ' ')[0])
  {
    SplitHead(line, ' ');
    var part := Split(line, ' ')[0];
    if part != "" { assert part[0] == line[0] && part[0] in part; }
  }

  /** A name found on a line that starts with whitespace is no metric name. */
  lemma IndentedName(pf: ParseFloat, line: string)
    requires line != "" && IsSpace(line[0]) && ParseLine(pf, line).Some?
    ensures !IsName(ParseLine(pf, line).value.0)
  {
    var open := IndexOf(line, '{');
    if open < |line| {
      var name := ParseLine(pf, line).value.0;
      assert name == line[..open];
      if name != "" { assert name[0] == line[0] && name[0] in name; }
    } else {
      FirstPartStarts(line);
    }
  }

  lemma TabAfterName(name: string, rest: string)
    requires IsName(name) && rest != "" && rest[0] == '\t'
    ensures !IsName(Split(name + rest, ' ')[0])
  {
    NameHasNo(name, ' ');
    IndexOfPast(name, rest, ' ');
    SplitHead(name + rest, ' ');
    var part := Split(name + rest, ' ')[0];
    assert part[|name|] == '\t' && part[|name|] in part;
  }

  lemma PlainText(e: Entry)
    requires e.Plain? && e.lead == ""
    ensures RenderEntry(e) == e.name + (e.gap + (e.number.text + RenderTail(e.tail)))
  {
    assert "" + e.name == e.name;
    Assoc(e.name, e.gap, e.number.text);
    Assoc(e.name, e.gap + e.number.text, RenderTail(e.tail));
    Assoc(e.gap, e.number.text, RenderTail(e.tail));
  }

  lemma PlainRead(pf: ParseFloat, e: Entry)
    requires WellFormed(e) && e.Plain? && e.lead == ""
    ensures ParseLine(pf, RenderEntry(e)) == ReadWords(pf, Split(RenderEntry(e), ' '))
  {
    var back := e.gap + (e.number.text + RenderTail(e.tail));
    PlainText(e);
    NameEdges(e.name);
    NotSkipped("", e.name + back);
    assert "" + (e.name + back) == e.name + back;
    TailStarts(e.tail);
    NameHasNo(e.name, '{');
    NoBrace(pf, e.name + back);
  }

  lemma BlankCuts(name: string, gap: string, s: string)
    requires ' ' !in name && gap != "" && gap[0] == ' '
    ensures |Split(name + (gap + s), ' ')| >= 2
    ensures Split(name + (gap + s), ' ')[0] == name && Split(name + (gap + s), ' ')[1] == Split(gap[1..] + s, ' ')[0]
  {
    assert name + (gap + s) == name + [' '] + (gap[1..] + s);
    SplitFirst(name, ' ', gap[1..] + s);
  }

  lemma PlainWords(pf: ParseFloat, name: string, gap: string, number: string, t: string)
    requires IsName(name) && IsGap(gap) && gap != "" && gap[0] == ' '
    requires IsNumber(number) && (t == "" || IsSpace(t[0]))
    ensures ReadWords(pf, Split(name + (gap + (number + t)), ' ')) ==
            if ' ' in gap[1..] || pf(number).None? then None else Some((name, Sample(map[], pf(number).value)))
  {
    NameHasNo(name, ' ');
    BlankCuts(name, gap, number + t);
    GapSlice(gap, 1, |gap|);
    NumberBehind(pf, gap[1..], number, t);
  }

  /** The name in the first column and a blank behind it. */
  lemma PlainGood(pf: ParseFloat, e: Entry)
    requires WellFormed(e) && e.Plain? && e.lead == "" && e.gap[0] == ' '
    ensures ParseLine(pf, RenderEntry(e)) ==
            if ' ' in e.gap[1..] || pf(e.number.text).None? then None
            else Some((e.name, Sample(map[], pf(e.number.text).value)))
  {
    PlainRead(pf, e);
    PlainText(e);
    TailStarts(e.tail);
    PlainWords(pf, e.name, e.gap, e.number.text, RenderTail(e.tail));
  }

  /** A tab behind the name is taken for a part of it. */
  lemma PlainTab(pf: ParseFloat, e: Entry)
    requires WellFormed(e) && e.Plain? && e.lead == "" && e.gap[0] != ' '
    ensures ParseLine(pf, RenderEntry(e)).Some? ==> !IsName(ParseLine(pf, RenderEntry(e)).value.0)
  {
    var back := e.gap + (e.number.text + RenderTail(e.tail));
    PlainRead(pf, e);
    PlainText(e);
    assert e.gap[0] in e.gap;
    TabAfterName(e.name, back);
  }

  lemma Indented(pf: ParseFloat, e: Entry)
    requires WellFormed(e) && !e.Blank? && e.lead != ""
    ensures ParseLine(pf, RenderEntry(e)).Some? ==> !IsName(ParseLine(pf, RenderEntry(e)).value.0)
  {
    var line := RenderEntry(e);
    assert line[0] == e.lead[0] && e.lead[0] in e.lead;
    if ParseLine(pf, line).Some? { IndentedName(pf, line); }
  }

  /** A sample without labels comes back exactly when its name stands in the first column, exactly
      one blank, then at most tabs, stand before the number, and that is understood. */
  lemma PlainIff(pf: ParseFloat, e: Entry)
    requires WellFormed(e) && e.Plain?
    ensures ReadsBack(pf, e) <==> Readable(pf, e)
  {
    if e.lead != "" {
      Indented(pf, e);
    } else if e.gap[0] == ' ' {
      PlainGood(pf, e);
    } else {
      PlainTab(pf, e);
    }
  }

  /* ---------- Comments ---------- */

  lemma CommentBrace(pf: ParseFloat, lead: string, text: string)
    requires IsGap(lead) && lead != "" && '{' in text
    ensures ParseLine(pf, lead + "#" + text).None? <==> !TakenForSample(pf, lead, text)
  {
    var i := IndexOf(text, '{');
    var pre, rest := lead + "#" + text[..i], text[i..];
    assert lead + "#" + text == pre + rest;
    assert pre + rest == lead + ("#" + text);
    NotSkipped(lead, "#" + text);
    BraceSplits(pf, pre, rest);
  }

  lemma CommentWords(pf: ParseFloat, lead: string, text: string)
    requires IsGap(lead) && lead != "" && '{' !in text
    ensures ParseLine(pf, lead + "#" + text) == ReadWords(pf, Split(lead + "#" + text, ' '))
  {
    assert lead + "#" + text == lead + ("#" + text);
    NotSkipped(lead, "#" + text);
    NoBrace(pf, lead + "#" + text);
  }

  lemma CommentTabs(pf: ParseFloat, lead: string, text: string)
    requires IsGap(lead) && lead != "" && '{' !in text && ' ' !in lead
    ensures ParseLine(pf, lead + "#" + text).None? <==> !TakenForSample(pf, lead, text)
  {
    CommentWords(pf, lead, text);
    if ' ' in text {
      SecondWord(lead + "#", text);
    } else {
      SplitWhole(lead + "#" + text, ' ');
    }
  }

  lemma SecondWord(a: string, text: string)
    requires ' ' !in a && ' ' in text
    ensures |Split(a + text, ' ')| >= 2 && |Split(text, ' ')| >= 2
    ensures Split(a + text, ' ')[1] == Split(text, ' ')[1]
  {
    SplitGrows(a, text, ' ');
  }

  /** The word after the first blank of the indentation is blank or starts with '#'. */
  lemma CommentBlanks(pf: ParseFloat, lead: string, text: string)
    requires IsGap(lead) && lead != "" && '{' !in text && ' ' in lead
    ensures ParseLine(pf, lead + "#" + text) == None
  {
    var i := IndexOf(lead, ' ') + 1;
    CommentWords(pf, lead, text);
    IndentWords(pf, lead, "#" + text);
    Assoc(lead, "#", text);
    GapSlice(lead, i, |lead|);
    HashBehind(pf, lead[i..], text);
  }

  lemma HashBehind(pf: ParseFloat, g: string, text: string)
    requires IsGap(g)
    ensures ReadNumber(pf, Split(g + ("#" + text), ' ')[0]) == None
  {
    if ' ' in g { GapWord(pf, g, "#" + text); } else { HashWord(pf, g, text); }
  }

  lemma IndentWords(pf: ParseFloat, lead: string, s: string)
    requires ' ' in lead
    ensures |Split(lead + s, ' ')| >= 2
    ensures Split(lead + s, ' ')[1] == Split(lead[IndexOf(lead, ' ') + 1..] + s, ' ')[0]
  {
    SplitAt(lead, ' ', s);
  }

  lemma HashWord(pf: ParseFloat, g: string, text: string)
    requires IsGap(g) && ' ' !in g
    ensures ReadNumber(pf, Split(g + ("#" + text), ' ')[0]) == None
  {
    SplitGrows(g, "#" + text, ' ');
    SplitGrows("#", text, ' ');
    HashIsNone(pf, g, Split(text, ' ')[0]);
  }

  lemma HashIsNone(pf: ParseFloat, g: string, s: string)
    requires IsGap(g)
    ensures ReadNumber(pf, g + ("#" + s)) == None
  {
    TrimLeftPast(g, "#" + s);
    assert Word("#" + s)[0] == '#';
  }

  lemma CommentIff(pf: ParseFloat, e: Entry)
    requires WellFormed(e) && e.Comment?
    ensures ReadsBack(pf, e) <==> Readable(pf, e)
  {
    if e.lead == "" {
      assert RenderEntry(e)[0] == '#';
    } else if '{' in e.text {
      CommentBrace(pf, e.lead, e.text);
    } else if ' ' in e.lead {
      CommentBlanks(pf, e.lead, e.text);
    } else {
      CommentTabs(pf, e.lead, e.text);
    }
  }

  /** A line of legal text is read as it was meant if and only if it is readable. */
  lemma LineReadsBackIff(pf: ParseFloat, e: Entry)
    requires WellFormed(e)
    ensures ReadsBack(pf, e) <==> Readable(pf, e)
  {
    match e
    case Comment(_, _) => CommentIff(pf, e);
    case Blank(lead) => TrimBlank(lead);
    case Plain(_, _, _, _, _) => PlainIff(pf, e);
    case Labelled(_, _, _, _, _, _, _, _, _) => LabelledIff(pf, e);
  }

  lemma LabelledName(pf: ParseFloat, e: Entry)
    requires WellFormed(e) && e.Labelled? && ParseLine(pf, RenderEntry(e)).Some?
    requires IsName(ParseLine(pf, RenderEntry(e)).value.0)
    ensures e.name == ParseLine(pf, RenderEntry(e)).value.0
  {
    LabelledRead(pf, e);
    NameAlone(e.lead, e.name, e.gap);
    if e.lead != "" || e.gap != "" { GapIsNoName(e.lead, e.name, e.gap); }
  }

  lemma GapIsNoName(lead: string, name: string, gap: string)
    requires IsGap(lead) && IsGap(gap) && (lead != "" || gap != "")
    ensures !IsName(lead + name + gap)
  {
    var s := lead + name + gap;
    var i := if lead != "" then 0 else |lead + name|;
    var c := s[i];
    assert c in if lead != "" then lead else gap;
    assert c in s;
  }

  /** Whatever metric name is found on a line is the name that stands there. */
  lemma NameFound(pf: ParseFloat, e: Entry)
    requires WellFormed(e) && ParseLine(pf, RenderEntry(e)).Some?
    requires IsName(ParseLine(pf, RenderEntry(e)).value.0)
    ensures Meaning(e).Some? && Meaning(e).value.name == ParseLine(pf, RenderEntry(e)).value.0
  {
    if e.Blank? {
      TrimBlank(e.lead);
    } else if e.lead != "" {
      Indented(pf, e);
    } else if e.Labelled? {
      LabelledName(pf, e);
    } else if e.Plain? {
      if e.gap[0] == ' ' { PlainGood(pf, e); } else { PlainTab(pf, e); }
    }
  }

  /* ---------- Documents ---------- */

  lemma {:induction false} SplitUnlines(lines: seq<string>)
    requires forall l :: l in lines ==> '\n' !in l
    ensures Split(Unlines(lines), '\n') == lines + [""]
  {
    if lines == [] {
      SplitWhole("", '\n');
    } else {
      SplitUnlines(lines[1..]);
      SplitFirst(lines[0], '\n', Unlines(lines[1..]));
    }
  }

  lemma BackHasNoNewline(e: Entry)
    requires WellFormed(e) && e.Labelled?
    ensures '\n' !in e.after + (e.number.text + RenderTail(e.tail))
  {
    TailStarts(e.tail);
    assert IsSpace('\n');
  }

  lemma RestHasNoNewline(e: Entry)
    requires WellFormed(e) && e.Labelled?
    ensures '\n' !in RestOf(e)
  {
    BackHasNoNewline(e);
    PiecesAvoid(e.pairs, e.comma, e.closing, '\n');
    JoinAvoids(Pieces(e.pairs, e.comma, e.closing), ',', '\n');
  }

  lemma EntryHasNoNewline(e: Entry)
    requires WellFormed(e)
    ensures '\n' !in RenderEntry(e)
  {
    if e.Plain? {
      NameHasNo(e.name, '\n');
      TailStarts(e.tail);
      assert IsSpace('\n');
    } else if e.Labelled? {
      NameHasNo(e.name, '\n');
      RestHasNoNewline(e);
    }
  }

  lemma SplitRendered(doc: seq<Entry>)
    requires forall e :: e in doc ==> WellFormed(e)
    ensures Split(Render(doc), '\n') == RenderLines(doc) + [""]
  {
    forall l | l in RenderLines(doc) ensures '\n' !in l {
      var i :| 0 <= i < |doc| && RenderLines(doc)[i] == l;
      assert doc[i] in doc;
      EntryHasNoNewline(doc[i]);
    }
    SplitUnlines(RenderLines(doc));
  }

  ghost predicate AllAgree(got: seq<Sample>, meant: seq<Said>) {
    |got| == |meant| && forall i :: 0 <= i < |got| ==> Agrees(got[i], meant[i])
  }

  /** Every name of the document has its samples in order, and there is no other name. */
  ghost predicate Carries(pf: ParseFloat, m: Metrics, doc: seq<Entry>) {
    forall name :: CarriesName(pf, m, doc, name)
  }

  function Got(pf: ParseFloat, doc: seq<Entry>): Metrics { ParseLines(pf, RenderLines(doc)) }

  lemma GotStep(pf: ParseFloat, doc: seq<Entry>)
    requires doc != []
    ensures Got(pf, doc) ==
            match ParseLine(pf, RenderEntry(doc[|doc| - 1]))
            case None => Got(pf, doc[..|doc| - 1])
            case Some((name, s)) => Push(Got(pf, doc[..|doc| - 1]), name, s)
  {
    assert RenderLines(doc)[..|doc| - 1] == RenderLines(doc[..|doc| - 1]);
  }

  /** No name is listed without samples, and a metric name never has more than the document says. */
  lemma {:induction false} NeverMore(pf: ParseFloat, doc: seq<Entry>)
    requires forall e :: e in doc ==> WellFormed(e)
    ensures forall x :: x in Got(pf, doc) ==> Got(pf, doc)[x] != []
    ensures forall x :: IsName(x) ==> |Lookup(Got(pf, doc), x)| <= |SamplesOf(doc, x)|
    ensures forall x :: !IsName(x) ==> SamplesOf(doc, x) == []
  {
    if doc != [] {
      var e := doc[|doc| - 1];
      assert e in doc;
      NeverMore(pf, doc[..|doc| - 1]);
      GotStep(pf, doc);
      var r := ParseLine(pf, RenderEntry(e));
      if r.Some? && IsName(r.value.0) { NameFound(pf, e); }
    }
  }

  ghost predicate CarriesName(pf: ParseFloat, m: Metrics, doc: seq<Entry>, name: string) {
    && (name in m <==> SamplesOf(doc, name) != [])
    && AllAgree(Lookup(m, name), SamplesOf(doc, name))
  }

  lemma AllAgreeStep(got: seq<Sample>, meant: seq<Said>, s: Sample, w: Said)
    requires Agrees(s, w)
    ensures AllAgree(got + [s], meant + [w]) <==> AllAgree(got, meant)
  {
    if AllAgree(got + [s], meant + [w]) {
      forall i | 0 <= i < |got| ensures Agrees(got[i], meant[i]) {
        assert (got + [s])[i] == got[i] && (meant + [w])[i] == meant[i];
      }
    }
  }

  /** A line that reads back neither adds nor removes a fault. */
  lemma CarriesStep(pf: ParseFloat, doc: seq<Entry>, name: string)
    requires doc != [] && (forall e :: e in doc ==> WellFormed(e)) && ReadsBack(pf, doc[|doc| - 1])
    ensures CarriesName(pf, Got(pf, doc), doc, name) <==>
            CarriesName(pf, Got(pf, doc[..|doc| - 1]), doc[..|doc| - 1], name)
  {
    var front, e := doc[..|doc| - 1], doc[|doc| - 1];
    GotStep(pf, doc);
    NeverMore(pf, front);
    var m := Got(pf, front);
    if Meaning(e).Some? && Meaning(e).value.name == name {
      var s, w := ParseLine(pf, RenderEntry(e)).value.1, Meaning(e).value;
      assert Got(pf, doc) == Push(m, name, s);
      assert Lookup(Got(pf, doc), name) == Lookup(m, name) + [s];
      assert SamplesOf(doc, name) == SamplesOf(front, name) + [w];
      AllAgreeStep(Lookup(m, name), SamplesOf(front, name), s, w);
    } else {
      assert SamplesOf(doc, name) == SamplesOf(front, name) + [];
      assert SamplesOf(front, name) + [] == SamplesOf(front, name);
    }
  }

  lemma ExtraSpoils(pf: ParseFloat, doc: seq<Entry>)
    requires doc != [] && (forall e :: e in doc ==> WellFormed(e))
    requires Meaning(doc[|doc| - 1]).None? && !ReadsBack(pf, doc[|doc| - 1])
    ensures !Carries(pf, Got(pf, doc), doc)
  {
    var e := doc[|doc| - 1];
    GotStep(pf, doc);
    NeverMore(pf, doc);
    var name := ParseLine(pf, RenderEntry(e)).value.0;
    assert e in doc;
    if IsName(name) { NameFound(pf, e); }
    assert !CarriesName(pf, Got(pf, doc), doc, name);
  }

  lemma LostSpoils(pf: ParseFloat, doc: seq<Entry>)
    requires doc != [] && (forall e :: e in doc ==> WellFormed(e))
    requires Meaning(doc[|doc| - 1]).Some? && !ReadsBack(pf, doc[|doc| - 1])
    ensures !Carries(pf, Got(pf, doc), doc)
  {
    var front, e := doc[..|doc| - 1], doc[|doc| - 1];
    var w := Meaning(e).value;
    GotStep(pf, doc);
    NeverMore(pf, front);
    assert e in doc;
    NameOf(e);
    var r := ParseLine(pf, RenderEntry(e));
    var was, meant := Lookup(Got(pf, front), w.name), SamplesOf(front, w.name);
    assert SamplesOf(doc, w.name) == meant + [w];
    if r.Some? && r.value.0 == w.name {
      assert Lookup(Got(pf, doc), w.name) == was + [r.value.1];
      WrongLast(was, meant, r.value.1, w);
    } else {
      assert Lookup(Got(pf, doc), w.name) == was;
    }
    assert !CarriesName(pf, Got(pf, doc), doc, w.name);
  }

  lemma WrongLast(got: seq<Sample>, meant: seq<Said>, s: Sample, w: Said)
    requires !Agrees(s, w)
    ensures !AllAgree(got + [s], meant + [w])
  {
    assert (got + [s])[|got|] == s && (meant + [w])[|meant|] == w;
  }

  /** A last line that is misread spoils the document, whatever stands before it. */
  lemma MisreadSpoils(pf: ParseFloat, doc: seq<Entry>)
    requires doc != [] && (forall e :: e in doc ==> WellFormed(e)) && !ReadsBack(pf, doc[|doc| - 1])
    ensures !Carries(pf, Got(pf, doc), doc)
  {
    if Meaning(doc[|doc| - 1]).None? { ExtraSpoils(pf, doc); } else { LostSpoils(pf, doc); }
  }

  lemma NameOf(e: Entry)
    requires WellFormed(e) && Meaning(e).Some?
    ensures IsName(Meaning(e).value.name)
  {
  }

  lemma {:induction false} LinesCarryIff(pf: ParseFloat, doc: seq<Entry>)
    requires forall e :: e in doc ==> WellFormed(e)
    ensures Carries(pf, Got(pf, doc), doc) <==> forall e :: e in doc ==> Readable(pf, e)
  {
    if doc != [] {
      var front, e := doc[..|doc| - 1], doc[|doc| - 1];
      assert doc == front + [e];
      LinesCarryIff(pf, front);
      LineReadsBackIff(pf, e);
      if ReadsBack(pf, e) {
        forall name
          ensures CarriesName(pf, Got(pf, doc), doc, name) <==> CarriesName(pf, Got(pf, front), front, name)
        {
          CarriesStep(pf, doc, name);
        }
      } else {
        MisreadSpoils(pf, doc);
      }
    }
  }

  /** Legal text reads back as the same samples, in order and under no other name, if and only if
      each of its lines is readable; one misread line is never made good by another. */
  lemma ParseInvertsRenderIff(pf: ParseFloat, doc: seq<Entry>)
    requires forall e :: e in doc ==> WellFormed(e)
    ensures Carries(pf, ParseLines(pf, Split(Render(doc), '\n')), doc) <==> forall e :: e in doc ==> Readable(pf, e)
  {
    SplitRendered(doc);
    LinesCarryIff(pf, doc);
    var lines := RenderLines(doc) + [""];
    assert lines[..|lines| - 1] == RenderLines(doc);
  }

  /** A value a\b, which the format writes with two backslashes, comes back with two. */
  lemma BackslashStays()
    ensures Unescape("a\\\\b") == "a\\b"
    ensures LabelsOf("{p=\"a\\\\b\"}") == map["p" := "a\\\\b"]
  {
    var p := Pair("p", "a\\b", "", "", "", "");
    EscapeBackslash();
    UnescapeInverts("a\\b");
    ReadValueBare(p);
    TrimNothing("a\\\\b");
    OnePair(p);
    RenderP(p);
  }

  lemma RenderP(p: Pair)
    requires p == Pair("p", "a\\b", "", "", "", "")
    ensures "{" + RenderPair(p) + "}" == "{p=\"a\\\\b\"}"
  {
    EscapeBackslash();
    assert Quoted(p) == "\"a\\\\b\"";
  }

  lemma OnePair(p: Pair)
    requires PairOk(p) && Separable([p])
    ensures LabelsOf("{" + RenderPair(p) + "}") == WithLabel(map[], p.name, ReadValue(p))
  {
    LabelsRead([p], false, "");
    assert RenderPairs([p]) == [RenderPair(p)];
    assert Pieces([p], false, "") == [RenderPair(p)];
    assert [p][..0] == [];
  }

  lemma EscapeBackslash()
    ensures Escape("a\\b") == "a\\\\b"
  {
    assert "a\\b"[1..] == "\\b" && "\\b"[1..] == "b" && "b"[1..] == "";
    assert Escape("b") == "b";
    assert Escape("\\b") == "\\\\b";
  }

  /** A label named like the accessor of plain objects is lost. */
  lemma ProtoIsLost(v: string)
    requires IsPlainValue(v)
    ensures LabelsOf("{" + RenderPair(Pair("__proto__", v, "", "", "", "")) + "}") == map[]
  {
    OnePair(Pair("__proto__", v, "", "", "", ""));
  }

  /** Two blanks before the number lose the sample, with any number. */
  lemma TwoBlanksLoseSample(pf: ParseFloat)
    ensures ParseLine(pf, "up  1") == None
  {
    var e := Plain("", "up", "  ", Numeral("1", Some(1.0)), Tail("", "", ""));
    assert RenderEntry(e) == "up  1";
    assert e.gap[1..] == " ";
    PlainGood(pf, e);
  }
}
