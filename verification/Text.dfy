/** The string operations of the dashboard's metrics reader, and how they cut joined text. */
module Text {
  /** The first position of c, or |s|. */
  function IndexOf(s: string, c: char): (i: nat)
    ensures i <= |s| && c !in s[..i] && (i < |s| ==> s[i] == c) && (c in s <==> i < |s|)
  {
    if s == "" then 0 else if s[0] == c then 0 else 1 + IndexOf(s[1..], c)
  }

  function Split(s: string, c: char): (parts: seq<string>)
    ensures parts != []
    decreases |s|
  {
    var i := IndexOf(s, c);
    if i == |s| then [s] else [s[..i]] + Split(s[i + 1..], c)
  }

  predicate IsSpace(c: char) {
    || c == ' ' || '\t' <= c <= '\r' || c == '\U{A0}' || c == '\U{1680}' || '\U{2000}' <= c <= '\U{200A}'
    || c == '\U{2028}' || c == '\U{2029}' || c == '\U{202F}' || c == '\U{205F}' || c == '\U{3000}' || c == '\U{FEFF}'
  }

  function TrimLeft(s: string): string { if s != "" && IsSpace(s[0]) then TrimLeft(s[1..]) else s }
  function TrimRight(s: string): string { if s != "" && IsSpace(s[|s| - 1]) then TrimRight(s[..|s| - 1]) else s }
  function Trim(s: string): string { TrimRight(TrimLeft(s)) }

  function DropFirst(s: string, c: char): string { if s != "" && s[0] == c then s[1..] else s }
  function DropLast(s: string, c: char): string { if s != "" && s[|s| - 1] == c then s[..|s| - 1] else s }

  /** The characters up to the first whitespace. */
  function Word(s: string): string { if s == "" || IsSpace(s[0]) then "" else [s[0]] + Word(s[1..]) }

  /** Parts joined by a separator. */
  function Join(parts: seq<string>, sep: string): string {
    if parts == [] then "" else if |parts| == 1 then parts[0] else parts[0] + sep + Join(parts[1..], sep)
  }

  /** Blanks and tabs only. */
  ghost predicate IsGap(s: string) { forall c :: c in s ==> c == ' ' || c == '\t' }

  /* ---------- Finding, splitting and trimming ---------- */

  lemma {:induction false} IndexOfPast(a: string, b: string, c: char)
    requires c !in a
    ensures IndexOf(a + b, c) == |a| + IndexOf(b, c)
  {
    if a == "" {
      assert a + b == b;
    } else {
      assert (a + b)[1..] == a[1..] + b;
      IndexOfPast(a[1..], b, c);
    }
  }

  lemma IndexOfFirst(a: string, c: char, b: string)
    requires c !in a
    ensures IndexOf(a + [c] + b, c) == |a|
  {
    assert a + [c] + b == a + ([c] + b);
    IndexOfPast(a, [c] + b, c);
  }

  lemma IndexOfAbsent(s: string, c: char)
    requires c !in s
    ensures IndexOf(s, c) == |s|
  {
  }

  lemma SplitFirst(a: string, c: char, b: string)
    requires c !in a
    ensures Split(a + [c] + b, c) == [a] + Split(b, c)
  {
    IndexOfFirst(a, c, b);
    var s := a + [c] + b;
    assert s[..|a|] == a && s[|a| + 1..] == b;
  }

  lemma Assoc(a: string, b: string, c: string)
    ensures a + b + c == a + (b + c)
  {
  }

  lemma SplitWhole(s: string, c: char)
    requires c !in s
    ensures Split(s, c) == [s]
  {
    IndexOfAbsent(s, c);
  }

  /** Text without the separator in front only lengthens the first part. */
  lemma SplitGrows(a: string, s: string, c: char)
    requires c !in a
    ensures Split(a + s, c) == [a + Split(s, c)[0]] + Split(s, c)[1..]
  {
    var i := IndexOf(s, c);
    if i == |s| {
      SplitWhole(s, c);
      SplitWhole(a + s, c);
    } else {
      var h, b := s[..i], s[i + 1..];
      assert s == h + [c] + b && a + s == (a + h) + [c] + b;
      SplitFirst(h, c, b);
      SplitFirst(a + h, c, b);
    }
  }

  lemma SplitAt(g: string, c: char, s: string)
    requires c in g
    ensures Split(g + s, c) == [g[..IndexOf(g, c)]] + Split(g[IndexOf(g, c) + 1..] + s, c)
  {
    var i := IndexOf(g, c);
    var h, k := g[..i], g[i + 1..];
    assert g == h + [c] + k;
    Assoc(h + [c], k, s);
    SplitFirst(h, c, k + s);
  }

  lemma SplitHead(s: string, c: char)
    ensures Split(s, c)[0] == s[..IndexOf(s, c)]
  {
  }

  /** No part holds the separator, nor anything the text does not hold. */
  lemma {:induction false} SplitAvoids(s: string, c: char, d: char)
    requires d == c || d !in s
    ensures forall p :: p in Split(s, c) ==> d !in p
    decreases |s|
  {
    var i := IndexOf(s, c);
    if i < |s| { SplitAvoids(s[i + 1..], c, d); }
  }

  lemma {:induction false} SplitJoin(parts: seq<string>, c: char)
    requires parts != [] && forall p :: p in parts ==> c !in p
    ensures Split(Join(parts, [c]), c) == parts
  {
    if |parts| == 1 {
      SplitWhole(parts[0], c);
    } else {
      var rest := Join(parts[1..], [c]);
      SplitJoin(parts[1..], c);
      SplitFirst(parts[0], c, rest);
      assert Join(parts, [c]) == parts[0] + [c] + rest;
      assert parts == [parts[0]] + parts[1..];
    }
  }

  lemma {:induction false} JoinAvoids(parts: seq<string>, c: char, d: char)
    requires c != d && forall p :: p in parts ==> d !in p
    ensures d !in Join(parts, [c])
  {
    if |parts| > 1 { JoinAvoids(parts[1..], c, d); }
  }

  lemma {:induction false} TrimLeftPast(g: string, s: string)
    requires forall c :: c in g ==> IsSpace(c)
    ensures TrimLeft(g + s) == TrimLeft(s)
  {
    if g == "" {
      assert g + s == s;
    } else {
      assert (g + s)[1..] == g[1..] + s;
      TrimLeftPast(g[1..], s);
    }
  }

  lemma {:induction false} TrimRightPast(s: string, t: string)
    requires s != "" && !IsSpace(s[|s| - 1])
    ensures TrimRight(s + t) == s + TrimRight(t)
  {
    if t == "" {
      assert s + t == s;
    } else {
      assert (s + t)[..|s + t| - 1] == s + t[..|t| - 1];
      if IsSpace(t[|t| - 1]) { TrimRightPast(s, t[..|t| - 1]); }
    }
  }

  lemma {:induction false} TrimRightBlank(t: string)
    requires forall c :: c in t ==> IsSpace(c)
    ensures TrimRight(t) == ""
  {
    if t != "" { TrimRightBlank(t[..|t| - 1]); }
  }

  /** Blanks around a word go. */
  lemma TrimAround(g: string, s: string, h: string)
    requires IsGap(g) && IsGap(h) && s != "" && !IsSpace(s[0]) && !IsSpace(s[|s| - 1])
    ensures Trim(g + s + h) == s
  {
    assert g + s + h == g + (s + h);
    TrimLeftPast(g, s + h);
    TrimRightPast(s, h);
    TrimRightBlank(h);
    assert s + "" == s;
  }

  lemma TrimBlank(g: string)
    requires IsGap(g)
    ensures Trim(g) == ""
  {
    TrimLeftPast(g, "");
    assert g + "" == g;
  }

  lemma TrimNothing(s: string)
    requires s != "" ==> !IsSpace(s[0]) && !IsSpace(s[|s| - 1])
    ensures Trim(s) == s
  {
  }

  /** Trimming keeps every character that is not whitespace as often as it stood there. */
  lemma {:induction false} TrimLeftCount(s: string, c: char)
    requires !IsSpace(c)
    ensures multiset(TrimLeft(s))[c] == multiset(s)[c]
  {
    if s != "" && IsSpace(s[0]) {
      assert s == [s[0]] + s[1..];
      TrimLeftCount(s[1..], c);
    }
  }

  lemma {:induction false} TrimRightCount(s: string, c: char)
    requires !IsSpace(c)
    ensures multiset(TrimRight(s))[c] == multiset(s)[c]
  {
    if s != "" && IsSpace(s[|s| - 1]) {
      assert s == s[..|s| - 1] + [s[|s| - 1]];
      TrimRightCount(s[..|s| - 1], c);
    }
  }

  lemma TrimKeeps(s: string, c: char)
    requires !IsSpace(c)
    ensures multiset(Trim(s))[c] == multiset(s)[c]
    ensures c in Trim(s) <==> c in s
  {
    TrimLeftCount(s, c);
    TrimRightCount(TrimLeft(s), c);
    assert c in s <==> c in multiset(s);
    assert c in Trim(s) <==> c in multiset(Trim(s));
  }

  lemma {:induction false} WordPrefix(s: string, t: string)
    requires forall c :: c in s ==> !IsSpace(c)
    requires t == "" || IsSpace(t[0])
    ensures Word(s + t) == s
  {
    if s == "" {
      assert s + t == t;
    } else {
      assert (s + t)[1..] == s[1..] + t;
      WordPrefix(s[1..], t);
    }
  }

  lemma GapSlice(g: string, i: nat, j: nat)
    requires IsGap(g) && i <= j <= |g|
    ensures IsGap(g[i..j]) && IsGap(g[i..])
  {
    assert forall c :: c in g[i..] ==> c in g;
    assert forall c :: c in g[i..j] ==> c in g;
  }
}
