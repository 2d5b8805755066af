/**
 * The declaration rewrite of `CreatePluginFromTemplate`: the regular expression
 * `(const\s+NAME\s*=\s*)([^;]+)(;)`, with NAME the variable's name taken
 * literally, matched with Go's leftmost-first semantics, and `ReplaceAllString`
 * with the replacement `${1}VALUE${3}`.
 */
module ApiRewrite {
  import opened Prelude
  import opened Text

  /** The character at `k` is in `\s`. */
  predicate SpaceAt(t: string, k: int) {
    0 <= k < |t| && IsSpace(t[k])
  }

  /** The character at `k` is `;`. */
  predicate SemiAt(t: string, k: int) {
    0 <= k < |t| && t[k] == ';'
  }

  /** Every character of `t[lo..hi]` is in `\s`. */
  predicate AllSpace(t: string, lo: nat, hi: nat) {
    lo <= hi <= |t| && forall k :: lo <= k < hi ==> SpaceAt(t, k)
  }

  /** No character of `t[lo..hi]` is `;`. */
  predicate NoSemi(t: string, lo: nat, hi: nat) {
    lo <= hi <= |t| && forall k :: lo <= k < hi ==> !SemiAt(t, k)
  }

  /** The length of the longest `\s` run at `p`: what a greedy `\s*` takes first. */
  function WsRun(t: string, p: nat): (n: nat)
    requires p <= |t|
    ensures AllSpace(t, p, p + n)
    ensures p + n < |t| ==> !IsSpace(t[p + n])
    decreases |t| - p
  {
    if p < |t| && IsSpace(t[p]) then 1 + WsRun(t, p + 1) else 0
  }

  /** The first `;` at or after `p`. */
  function NextSemi(t: string, p: nat): (r: Option<nat>)
    requires p <= |t|
    ensures r.Some? ==> p <= r.value < |t| && t[r.value] == ';' && NoSemi(t, p, r.value)
    ensures r.None? ==> NoSemi(t, p, |t|)
    decreases |t| - p
  {
    if p == |t| then None
    else if t[p] == ';' then Some(p)
    else NextSemi(t, p + 1)
  }

  /**
   * Where group 2 (`[^;]+`) starts once `=` has been read and `q` is just past it.
   * The greedy `\s*` takes the whole run; if no body character follows, it gives one
   * space back to `[^;]+`.
   */
  function BodyStart(t: string, q: nat): (r: Option<nat>)
    requires q <= |t|
    ensures r.Some? ==> q <= r.value < |t| && AllSpace(t, q, r.value) && t[r.value] != ';'
                        && NextSemi(t, r.value).Some?
  {
    var j := q + WsRun(t, q);
    if j < |t| && t[j] != ';' then
      if NextSemi(t, j).Some? then Some(j) else None
    else if j < |t| && j > q then
      assert SpaceAt(t, j - 1);
      assert NextSemi(t, j - 1) == NextSemi(t, j);
      Some(j - 1)
    else None
  }

  /** Group 2's start once NAME has been read and `p` is just past it: `\s*=` then the body. */
  function AfterName(t: string, p: nat): (r: Option<nat>)
    requires p <= |t|
    ensures r.Some? ==> p < r.value < |t| && t[r.value] != ';' && NextSemi(t, r.value).Some?
  {
    var m := WsRun(t, p);
    if p + m < |t| && t[p + m] == '=' then BodyStart(t, p + m + 1) else None
  }

  /** The greedy `\s+` before NAME, backtracking from `k` spaces down to one. */
  function TryWs(t: string, name: string, s: nat, k: nat): (r: Option<nat>)
    requires s + k <= |t|
    ensures r.Some? ==> s < r.value < |t| && t[r.value] != ';' && NextSemi(t, r.value).Some?
    decreases k
  {
    if k == 0 then None
    else if OccursAt(t, name, s + k) && AfterName(t, s + k + |name|).Some? then AfterName(t, s + k + |name|)
    else TryWs(t, name, s, k - 1)
  }

  /** A match: it starts at `start`, group 2 starts at `body`, and the `;` is at `end - 1`. */
  datatype Match = Match(start: nat, body: nat, end: nat)

  /** The match the pattern makes starting at `i`, if any. */
  function MatchAt(t: string, name: string, i: nat): (r: Option<Match>)
    requires i <= |t|
    ensures r.Some? ==> r.value.start == i && i < r.value.body < r.value.end - 1 && r.value.end <= |t|
  {
    if !OccursAt(t, "const", i) then None
    else
      match TryWs(t, name, i + 5, WsRun(t, i + 5))
      case None => None
      case Some(g) => Some(Match(i, g, NextSemi(t, g).value + 1))
  }

  /** The leftmost match starting at or after `from`. */
  function FirstMatch(t: string, name: string, from: nat): (r: Option<Match>)
    requires from <= |t|
    ensures r.Some? ==> from <= r.value.start <= |t| && MatchAt(t, name, r.value.start) == r
    ensures r.Some? ==> forall j :: from <= j < r.value.start ==> MatchAt(t, name, j).None?
    ensures r.None? ==> forall j :: from <= j <= |t| ==> MatchAt(t, name, j).None?
    decreases |t| - from
  {
    if MatchAt(t, name, from).Some? then MatchAt(t, name, from)
    else if from == |t| then None
    else FirstMatch(t, name, from + 1)
  }

  /** `re.MatchString(t)` */
  predicate MatchString(t: string, name: string) {
    FirstMatch(t, name, 0).Some?
  }

  /** `ReplaceAllString` from `from` on, each match rewritten to group 1, the value and `;`. */
  function ReplaceFrom(t: string, name: string, value: string, from: nat): string
    requires from <= |t|
    decreases |t| - from
  {
    match FirstMatch(t, name, from)
    case None => t[from..]
    case Some(m) => t[from..m.body] + value + ";" + ReplaceFrom(t, name, value, m.end)
  }

  /**
   * `re.ReplaceAllString(t, "${1}" + value + "${3}")`. A `$` in the value would be
   * read as a group reference, which is not modelled.
   */
  function ReplaceAll(t: string, name: string, value: string): string
    requires '$' !in value
  {
    ReplaceFrom(t, name, value, 0)
  }

  // ---------------------------------------------------------------------------
  // What a declaration looks like, stated without the matching strategy.

  /**
   * `t` holds `const`, `a >= 1` spaces, NAME, `b` spaces, `=`, spaces up to `g`, a body
   * `t[g..d]` of one or more characters other than `;`, and the `;` at `d`.
   */
  predicate Decl(t: string, name: string, i: nat, a: nat, b: nat, g: nat, d: nat) {
    DeclHead(t, name, i, a) && DeclTail(t, i + 5 + a + |name|, b, g, d)
  }

  /** `const`, `a >= 1` spaces and NAME, from `i` on. */
  predicate DeclHead(t: string, name: string, i: nat, a: nat) {
    OccursAt(t, "const", i) && a >= 1 && AllSpace(t, i + 5, i + 5 + a) && OccursAt(t, name, i + 5 + a)
  }

  /** `b` spaces, `=`, spaces up to `g`, the body `t[g..d]` and the `;` at `d`, from `p` on. */
  predicate DeclTail(t: string, p: nat, b: nat, g: nat, d: nat) {
    p + b < |t| && AllSpace(t, p, p + b) && t[p + b] == '=' &&
    AllSpace(t, p + b + 1, g) && g < d < |t| && NoSemi(t, g, d) && t[d] == ';'
  }

  lemma {:induction false} WsRunAtLeast(t: string, p: nat, n: nat)
    requires AllSpace(t, p, p + n)
    ensures WsRun(t, p) >= n
    decreases n
  {
    if n > 0 {
      assert SpaceAt(t, p);
      WsRunAtLeast(t, p + 1, n - 1);
    }
  }

  lemma WsRunExact(t: string, p: nat, n: nat)
    requires AllSpace(t, p, p + n) && p + n < |t| && !IsSpace(t[p + n])
    ensures WsRun(t, p) == n
  {
    WsRunAtLeast(t, p, n);
    assert !SpaceAt(t, p + n);
  }

  lemma BodyStartComplete(t: string, q: nat, g: nat, d: nat)
    requires AllSpace(t, q, g) && g < d < |t| && NoSemi(t, g, d) && t[d] == ';'
    ensures BodyStart(t, q).Some?
  {
    WsRunAtLeast(t, q, g - q);
    var j := q + WsRun(t, q);
    assert !SpaceAt(t, d);
    if j < d {
      assert !SemiAt(t, j);
      assert SemiAt(t, d);
    }
  }

  lemma AfterNameComplete(t: string, p: nat, b: nat, g: nat, d: nat)
    requires p + b < |t| && AllSpace(t, p, p + b) && t[p + b] == '='
    requires AllSpace(t, p + b + 1, g) && g < d < |t| && NoSemi(t, g, d) && t[d] == ';'
    ensures AfterName(t, p).Some?
  {
    WsRunExact(t, p, b);
    BodyStartComplete(t, p + b + 1, g, d);
  }

  lemma {:induction false} TryWsComplete(t: string, name: string, s: nat, k: nat, a: nat)
    requires s + k <= |t| && 1 <= a <= k
    requires OccursAt(t, name, s + a) && s + a + |name| <= |t| && AfterName(t, s + a + |name|).Some?
    ensures TryWs(t, name, s, k).Some?
    decreases k
  {
    if k != a && !(OccursAt(t, name, s + k) && AfterName(t, s + k + |name|).Some?) {
      TryWsComplete(t, name, s, k - 1, a);
    }
  }

  /** Completeness: wherever a declaration starts, the pattern matches there. */
  lemma MatchAtComplete(t: string, name: string, i: nat, a: nat, b: nat, g: nat, d: nat)
    requires Decl(t, name, i, a, b, g, d)
    ensures MatchAt(t, name, i).Some?
  {
    AfterNameComplete(t, i + 5 + a + |name|, b, g, d);
    HeadComplete(t, name, i, a);
  }

  lemma HeadComplete(t: string, name: string, i: nat, a: nat)
    requires DeclHead(t, name, i, a) && AfterName(t, i + 5 + a + |name|).Some?
    ensures MatchAt(t, name, i).Some?
  {
    WsRunAtLeast(t, i + 5, a);
    TryWsComplete(t, name, i + 5, WsRun(t, i + 5), a);
  }

  lemma BodyStartSound(t: string, q: nat, g: nat, d: nat)
    requires q <= |t| && BodyStart(t, q) == Some(g) && NextSemi(t, g) == Some(d)
    ensures AllSpace(t, q, g) && g < d < |t| && NoSemi(t, g, d) && t[d] == ';'
  {
  }

  lemma AfterNameSound(t: string, p: nat, g: nat)
    requires p <= |t| && AfterName(t, p) == Some(g)
    ensures var b := WsRun(t, p); p + b < |t| && t[p + b] == '=' && BodyStart(t, p + b + 1) == Some(g)
  {
  }

  lemma {:induction false} TryWsSound(t: string, name: string, s: nat, k: nat, g: nat) returns (a: nat)
    requires s + k <= |t| && TryWs(t, name, s, k) == Some(g)
    ensures 1 <= a <= k && OccursAt(t, name, s + a) && AfterName(t, s + a + |name|) == Some(g)
    decreases k
  {
    assert k != 0;
    if OccursAt(t, name, s + k) && AfterName(t, s + k + |name|).Some? {
      assert TryWs(t, name, s, k) == AfterName(t, s + k + |name|);
      a := k;
    } else {
      assert TryWs(t, name, s, k) == TryWs(t, name, s, k - 1);
      a := TryWsSound(t, name, s, k - 1, g);
    }
  }

  lemma HeadSound(t: string, name: string, i: nat, g: nat) returns (a: nat)
    requires OccursAt(t, "const", i) && TryWs(t, name, i + 5, WsRun(t, i + 5)) == Some(g)
    ensures DeclHead(t, name, i, a) && AfterName(t, i + 5 + a + |name|) == Some(g)
  {
    var w := WsRun(t, i + 5);
    a := TryWsSound(t, name, i + 5, w, g);
    assert AfterName(t, i + 5 + a + |name|) == Some(g);
  }

  lemma MatchTailSound(t: string, p: nat, g: nat, d: nat)
    requires p <= |t| && AfterName(t, p) == Some(g) && NextSemi(t, g) == Some(d)
    ensures DeclTail(t, p, WsRun(t, p), g, d)
  {
    AfterNameSound(t, p, g);
    BodyStartSound(t, p + WsRun(t, p) + 1, g, d);
  }

  /** Soundness: a match is a declaration whose body is group 2 and whose `;` ends the match. */
  lemma MatchAtSound(t: string, name: string, i: nat, m: Match) returns (a: nat, b: nat)
    requires i <= |t| && MatchAt(t, name, i) == Some(m)
    ensures Decl(t, name, i, a, b, m.body, m.end - 1)
  {
    assert OccursAt(t, "const", i) && TryWs(t, name, i + 5, WsRun(t, i + 5)) == Some(m.body);
    assert NextSemi(t, m.body) == Some(m.end - 1);
    a := HeadSound(t, name, i, m.body);
    var p := i + 5 + a + |name|;
    MatchTailSound(t, p, m.body, m.end - 1);
    b := WsRun(t, p);
  }

  /** The pattern matches exactly when the text holds a declaration of NAME. */
  lemma MatchStringIff(t: string, name: string)
    ensures MatchString(t, name) <==> exists i, a, b, g, d :: Decl(t, name, i, a, b, g, d)
  {
    if MatchString(t, name) {
      var m := FirstMatch(t, name, 0).value;
      var a, b := MatchAtSound(t, name, m.start, m);
      assert Decl(t, name, m.start, a, b, m.body, m.end - 1);
    }
    if exists i, a, b, g, d :: Decl(t, name, i, a, b, g, d) {
      var i, a, b, g, d :| Decl(t, name, i, a, b, g, d);
      MatchAtComplete(t, name, i, a, b, g, d);
    }
  }

  // ---------------------------------------------------------------------------
  // What the replacement does.

  /** With no declaration from `from` on, the rest of the text is kept as it is. */
  lemma NoMatchUnchanged(t: string, name: string, value: string)
    requires '$' !in value && !MatchString(t, name)
    ensures ReplaceAll(t, name, value) == t
  {
  }

  /**
   * The text before the leftmost declaration is kept, that declaration keeps its
   * `const NAME =` prefix with its own spacing, its body becomes the value, and its
   * `;` stays.
   */
  lemma FirstRewritten(t: string, name: string, value: string)
    requires '$' !in value && MatchString(t, name)
    ensures var m := FirstMatch(t, name, 0).value;
      HasPrefix(ReplaceAll(t, name, value), t[..m.body] + value + ";")
  {
    var m := FirstMatch(t, name, 0).value;
    var r := ReplaceAll(t, name, value);
    var p := t[..m.body] + value + ";";
    assert t[0..m.body] == t[..m.body];
    assert r == p + ReplaceFrom(t, name, value, m.end);
    assert r[..|p|] == p;
  }

  /** The matches `ReplaceAllString` rewrites, in order, from `from` on. */
  function Matches(t: string, name: string, from: nat): (ms: seq<Match>)
    requires from <= |t|
    ensures forall k :: 0 <= k < |ms| ==> from <= ms[k].start <= |t| && MatchAt(t, name, ms[k].start) == Some(ms[k])
    decreases |t| - from
  {
    match FirstMatch(t, name, from)
    case None => []
    case Some(m) => [m] + Matches(t, name, m.end)
  }

  lemma ReplaceFromStep(t: string, name: string, value: string, from: nat, m: Match)
    requires from <= |t| && FirstMatch(t, name, from) == Some(m)
    ensures ReplaceFrom(t, name, value, from)
            == t[from..m.start] + (t[m.start..m.body] + value + ";") + ReplaceFrom(t, name, value, m.end)
  {
    assert ReplaceFrom(t, name, value, from) == t[from..m.body] + value + ";" + ReplaceFrom(t, name, value, m.end);
    SplitAt(t, from, m.start, m.body, value, ReplaceFrom(t, name, value, m.end));
  }

  lemma SplitAt(t: string, from: nat, a: nat, b: nat, value: string, rest: string)
    requires from <= a <= b <= |t|
    ensures t[from..b] + value + ";" + rest == t[from..a] + (t[a..b] + value + ";") + rest
  {
    assert t[from..a] + t[a..b] == t[from..b];
  }

  /**
   * Every declaration the scan rewrites shows up in the result as its own prefix
   * followed by the value and the `;`.
   */
  lemma {:induction false} EachRewritten(t: string, name: string, value: string, from: nat, k: nat)
    requires from <= |t| && k < |Matches(t, name, from)|
    ensures var m := Matches(t, name, from)[k];
      Contains(ReplaceFrom(t, name, value, from), t[m.start..m.body] + value + ";")
    decreases |t| - from
  {
    var m := FirstMatch(t, name, from).value;
    ReplaceFromStep(t, name, value, from, m);
    assert Matches(t, name, from) == [m] + Matches(t, name, m.end);
    var rest := ReplaceFrom(t, name, value, m.end);
    var head := t[m.start..m.body] + value + ";";
    var target := Matches(t, name, from)[k];
    var piece := t[target.start..target.body] + value + ";";
    if k == 0 {
      ContainsSelf(piece);
      ContainsInMiddle(t[from..m.start], piece, rest, piece);
    } else {
      assert Matches(t, name, m.end)[k - 1] == target;
      EachRewritten(t, name, value, m.end, k - 1);
      ContainsInMiddle(t[from..m.start] + head, rest, "", piece);
      assert t[from..m.start] + head + rest + "" == t[from..m.start] + head + rest;
    }
  }

  /** What the handler's tests look for: the rewritten first declaration is in the code. */
  lemma ContainsRewrittenDecl(t: string, name: string, value: string)
    requires '$' !in value && MatchString(t, name)
    ensures var m := FirstMatch(t, name, 0).value;
      Contains(ReplaceAll(t, name, value), t[m.start..m.body] + value + ";")
  {
    EachRewritten(t, name, value, 0, 0);
  }
}
