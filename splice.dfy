/**
 * The declaration rewrite seen as a splice: `ReplaceAllString` keeps the text
 * between, around and inside the matches and changes only each match's body
 * (group 2), which becomes the value.
 */
module ApiRewriteSplice {
  import opened Prelude
  import opened ApiRewrite

  /**
   * `ms` are in order within `t` from `from` on: each starts no earlier than the
   * previous one's `;`, and its body `t[body..end - 1]` is followed by its `;`.
   */
  predicate Chain(t: string, ms: seq<Match>, from: nat)
    decreases |ms|
  {
    if ms == [] then from <= |t|
    else from <= ms[0].start <= ms[0].body <= ms[0].end - 1 < ms[0].end <= |t| && t[ms[0].end - 1] == ';'
         && Chain(t, ms[1..], ms[0].end - 1)
  }

  /** `t` from `from` on, with the body of the `k`-th match replaced by `bodies[k]`. */
  function Splice(t: string, ms: seq<Match>, from: nat, bodies: seq<string>): string
    requires Chain(t, ms, from) && |bodies| == |ms|
    decreases |ms|
  {
    if ms == [] then t[from..]
    else t[from..ms[0].body] + bodies[0] + Splice(t, ms[1..], ms[0].end - 1, bodies[1..])
  }

  /** The bodies the matches have in `t`. */
  function Bodies(t: string, ms: seq<Match>, from: nat): (bs: seq<string>)
    requires Chain(t, ms, from)
    ensures |bs| == |ms|
    decreases |ms|
  {
    if ms == [] then [] else [t[ms[0].body..ms[0].end - 1]] + Bodies(t, ms[1..], ms[0].end - 1)
  }

  /** `n` copies of `v`. */
  function Repeat(v: string, n: nat): (r: seq<string>)
    ensures |r| == n
  {
    if n == 0 then [] else [v] + Repeat(v, n - 1)
  }

  /** The matches the scan finds are in order, each followed by its `;`. */
  lemma {:induction false} MatchesChain(t: string, name: string, from: nat)
    requires from <= |t|
    ensures Chain(t, Matches(t, name, from), from)
    decreases |t| - from
  {
    var f := FirstMatch(t, name, from);
    if f.Some? {
      var m := f.value;
      var rest := Matches(t, name, m.end);
      assert Matches(t, name, from) == [m] + rest;
      assert MatchAt(t, name, m.start) == Some(m);
      MatchesChain(t, name, m.end);
      ChainEarlier(t, rest, m.end - 1, m.end);
      MatchSemi(t, name, m.start, m);
      ChainCons(t, m, rest, from);
    }
  }

  lemma ChainCons(t: string, m: Match, rest: seq<Match>, from: nat)
    requires from <= m.start <= m.body <= m.end - 1 < m.end <= |t| && t[m.end - 1] == ';'
    requires Chain(t, rest, m.end - 1)
    ensures Chain(t, [m] + rest, from)
  {
    assert ([m] + rest)[1..] == rest;
  }

  /** A chain from `q` is a chain from any earlier point. */
  lemma ChainEarlier(t: string, ms: seq<Match>, p: nat, q: nat)
    requires p <= q && Chain(t, ms, q)
    ensures Chain(t, ms, p)
  {
  }

  lemma MatchSemi(t: string, name: string, i: nat, m: Match)
    requires i <= |t| && MatchAt(t, name, i) == Some(m)
    ensures t[m.end - 1] == ';'
  {
    assert NextSemi(t, m.body) == Some(m.end - 1);
  }

  /** Putting every match's own body back gives the text: outside the bodies the splice keeps `t`. */
  lemma {:induction false} SpliceOriginal(t: string, ms: seq<Match>, from: nat)
    requires Chain(t, ms, from)
    ensures Splice(t, ms, from, Bodies(t, ms, from)) == t[from..]
    decreases |ms|
  {
    if ms != [] {
      var m := ms[0];
      var bs := Bodies(t, ms, from);
      assert bs[0] == t[m.body..m.end - 1] && bs[1..] == Bodies(t, ms[1..], m.end - 1);
      var rest := Splice(t, ms[1..], m.end - 1, bs[1..]);
      assert Splice(t, ms, from, bs) == t[from..m.body] + bs[0] + rest;
      SpliceOriginal(t, ms[1..], m.end - 1);
      assert rest == t[m.end - 1..];
      Rejoin(t, from, m.body, m.end - 1);
    }
  }

  lemma Rejoin(t: string, a: nat, b: nat, c: nat)
    requires a <= b <= c <= |t|
    ensures t[a..b] + t[b..c] + t[c..] == t[a..]
  {
    assert t[a..b] + t[b..c] == t[a..c];
  }

  /** A chain from `p + 1` is a chain from `p`, and its splice gains `t[p]` in front. */
  lemma SpliceBack(t: string, ms: seq<Match>, p: nat, bodies: seq<string>)
    requires p < |t| && Chain(t, ms, p + 1) && |bodies| == |ms|
    ensures Chain(t, ms, p) && Splice(t, ms, p, bodies) == [t[p]] + Splice(t, ms, p + 1, bodies)
  {
    if ms == [] {
      assert t[p..] == [t[p]] + t[p + 1..];
    } else {
      var m, rest := ms[0], Splice(t, ms[1..], ms[0].end - 1, bodies[1..]);
      assert Chain(t, ms, p);
      assert Splice(t, ms, p, bodies) == t[p..m.body] + bodies[0] + rest;
      assert Splice(t, ms, p + 1, bodies) == t[p + 1..m.body] + bodies[0] + rest;
      assert t[p..m.body] == [t[p]] + t[p + 1..m.body];
    }
  }

  /**
   * `ReplaceAllString` is the splice of its matches with the value as every body: the
   * text between and after the matches and each match's `const NAME =` part and `;`
   * stay in place, and only the bodies change.
   */
  lemma {:induction false} ReplaceFromSplice(t: string, name: string, value: string, from: nat)
    requires from <= |t|
    ensures var ms := Matches(t, name, from);
      Chain(t, ms, from) && ReplaceFrom(t, name, value, from) == Splice(t, ms, from, Repeat(value, |ms|))
    decreases |t| - from
  {
    var ms := Matches(t, name, from);
    MatchesChain(t, name, from);
    if FirstMatch(t, name, from).Some? {
      var m := FirstMatch(t, name, from).value;
      var rest := Matches(t, name, m.end);
      assert ms == [m] + rest;
      assert ReplaceFrom(t, name, value, from) == t[from..m.body] + value + ";" + ReplaceFrom(t, name, value, m.end);
      ReplaceFromSplice(t, name, value, m.end);
      SpliceStep(t, m, rest, from, value);
    }
  }

  /** One step of the splice: the gap and head of the first match, the value, then its `;` and the rest. */
  lemma SpliceStep(t: string, m: Match, rest: seq<Match>, from: nat, value: string)
    requires Chain(t, [m] + rest, from) && Chain(t, rest, m.end)
    ensures Splice(t, [m] + rest, from, Repeat(value, |rest| + 1))
            == t[from..m.body] + value + ";" + Splice(t, rest, m.end, Repeat(value, |rest|))
  {
    var ms := [m] + rest;
    var vs := Repeat(value, |rest|);
    assert ms[0] == m && ms[1..] == rest;
    assert Repeat(value, |rest| + 1)[1..] == vs;
    SpliceBack(t, rest, m.end - 1, vs);
    assert t[m.end - 1] == ';';
  }

  /** The whole rewrite: the text with each declaration's body replaced by the value. */
  lemma ReplaceAllSplice(t: string, name: string, value: string)
    requires '$' !in value
    ensures var ms := Matches(t, name, 0);
      && Chain(t, ms, 0)
      && ReplaceAll(t, name, value) == Splice(t, ms, 0, Repeat(value, |ms|))
      && Splice(t, ms, 0, Bodies(t, ms, 0)) == t
  {
    var ms := Matches(t, name, 0);
    ReplaceFromSplice(t, name, value, 0);
    SpliceOriginal(t, ms, 0);
  }
}
