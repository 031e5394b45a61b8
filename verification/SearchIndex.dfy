/** internal/memory/search.go: an inverted index with BM25 scores, over the reals. Lower-casing, the
    split of a text into runes, the letter test, the symbol extractor and the logarithm are left
    open. */
module SearchIndex {
  import opened Sorting
  import opened Canonical
  import opened EventLog

  datatype Lexer = Lexer(
    lower: string -> string,
    runes: string -> seq<string>,
    isWord: string -> bool,
    symbols: string -> seq<string>)

  datatype Posting = Posting(eventId: string, termFreq: nat, fieldBoost: real)

  datatype EventStats = EventStats(tokenCount: nat, branchId: string)

  datatype Result = Result(eventId: string, score: real)

  /** What Add indexes of an event. */
  datatype Doc = Doc(id: string, branchId: string, text: string)

  const K1 := 1.2
  const B := 0.75
  const DEFAULT_LIMIT := 20

  // ----- Tokens -----

  function Emit(current: string): seq<string> {
    if |current| >= 2 then [current] else []
  }

  /** The tokens of a text whose first word has already begun with `current`. */
  function TokensFrom(lex: Lexer, current: string, runes: seq<string>): seq<string>
    decreases |runes|
  {
    if runes == [] then Emit(current)
    else if lex.isWord(runes[0]) then TokensFrom(lex, current + runes[0], runes[1..])
    else Emit(current) + TokensFrom(lex, "", runes[1..])
  }

  function Tokens(lex: Lexer, text: string): seq<string> {
    TokensFrom(lex, "", lex.runes(lex.lower(text)))
  }

  method Tokenize(lex: Lexer, text: string) returns (tokens: seq<string>)
    ensures tokens == Tokens(lex, text)
  {
    var runes := lex.runes(lex.lower(text));
    tokens := [];
    var current := "";
    var i := 0;
    while i < |runes|
      invariant 0 <= i <= |runes|
      invariant tokens + TokensFrom(lex, current, runes[i..]) == Tokens(lex, text)
    {
      assert runes[i..][1..] == runes[i + 1..];
      if lex.isWord(runes[i]) {
        current := current + runes[i];
      } else {
        assert tokens + (Emit(current) + TokensFrom(lex, "", runes[i + 1..]))
               == (tokens + Emit(current)) + TokensFrom(lex, "", runes[i + 1..]);
        if |current| >= 2 {
          tokens := tokens + [current];
        }
        current := "";
      }
      i := i + 1;
    }
    if |current| >= 2 {
      tokens := tokens + [current];
    }
  }

  /** A rune that belongs to no word separates: the tokens of the two sides are found on their own. */
  lemma {:induction false} SeparatorSplits(lex: Lexer, current: string, a: seq<string>, r: string, b: seq<string>)
    requires !lex.isWord(r)
    ensures TokensFrom(lex, current, a + [r] + b) == TokensFrom(lex, current, a) + TokensFrom(lex, "", b)
    decreases |a|
  {
    var s := a + [r] + b;
    if a == [] {
      assert s[1..] == b;
    } else {
      assert s[1..] == a[1..] + [r] + b;
      if lex.isWord(a[0]) {
        SeparatorSplits(lex, current + a[0], a[1..], r, b);
      } else {
        SeparatorSplits(lex, "", a[1..], r, b);
        var (x, y, z) := (Emit(current), TokensFrom(lex, "", a[1..]), TokensFrom(lex, "", b));
        assert x + (y + z) == (x + y) + z;
      }
    }
  }

  /** Runes written one after the other. */
  function Glued(runes: seq<string>): string {
    if runes == [] then "" else runes[0] + Glued(runes[1..])
  }

  /** Word runes in a row are one token, when they make up at least two bytes. */
  lemma {:induction false} WordIsToken(lex: Lexer, current: string, runes: seq<string>)
    requires forall r | r in runes :: lex.isWord(r)
    ensures TokensFrom(lex, current, runes) ==
            if |current + Glued(runes)| >= 2 then [current + Glued(runes)] else []
    decreases |runes|
  {
    if runes != [] {
      WordIsToken(lex, current + runes[0], runes[1..]);
      assert current + runes[0] + Glued(runes[1..]) == current + Glued(runes);
    } else {
      assert current + "" == current;
    }
  }

  /** A text without separators is one token, its lowered runes, or none when that is shorter than two bytes. */
  lemma {:induction false} OneWordText(lex: Lexer, text: string)
    requires forall r | r in lex.runes(lex.lower(text)) :: lex.isWord(r)
    ensures var word := Glued(lex.runes(lex.lower(text))); Tokens(lex, text) == if |word| < 2 then [] else [word]
  {
    WordIsToken(lex, "", lex.runes(lex.lower(text)));
    var word := Glued(lex.runes(lex.lower(text)));
    assert "" + word == word;
  }

  // ----- The index as a function of the documents -----

  function Symbols(lex: Lexer, d: Doc): seq<string> {
    Mapped(lex.lower, lex.symbols(d.text))
  }

  function TermCount(lex: Lexer, d: Doc, t: string): nat {
    multiset(Tokens(lex, d.text))[t]
  }

  function SymbolCount(lex: Lexer, d: Doc, t: string): nat {
    multiset(Symbols(lex, d))[t]
  }

  /** A symbol counts three times. */
  function DocLength(lex: Lexer, d: Doc): int {
    |Tokens(lex, d.text)| + 3 * |Symbols(lex, d)|
  }

  /** At most one posting for the plain text and one for the symbols. */
  function DocPostings(lex: Lexer, d: Doc, t: string): seq<Posting> {
    (if TermCount(lex, d, t) > 0 then [Posting(d.id, TermCount(lex, d, t), 1.0)] else [])
    + (if SymbolCount(lex, d, t) > 0 then [Posting(d.id, 3 * SymbolCount(lex, d, t), 3.0)] else [])
  }

  function Postings(lex: Lexer, docs: seq<Doc>, t: string): seq<Posting> {
    if docs == [] then [] else Postings(lex, docs[..|docs| - 1], t) + DocPostings(lex, docs[|docs| - 1], t)
  }

  function StatsOf(lex: Lexer, docs: seq<Doc>): map<string, EventStats> {
    if docs == [] then map[]
    else
      var d := docs[|docs| - 1];
      StatsOf(lex, docs[..|docs| - 1])[d.id := EventStats(DocLength(lex, d), d.branchId)]
  }

  function CountIn(stats: map<string, EventStats>, id: string): nat {
    if id in stats then stats[id].tokenCount else 0
  }

  function CountsIn(stats: map<string, EventStats>): string -> int {
    id => CountIn(stats, id)
  }

  function TotalTokens(stats: map<string, EventStats>): int {
    SumOver(CountsIn(stats), stats.Keys)
  }

  function Listed(terms: map<string, seq<Posting>>, t: string): seq<Posting> {
    if t in terms then terms[t] else []
  }

  lemma {:induction false} SumOverAgrees(f: string -> int, g: string -> int, keys: set<string>)
    requires forall k | k in keys :: f(k) == g(k)
    ensures SumOver(f, keys) == SumOver(g, keys)
    decreases |keys|
  {
    if keys != {} {
      SumOverAgrees(f, g, keys - {LeastKey(keys)});
    }
  }

  function Frequency(s: seq<string>): string -> int {
    t => multiset(s)[t]
  }

  lemma {:induction false} NothingCounts(keys: set<string>)
    ensures SumOver(Frequency([]), keys) == 0
    decreases |keys|
  {
    if keys != {} {
      NothingCounts(keys - {LeastKey(keys)});
    }
  }

  /** The frequencies of a word list add up to its length. */
  lemma {:induction false} CountsAddUp(s: seq<string>, keys: set<string>)
    requires forall x | x in s :: x in keys
    ensures SumOver(Frequency(s), keys) == |s|
    decreases |s|
  {
    if s == [] {
      NothingCounts(keys);
    } else {
      var (init, x) := (s[..|s| - 1], s[|s| - 1]);
      assert s == init + [x];
      CountsAddUp(init, keys);
      SumOverPick(Frequency(s), keys, x);
      SumOverPick(Frequency(init), keys, x);
      SumOverAgrees(Frequency(s), Frequency(init), keys - {x});
    }
  }

  /** The frequency of every word that occurs. */
  ghost predicate IsCountOf(tf: map<string, nat>, words: seq<string>) {
    && (forall t :: t in tf <==> t in words)
    && (forall t | t in tf :: tf[t] == multiset(words)[t])
  }

  /** How much the postings of a document weigh under one term. */
  function PostingWeight(lex: Lexer, d: Doc): string -> int {
    t => SumBy((p: Posting) => p.termFreq, DocPostings(lex, d, t))
  }

  lemma {:induction false} WeightOfTerm(lex: Lexer, d: Doc, t: string)
    ensures PostingWeight(lex, d)(t)
            == Frequency(Tokens(lex, d.text))(t) + 3 * Frequency(Symbols(lex, d))(t)
  {
    hide Tokens, Symbols;
    var (f, tf, sf) := ((p: Posting) => p.termFreq, TermCount(lex, d, t), SymbolCount(lex, d, t));
    var (p, q) := (Posting(d.id, tf, 1.0), Posting(d.id, 3 * sf, 3.0));
    assert [p][..0] == [] && [q][..0] == [] && ([p] + [q])[..1] == [p];
    assert SumBy(f, []) == 0 && SumBy(f, [p]) == tf && SumBy(f, [q]) == 3 * sf && SumBy(f, [p] + [q]) == tf + 3 * sf;
  }

  lemma {:induction false} WeightsSplit(lex: Lexer, d: Doc, keys: set<string>)
    ensures SumOver(PostingWeight(lex, d), keys)
            == SumOver(Frequency(Tokens(lex, d.text)), keys) + 3 * SumOver(Frequency(Symbols(lex, d)), keys)
    decreases |keys|
  {
    hide PostingWeight, Frequency, Tokens, Symbols;
    if keys != {} {
      WeightOfTerm(lex, d, LeastKey(keys));
      WeightsSplit(lex, d, keys - {LeastKey(keys)});
    }
  }

  /** The length of a document is what its postings weigh together, over any terms that include its own:
      a token counts once and a symbol three times, in the length as in the postings. */
  lemma {:induction false} LengthIsPostings(lex: Lexer, d: Doc, keys: set<string>)
    requires forall t | t in Tokens(lex, d.text) || t in Symbols(lex, d) :: t in keys
    ensures SumOver(PostingWeight(lex, d), keys) == DocLength(lex, d)
    ensures DocLength(lex, d) == |Tokens(lex, d.text)| + |Symbols(lex, d)| + |Symbols(lex, d)| + |Symbols(lex, d)|
  {
    WeightsSplit(lex, d, keys);
    CountsAddUp(Tokens(lex, d.text), keys);
    CountsAddUp(Symbols(lex, d), keys);
    hide PostingWeight, Frequency, Tokens, Symbols;
  }

  method CountTerms(words: seq<string>) returns (tf: map<string, nat>)
    ensures IsCountOf(tf, words)
  {
    tf := map[];
    for i := 0 to |words|
      invariant forall t :: t in tf <==> t in words[..i]
      invariant forall t | t in tf :: tf[t] == multiset(words[..i])[t]
    {
      assert words[..i + 1] == words[..i] + [words[i]];
      var t := words[i];
      assert t !in words[..i] ==> multiset(words[..i])[t] == 0;
      tf := tf[t := (if t in tf then tf[t] else 0) + 1];
    }
    assert words[..|words|] == words;
  }

  // ----- Scores -----

  /** What the logarithm is applied to. */
  function IdfArgument(n: int, df: int): real
    requires df >= 0
  {
    (n as real - df as real + 0.5) / (df as real + 0.5) + 1.0
  }

  /** The logarithm is never asked for a value that has none, although a term can have more
      postings than there are documents. */
  lemma IdfArgumentPositive(n: nat, df: nat)
    ensures IdfArgument(n, df) == (n as real + 1.0) / (df as real + 0.5) > 0.0
  {
  }

  function Bm25(log: real -> real, tf: nat, df: nat, n: nat, dl: nat, avgdl: real): real
    requires avgdl > 0.0
  {
    var denominator := tf as real + K1 * (1.0 - B + B * (dl as real / avgdl));
    assert dl as real / avgdl >= 0.0;
    log(IdfArgument(n, df)) * (tf as real * (K1 + 1.0) / denominator)
  }

  lemma {:induction false} Products(x: real, y: real, z: real)
    ensures (x * y) * z == x * (y * z) && x * (y + z) == x * y + x * z && x * y == y * x
  {
  }

  lemma {:induction false} CancelFactor(a: real, d: real, m: real)
    requires d != 0.0
    ensures (a / d) * (m * d) == a * m
  {
    Products(a / d, d, m);
    assert (a / d) * d == a;
    Products(a / d, m, d);
    Products(m, d, 1.0);
  }

  /** The score of a term in a document, with k1 = 1.2 and b = 0.75, as one fraction. */
  lemma {:induction false} Bm25Fraction(log: real -> real, tf: nat, df: nat, n: nat, dl: nat, avgdl: real)
    requires avgdl > 0.0
    ensures var (t, l) := (tf as real, dl as real);
      Bm25(log, tf, df, n, dl, avgdl) * (10.0 * (t * avgdl) + 3.0 * avgdl + 9.0 * l)
      == 22.0 * (t * avgdl) * log((n as real + 1.0) / (df as real + 0.5))
  {
    var (t, l) := (tf as real, dl as real);
    IdfArgumentPositive(n, df);
    var idf := log(IdfArgument(n, df));
    var x := l / avgdl;
    assert x * avgdl == l && x >= 0.0;
    var d := t + 1.2 * (0.25 + 0.75 * x);
    assert d > 0.0;
    var m := 10.0 * avgdl;
    assert m * d == 10.0 * (t * avgdl) + 3.0 * avgdl + 9.0 * l by {
      DenominatorIs(t, x, avgdl);
    }
    var a := t * 2.2;
    assert Bm25(log, tf, df, n, dl, avgdl) == idf * (a / d);
    Products(idf, a / d, m * d);
    CancelFactor(a, d, m);
    assert Bm25(log, tf, df, n, dl, avgdl) * (m * d) == idf * (a * m);
    assert a * m == 22.0 * (t * avgdl);
    Products(idf, 22.0 * (t * avgdl), 1.0);
  }

  lemma {:induction false} DenominatorIs(t: real, x: real, avgdl: real)
    ensures 10.0 * avgdl * (t + 1.2 * (0.25 + 0.75 * x)) == 10.0 * (t * avgdl) + 3.0 * avgdl + 9.0 * (x * avgdl)
  {
    var (u, v) := (t * avgdl, x * avgdl);
    Products(10.0 * avgdl, t, 0.3 + 0.9 * x);
    assert 10.0 * avgdl * t == 10.0 * u;
    assert 10.0 * avgdl * (0.3 + 0.9 * x) == 3.0 * avgdl + 9.0 * v;
  }

  /** Two fractions with the same positive weight compare as their numerators do, weighed crosswise. */
  lemma {:induction false} FractionsCompare(s: real, p: real, a: real, q: real, t: real, b: real)
    requires p > 0.0 && q > 0.0 && s * p == a && t * q == b && a * q < b * p
    ensures s < t
  {
    var pq := p * q;
    assert pq > 0.0;
    Products(s, p, q);
    Products(t, q, p);
    assert s * pq == a * q && t * pq == b * p;
    FactorsCompare(s, t, pq);
  }

  lemma FactorsCompare(s: real, t: real, m: real)
    requires m > 0.0 && s * m < t * m
    ensures s < t
  {
  }

  /** With a positive logarithm a longer document scores less. */
  lemma {:induction false} Bm25FallsWithLength(log: real -> real, tf: nat, df: nat, n: nat, dl: nat, longer: nat,
                                               avgdl: real)
    requires avgdl > 0.0 && tf > 0 && dl < longer && log((n as real + 1.0) / (df as real + 0.5)) > 0.0
    ensures Bm25(log, tf, df, n, longer, avgdl) < Bm25(log, tf, df, n, dl, avgdl)
  {
    Bm25Fraction(log, tf, df, n, dl, avgdl);
    Bm25Fraction(log, tf, df, n, longer, avgdl);
    var u := tf as real * avgdl;
    assert u > 0.0;
    var c := log((n as real + 1.0) / (df as real + 0.5));
    var (p, q) := (10.0 * u + 3.0 * avgdl + 9.0 * longer as real, 10.0 * u + 3.0 * avgdl + 9.0 * dl as real);
    var a := 22.0 * u * c;
    assert a > 0.0 && q < p;
    assert a * q < a * p;
    hide Bm25;
    FractionsCompare(Bm25(log, tf, df, n, longer, avgdl), p, a, q, Bm25(log, tf, df, n, dl, avgdl), a);
  }

  /** With a positive logarithm a document with more occurrences scores more. */
  lemma {:induction false} Bm25RisesWithFrequency(log: real -> real, tf: nat, more: nat, df: nat, n: nat, dl: nat,
                                                  avgdl: real)
    requires avgdl > 0.0 && tf < more && log((n as real + 1.0) / (df as real + 0.5)) > 0.0
    ensures Bm25(log, tf, df, n, dl, avgdl) < Bm25(log, more, df, n, dl, avgdl)
  {
    var (u, v) := (tf as real * avgdl, more as real * avgdl);
    assert 0.0 <= u < v;
    var c := log((n as real + 1.0) / (df as real + 0.5));
    var w := 3.0 * avgdl + 9.0 * dl as real;
    hide Bm25;
    Bm25Weighed(log, tf, df, n, dl, avgdl, u, w, c);
    Bm25Weighed(log, more, df, n, dl, avgdl, v, w, c);
    var (p, q, a, b) := (10.0 * u + w, 10.0 * v + w, 22.0 * u * c, 22.0 * v * c);
    CrossProducts(u, v, w, c, p, q, a, b);
    FractionsCompare(Bm25(log, tf, df, n, dl, avgdl), p, a, q, Bm25(log, more, df, n, dl, avgdl), b);
  }

  lemma {:induction false} Bm25Weighed(log: real -> real, tf: nat, df: nat, n: nat, dl: nat, avgdl: real, u: real,
                                       w: real, c: real)
    requires avgdl > 0.0 && u == tf as real * avgdl && w == 3.0 * avgdl + 9.0 * dl as real
    requires c == log((n as real + 1.0) / (df as real + 0.5))
    ensures Bm25(log, tf, df, n, dl, avgdl) * (10.0 * u + w) == 22.0 * u * c
  {
    Bm25Fraction(log, tf, df, n, dl, avgdl);
    hide Bm25;
    assert 10.0 * u + w == 10.0 * (tf as real * avgdl) + 3.0 * avgdl + 9.0 * dl as real;
  }

  lemma {:induction false} CrossProducts(u: real, v: real, w: real, c: real, p: real, q: real, a: real, b: real)
    requires 0.0 <= u < v && w > 0.0 && c > 0.0
    requires p == 10.0 * u + w && q == 10.0 * v + w && a == 22.0 * u * c && b == 22.0 * v * c
    ensures a * q < b * p
  {
    var uv := u * v;
    assert a * q == c * (220.0 * uv + 22.0 * (u * w));
    assert b * p == c * (220.0 * uv + 22.0 * (v * w));
    assert u * w < v * w;
    assert c * (220.0 * uv + 22.0 * (u * w)) < c * (220.0 * uv + 22.0 * (v * w));
  }

  /** However often a term occurs, it scores less than 2.2 times its logarithm. */
  lemma {:induction false} Bm25Saturates(log: real -> real, tf: nat, df: nat, n: nat, dl: nat, avgdl: real)
    requires avgdl > 0.0 && log((n as real + 1.0) / (df as real + 0.5)) > 0.0
    ensures Bm25(log, tf, df, n, dl, avgdl) < 2.2 * log((n as real + 1.0) / (df as real + 0.5))
  {
    Bm25Fraction(log, tf, df, n, dl, avgdl);
    var u := tf as real * avgdl;
    assert u >= 0.0;
    var c := log((n as real + 1.0) / (df as real + 0.5));
    var p := 10.0 * u + 3.0 * avgdl + 9.0 * dl as real;
    hide Bm25;
    assert 22.0 * u < 2.2 * p;
    assert 22.0 * u * c < 2.2 * p * c;
    assert 2.2 * p * c == 2.2 * c * p;
    FractionsCompare(Bm25(log, tf, df, n, dl, avgdl), p, 22.0 * u * c, 1.0, 2.2 * c, 2.2 * c);
  }

  /** Everything Search reads: postings, per-event statistics and the two totals. */
  datatype View = View(terms: map<string, seq<Posting>>, stats: map<string, EventStats>, n: nat, avgdl: real)

  function PostingScore(log: real -> real, v: View, t: string, p: Posting): real
    requires v.avgdl > 0.0
  {
    Bm25(log, p.termFreq, |Listed(v.terms, t)|, v.n, CountIn(v.stats, p.eventId), v.avgdl)
  }

  /** The part of a term's score that goes to one event. */
  function IdScore(f: Posting -> real, ps: seq<Posting>, id: string): real {
    if ps == [] then 0.0
    else
      var last := ps[|ps| - 1];
      IdScore(f, ps[..|ps| - 1], id) + (if last.eventId == id then f(last) else 0.0)
  }

  predicate Hit(ps: seq<Posting>, id: string) {
    exists p | p in ps :: p.eventId == id
  }

  function Scorer(log: real -> real, v: View, t: string): Posting -> real
    requires v.avgdl > 0.0
  {
    p => PostingScore(log, v, t, p)
  }

  function QueryScore(log: real -> real, v: View, q: seq<string>, id: string): real
    requires v.avgdl > 0.0
  {
    if q == [] then 0.0
    else
      var t := q[|q| - 1];
      QueryScore(log, v, q[..|q| - 1], id) + IdScore(Scorer(log, v, t), Listed(v.terms, t), id)
  }

  predicate QueryHit(v: View, q: seq<string>, id: string) {
    exists t | t in q :: Hit(Listed(v.terms, t), id)
  }

  /** An empty branch id does not filter. */
  predicate Passes(v: View, branchId: string, id: string) {
    branchId == "" || (id in v.stats && v.stats[id].branchId == branchId)
  }

  /** `scores` holds the score of every event hit so far: by the terms of `q`, and by the postings
      `ps` of one more term, which `f` scores. */
  ghost predicate IsScored(log: real -> real, v: View, branchId: string, q: seq<string>, f: Posting -> real,
                           ps: seq<Posting>, scores: map<string, real>)
    requires v.avgdl > 0.0
  {
    && (forall id :: id in scores <==> Passes(v, branchId, id) && (QueryHit(v, q, id) || Hit(ps, id)))
    && (forall id | id in scores :: scores[id] == QueryScore(log, v, q, id) + IdScore(f, ps, id))
  }

  lemma {:induction false} NoHitNoScore(f: Posting -> real, ps: seq<Posting>, id: string)
    requires !Hit(ps, id)
    ensures IdScore(f, ps, id) == 0.0
  {
    if ps != [] {
      var (init, last) := (ps[..|ps| - 1], ps[|ps| - 1]);
      assert ps == init + [last];
      assert last in ps;
      NoHitNoScore(f, init, id);
    }
  }

  lemma {:induction false} NoQueryHitNoScore(log: real -> real, v: View, q: seq<string>, id: string)
    requires v.avgdl > 0.0 && !QueryHit(v, q, id)
    ensures QueryScore(log, v, q, id) == 0.0
  {
    if q != [] {
      assert q == q[..|q| - 1] + [q[|q| - 1]];
      assert q[|q| - 1] in q;
      NoQueryHitNoScore(log, v, q[..|q| - 1], id);
      NoHitNoScore(Scorer(log, v, q[|q| - 1]), Listed(v.terms, q[|q| - 1]), id);
    }
  }

  /** One more posting that the branch filter lets through. */
  lemma {:induction false} ScoreOne(log: real -> real, v: View, branchId: string, q: seq<string>, f: Posting -> real,
                                    ps: seq<Posting>, scores: map<string, real>, p: Posting)
    requires v.avgdl > 0.0 && IsScored(log, v, branchId, q, f, ps, scores)
    ensures IsScored(log, v, branchId, q, f, ps + [p],
              if Passes(v, branchId, p.eventId)
              then scores[p.eventId := (if p.eventId in scores then scores[p.eventId] else 0.0) + f(p)] else scores)
  {
    hide QueryScore, QueryHit, Passes;
    var id := p.eventId;
    assert (ps + [p])[..|ps|] == ps;
    HitSnoc(ps, p);
    hide Hit;
    if id !in scores && Passes(v, branchId, id) {
      NoHitNoScore(f, ps, id);
      NoQueryHitNoScore(log, v, q, id);
    }
  }

  lemma {:induction false} HitSnoc(ps: seq<Posting>, p: Posting)
    ensures forall id :: Hit(ps + [p], id) <==> Hit(ps, id) || p.eventId == id
  {
    assert p in ps + [p];
    forall id
      ensures Hit(ps + [p], id) <==> Hit(ps, id) || p.eventId == id
    {
      if Hit(ps, id) {
        var x :| x in ps && x.eventId == id;
        assert x in ps + [p];
      }
    }
  }

  /** The postings of a term have all been scored. */
  lemma {:induction false} TermDone(log: real -> real, v: View, branchId: string, q: seq<string>, t: string,
                                    scores: map<string, real>)
    requires v.avgdl > 0.0
    requires IsScored(log, v, branchId, q, Scorer(log, v, t), Listed(v.terms, t), scores)
    ensures forall g: Posting -> real :: IsScored(log, v, branchId, q + [t], g, [], scores)
  {
    hide Hit, Passes;
    assert (q + [t])[..|q|] == q;
    QueryHitSnoc(v, q, t);
    hide QueryHit;
    assert forall id :: !Hit([], id) by {
      forall id
        ensures !Hit([], id)
      {
        NothingHit(id);
      }
    }
  }

  lemma NothingHit(id: string)
    ensures !Hit([], id)
  {
  }

  lemma {:induction false} QueryHitSnoc(v: View, q: seq<string>, t: string)
    ensures forall id :: QueryHit(v, q + [t], id) <==> QueryHit(v, q, id) || Hit(Listed(v.terms, t), id)
  {
    hide Hit, Listed;
    assert t in q + [t];
    forall id
      ensures QueryHit(v, q + [t], id) <==> QueryHit(v, q, id) || Hit(Listed(v.terms, t), id)
    {
      if QueryHit(v, q, id) {
        var u :| u in q && Hit(Listed(v.terms, u), id);
        assert u in q + [t];
      }
    }
  }

  function HigherFirst(): (Result, Result) -> bool {
    (x: Result, y: Result) => x.score > y.score
  }

  /** All entries of the score map, best first; ties in any order. */
  ghost predicate IsRanking(scores: map<string, real>, ranked: seq<Result>) {
    && Distinct(ranked) && Ordered(HigherFirst(), ranked)
    && forall r :: r in ranked <==> r.eventId in scores && scores[r.eventId] == r.score
  }

  function Limited(ranked: seq<Result>, limit: nat): (r: seq<Result>)
    ensures r <= ranked && (|r| == limit || (|r| < limit && r == ranked))
  {
    if |ranked| > limit then ranked[..limit] else ranked
  }

  method ScoreTerm(log: real -> real, v: View, branchId: string, ghost q: seq<string>, t: string,
                   before: map<string, real>)
    returns (scores: map<string, real>)
    requires v.avgdl > 0.0
    requires forall g: Posting -> real :: IsScored(log, v, branchId, q, g, [], before)
    ensures forall g: Posting -> real :: IsScored(log, v, branchId, q + [t], g, [], scores)
  {
    hide IsScored, PostingScore, Passes, Listed;
    var postings := Listed(v.terms, t);
    scores := before;
    ghost var f := Scorer(log, v, t);
    assert postings[..0] == [];
    for i := 0 to |postings|
      invariant IsScored(log, v, branchId, q, f, postings[..i], scores)
    {
      var p := postings[i];
      ScoreOne(log, v, branchId, q, f, postings[..i], scores, p);
      assert postings[..i + 1] == postings[..i] + [p];
      if Passes(v, branchId, p.eventId) {
        var s := PostingScore(log, v, t, p);
        scores := scores[p.eventId := (if p.eventId in scores then scores[p.eventId] else 0.0) + s];
      }
    }
    assert postings[..|postings|] == postings;
    TermDone(log, v, branchId, q, t, scores);
  }

  method Rank(scores: map<string, real>) returns (ranked: seq<Result>)
    ensures IsRanking(scores, ranked)
  {
    var results: seq<Result> := [];
    var rest := scores.Keys;
    while rest != {}
      invariant rest <= scores.Keys && Distinct(results)
      invariant forall r :: r in results <==> r.eventId in scores && r.eventId !in rest && scores[r.eventId] == r.score
      decreases |rest|
    {
      var id :| id in rest;
      rest := rest - {id};
      results := results + [Result(id, scores[id])];
    }
    assert StrictOrder(HigherFirst());
    ranked := SortSlice(HigherFirst(), results);
    PermutedDistinct(results, ranked);
  }

  // ----- The naive scan -----

  ghost predicate DistinctIds(docs: seq<Doc>) {
    forall i, j | 0 <= i < j < |docs| :: docs[i].id != docs[j].id
  }

  /** Documents without a token are not indexed. */
  predicate AllTokenized(lex: Lexer, docs: seq<Doc>) {
    forall d | d in docs :: Tokens(lex, d.text) != []
  }

  function LengthOf(lex: Lexer): Doc -> int {
    d => DocLength(lex, d)
  }

  function PostingCount(lex: Lexer, t: string): Doc -> int {
    d => |DocPostings(lex, d, t)|
  }

  lemma {:induction false} SumAtLeast(f: Doc -> int, docs: seq<Doc>)
    requires forall d | d in docs :: f(d) >= 1
    ensures SumBy(f, docs) >= |docs|
  {
    if docs != [] {
      SumAtLeast(f, docs[..|docs| - 1]);
      assert docs[|docs| - 1] in docs;
    }
  }

  function AverageLength(lex: Lexer, docs: seq<Doc>): (r: real)
    requires docs != [] && AllTokenized(lex, docs)
    ensures r > 0.0
  {
    SumAtLeast(LengthOf(lex), docs);
    SumBy(LengthOf(lex), docs) as real / |docs| as real
  }

  lemma {:induction false} CountIsNatural(lex: Lexer, docs: seq<Doc>, t: string)
    ensures SumBy(PostingCount(lex, t), docs) >= 0
  {
    if docs != [] {
      CountIsNatural(lex, docs[..|docs| - 1], t);
    }
  }

  /** One query term against one document, recomputed from the raw documents. */
  function NaiveTerm(log: real -> real, lex: Lexer, docs: seq<Doc>, t: string, d: Doc): real
    requires docs != [] && AllTokenized(lex, docs)
  {
    CountIsNatural(lex, docs, t);
    var (df, n, dl, avg) := (SumBy(PostingCount(lex, t), docs), |docs|, DocLength(lex, d), AverageLength(lex, docs));
    var (tf, sf) := (TermCount(lex, d, t), SymbolCount(lex, d, t));
    (if tf > 0 then Bm25(log, tf, df, n, dl, avg) else 0.0) + (if sf > 0 then Bm25(log, 3 * sf, df, n, dl, avg)
                                                               else 0.0)
  }

  function NaiveScore(log: real -> real, lex: Lexer, docs: seq<Doc>, q: seq<string>, d: Doc): real
    requires docs != [] && AllTokenized(lex, docs)
  {
    if q == [] then 0.0 else NaiveScore(log, lex, docs, q[..|q| - 1], d) + NaiveTerm(log, lex, docs, q[|q| - 1], d)
  }

  /** The document contains a query term, as a word or as a symbol. */
  predicate DocMatches(lex: Lexer, q: seq<string>, d: Doc) {
    exists t | t in q :: TermCount(lex, d, t) > 0 || SymbolCount(lex, d, t) > 0
  }

  ghost predicate IsNaiveHit(log: real -> real, lex: Lexer, docs: seq<Doc>, branchId: string, q: seq<string>, d: Doc,
                             r: Result)
    requires docs != [] && AllTokenized(lex, docs)
  {
    && d in docs && d.id == r.eventId && (branchId == "" || d.branchId == branchId)
    && DocMatches(lex, q, d) && r.score == NaiveScore(log, lex, docs, q, d)
  }

  /** The index agrees with the documents. */
  ghost predicate Represents(lex: Lexer, docs: seq<Doc>, v: View) {
    && AllTokenized(lex, docs)
    && (forall t :: Listed(v.terms, t) == Postings(lex, docs, t))
    && v.stats == StatsOf(lex, docs)
    && v.n == |docs|
    && v.avgdl == if docs == [] then 0.0 else TotalTokens(v.stats) as real / |docs| as real
  }

  lemma {:induction false} PostingsLength(lex: Lexer, docs: seq<Doc>, t: string)
    ensures |Postings(lex, docs, t)| == SumBy(PostingCount(lex, t), docs)
  {
    if docs != [] {
      PostingsLength(lex, docs[..|docs| - 1], t);
    }
  }

  lemma {:induction false} IdScoreConcat(f: Posting -> real, a: seq<Posting>, b: seq<Posting>, id: string)
    ensures IdScore(f, a + b, id) == IdScore(f, a, id) + IdScore(f, b, id)
  {
    if b == [] {
      assert a + b == a;
    } else {
      IdScoreConcat(f, a, b[..|b| - 1], id);
      assert (a + b)[..|a + b| - 1] == a + b[..|b| - 1];
    }
  }

  lemma DocPostingsIds(lex: Lexer, d: Doc, t: string)
    ensures forall p | p in DocPostings(lex, d, t) :: p.eventId == d.id
  {
  }

  lemma {:induction false} IdScoreSnoc(lex: Lexer, f: Posting -> real, docs: seq<Doc>, last: Doc, t: string, id: string)
    ensures IdScore(f, Postings(lex, docs + [last], t), id)
         == IdScore(f, Postings(lex, docs, t), id) + (if last.id == id then IdScore(f, DocPostings(lex, last, t), id)
                                                      else 0.0)
  {
    assert (docs + [last])[..|docs|] == docs;
    DocPostingsIds(lex, last, t);
    hide DocPostings;
    IdScoreConcat(f, Postings(lex, docs, t), DocPostings(lex, last, t), id);
    if last.id != id {
      NoHitNoScore(f, DocPostings(lex, last, t), id);
    }
  }

  lemma {:induction false} NoDocNoScore(lex: Lexer, f: Posting -> real, docs: seq<Doc>, t: string, id: string)
    requires forall e | e in docs :: e.id != id
    ensures IdScore(f, Postings(lex, docs, t), id) == 0.0
  {
    if docs != [] {
      var (init, last) := (docs[..|docs| - 1], docs[|docs| - 1]);
      assert docs == init + [last];
      hide Postings, DocPostings, IdScore;
      NoDocNoScore(lex, f, init, t, id);
      IdScoreSnoc(lex, f, init, last, t, id);
    }
  }

  /** With distinct ids an event is scored by its own document alone. */
  lemma {:induction false} IdScoreOfDoc(lex: Lexer, f: Posting -> real, docs: seq<Doc>, t: string, d: Doc)
    requires DistinctIds(docs) && d in docs
    ensures IdScore(f, Postings(lex, docs, t), d.id) == IdScore(f, DocPostings(lex, d, t), d.id)
  {
    hide Postings, DocPostings, IdScore;
    var (init, last) := (docs[..|docs| - 1], docs[|docs| - 1]);
    assert docs == init + [last];
    IdScoreSnoc(lex, f, init, last, t, d.id);
    if last == d {
      NoDocNoScore(lex, f, init, t, d.id);
    } else {
      IdScoreOfDoc(lex, f, init, t, d);
    }
  }

  lemma {:induction false} IdScoreOfTwo(log: real -> real, v: View, lex: Lexer, t: string, d: Doc)
    requires v.avgdl > 0.0
    ensures IdScore(Scorer(log, v, t), DocPostings(lex, d, t), d.id) ==
      (if TermCount(lex, d, t) > 0 then PostingScore(log, v, t, Posting(d.id, TermCount(lex, d, t), 1.0)) else 0.0)
      + (if SymbolCount(lex, d, t) > 0 then PostingScore(log, v, t, Posting(d.id, 3 * SymbolCount(lex, d, t), 3.0))
         else 0.0)
  {
    hide PostingScore, TermCount, SymbolCount;
    var f := Scorer(log, v, t);
    var (p, s) := (Posting(d.id, TermCount(lex, d, t), 1.0), Posting(d.id, 3 * SymbolCount(lex, d, t), 3.0));
    IdScoreSingle(f, p);
    IdScoreSingle(f, s);
    IdScoreConcat(f, [p], [s], d.id);
    assert [] + [s] == [s] && [p] + [] == [p];
  }

  lemma {:induction false} IdScoreSingle(f: Posting -> real, p: Posting)
    ensures IdScore(f, [p], p.eventId) == f(p)
  {
    assert [p][..0] == [];
  }

  lemma {:induction false} StatsOfDoc(lex: Lexer, docs: seq<Doc>, d: Doc)
    requires DistinctIds(docs)
    ensures forall id :: id in StatsOf(lex, docs) <==> exists e | e in docs :: e.id == id
    ensures d in docs ==>
      d.id in StatsOf(lex, docs) && StatsOf(lex, docs)[d.id] == EventStats(DocLength(lex, d), d.branchId)
  {
    hide DocLength;
    if docs != [] {
      var (init, last) := (docs[..|docs| - 1], docs[|docs| - 1]);
      assert docs == init + [last];
      StatsOfDoc(lex, init, d);
      assert last in docs;
    }
  }

  lemma {:induction false} TotalOfDocs(lex: Lexer, docs: seq<Doc>)
    requires DistinctIds(docs)
    ensures TotalTokens(StatsOf(lex, docs)) == SumBy(LengthOf(lex), docs)
  {
    if docs != [] {
      var (init, last) := (docs[..|docs| - 1], docs[|docs| - 1]);
      var (before, after) := (StatsOf(lex, init), StatsOf(lex, docs));
      TotalOfDocs(lex, init);
      StatsOfDoc(lex, init, last);
      assert last.id !in before;
      hide DocLength;
      SumOverPick(CountsIn(after), after.Keys, last.id);
      assert after.Keys - {last.id} == before.Keys;
      SumOverAgrees(CountsIn(after), CountsIn(before), before.Keys);
    }
  }

  lemma {:induction false} AverageAgrees(lex: Lexer, docs: seq<Doc>, v: View)
    requires Represents(lex, docs, v) && DistinctIds(docs) && docs != []
    ensures v.avgdl == AverageLength(lex, docs)
  {
    TotalOfDocs(lex, docs);
  }

  ghost predicate IsIndexed(lex: Lexer, docs: seq<Doc>, v: View, d: Doc) {
    Represents(lex, docs, v) && DistinctIds(docs) && d in docs && v.avgdl > 0.0
  }

  lemma {:induction false} PostingScoreIsNaive(log: real -> real, lex: Lexer, docs: seq<Doc>, v: View, t: string,
                                               d: Doc, p: Posting)
    requires IsIndexed(lex, docs, v, d) && p.eventId == d.id
    ensures SumBy(PostingCount(lex, t), docs) >= 0
    ensures PostingScore(log, v, t, p)
         == Bm25(log, p.termFreq, SumBy(PostingCount(lex, t), docs), |docs|, DocLength(lex, d),
                 AverageLength(lex, docs))
  {
    PostingsLength(lex, docs, t);
    StatsOfDoc(lex, docs, d);
    AverageAgrees(lex, docs, v);
    CountIsNatural(lex, docs, t);
    assert Listed(v.terms, t) == Postings(lex, docs, t);
    hide Bm25, DocLength, AverageLength, Postings, StatsOf, TotalTokens, Listed, Represents, SumBy;
  }

  /** A document's two possible postings, scored as the naive scan scores them. */
  lemma {:induction false} TwoPostingsNaive(log: real -> real, lex: Lexer, docs: seq<Doc>, v: View, t: string, d: Doc)
    requires IsIndexed(lex, docs, v, d)
    ensures IdScore(Scorer(log, v, t), DocPostings(lex, d, t), d.id) == NaiveTerm(log, lex, docs, t, d)
  {
    hide Represents, DistinctIds, Listed, Bm25, PostingScore, TermCount, SymbolCount, DocLength, AverageLength,
    IdScore, DocPostings, SumBy;
    IdScoreOfTwo(log, v, lex, t, d);
    PostingScoreIsNaive(log, lex, docs, v, t, d, Posting(d.id, TermCount(lex, d, t), 1.0));
    PostingScoreIsNaive(log, lex, docs, v, t, d, Posting(d.id, 3 * SymbolCount(lex, d, t), 3.0));
  }

  lemma {:induction false} TermScoreIsNaive(log: real -> real, lex: Lexer, docs: seq<Doc>, v: View, t: string, d: Doc)
    requires IsIndexed(lex, docs, v, d)
    ensures IdScore(Scorer(log, v, t), Listed(v.terms, t), d.id) == NaiveTerm(log, lex, docs, t, d)
  {
    assert Listed(v.terms, t) == Postings(lex, docs, t);
    TwoPostingsNaive(log, lex, docs, v, t, d);
    hide Represents, Listed, NaiveTerm, IdScore, Postings, DocPostings, Scorer;
    IdScoreOfDoc(lex, Scorer(log, v, t), docs, t, d);
  }

  /** The score that Search gives an event is the one a scan of the raw documents computes. */
  lemma {:induction false} ScoreIsNaive(log: real -> real, lex: Lexer, docs: seq<Doc>, v: View, q: seq<string>, d: Doc)
    requires IsIndexed(lex, docs, v, d)
    ensures QueryScore(log, v, q, d.id) == NaiveScore(log, lex, docs, q, d)
  {
    hide Represents, DistinctIds, NaiveTerm, IdScore;
    if q != [] {
      ScoreIsNaive(log, lex, docs, v, q[..|q| - 1], d);
      TermScoreIsNaive(log, lex, docs, v, q[|q| - 1], d);
    }
  }

  lemma {:induction false} HitIsDoc(lex: Lexer, docs: seq<Doc>, t: string, id: string)
    ensures Hit(Postings(lex, docs, t), id) <==>
            exists d | d in docs :: d.id == id && (TermCount(lex, d, t) > 0 || SymbolCount(lex, d, t) > 0)
  {
    hide TermCount, SymbolCount;
    if docs != [] {
      var (init, last) := (docs[..|docs| - 1], docs[|docs| - 1]);
      assert docs == init + [last];
      HitIsDoc(lex, init, t, id);
      HitConcat(Postings(lex, init, t), DocPostings(lex, last, t), id);
      DocHit(lex, last, t, id);
      hide Hit, DocPostings;
      assert forall d :: d in docs <==> d in init || d == last;
    }
  }

  lemma {:induction false} HitConcat(a: seq<Posting>, b: seq<Posting>, id: string)
    ensures Hit(a + b, id) <==> Hit(a, id) || Hit(b, id)
  {
    if Hit(a, id) {
      var p :| p in a && p.eventId == id;
      assert p in a + b;
    }
    if Hit(b, id) {
      var p :| p in b && p.eventId == id;
      assert p in a + b;
    }
  }

  lemma {:induction false} DocHit(lex: Lexer, d: Doc, t: string, id: string)
    ensures Hit(DocPostings(lex, d, t), id) <==> d.id == id && (TermCount(lex, d, t) > 0 || SymbolCount(lex, d, t) > 0)
  {
    hide TermCount, SymbolCount;
    var ps := DocPostings(lex, d, t);
    if ps != [] {
      assert ps[0] in ps;
    }
  }

  lemma {:induction false} QueryHitIsDoc(lex: Lexer, docs: seq<Doc>, v: View, q: seq<string>, id: string)
    requires Represents(lex, docs, v)
    ensures QueryHit(v, q, id) <==> exists d | d in docs :: d.id == id && DocMatches(lex, q, d)
  {
    forall t
      ensures Hit(Listed(v.terms, t), id) <==>
              exists d | d in docs :: d.id == id && (TermCount(lex, d, t) > 0 || SymbolCount(lex, d, t) > 0)
    {
      HitIsDoc(lex, docs, t, id);
    }
    hide Represents, Hit, Listed, TermCount, SymbolCount;
  }

  /** The ranking of the index is the ranking of the naive scan. */
  lemma {:induction false} RankingIsNaive(log: real -> real, lex: Lexer, docs: seq<Doc>, v: View, branchId: string,
                                          q: seq<string>, scores: map<string, real>, ranked: seq<Result>)
    requires Represents(lex, docs, v) && DistinctIds(docs) && docs != [] && v.avgdl > 0.0
    requires forall g: Posting -> real :: IsScored(log, v, branchId, q, g, [], scores)
    requires IsRanking(scores, ranked)
    ensures forall r :: r in ranked <==> exists d :: IsNaiveHit(log, lex, docs, branchId, q, d, r)
  {
    var g: Posting -> real := p => 0.0;
    assert IsScored(log, v, branchId, q, g, [], scores);
    forall id
      ensures !Hit([], id)
    {
      NothingHit(id);
    }
    forall r
      ensures r in ranked <==> exists d :: IsNaiveHit(log, lex, docs, branchId, q, d, r)
    {
      RankedIffNaive(log, lex, docs, v, branchId, q, scores, r);
    }
  }

  lemma {:induction false} RankedIffNaive(log: real -> real, lex: Lexer, docs: seq<Doc>, v: View, branchId: string,
                                          q: seq<string>, scores: map<string, real>, r: Result)
    requires Represents(lex, docs, v) && DistinctIds(docs) && docs != [] && v.avgdl > 0.0
    requires forall id :: id in scores <==> Passes(v, branchId, id) && QueryHit(v, q, id)
    requires forall id | id in scores :: scores[id] == QueryScore(log, v, q, id)
    ensures r.eventId in scores && scores[r.eventId] == r.score
            <==> exists d :: IsNaiveHit(log, lex, docs, branchId, q, d, r)
  {
    QueryHitIsDoc(lex, docs, v, q, r.eventId);
    hide QueryHit, QueryScore, NaiveScore, DocMatches, DocLength;
    if r.eventId in scores && scores[r.eventId] == r.score {
      var d :| d in docs && d.id == r.eventId && DocMatches(lex, q, d);
      StatsOfDoc(lex, docs, d);
      ScoreIsNaive(log, lex, docs, v, q, d);
      assert IsNaiveHit(log, lex, docs, branchId, q, d, r);
    }
    if d :| IsNaiveHit(log, lex, docs, branchId, q, d, r) {
      StatsOfDoc(lex, docs, d);
      ScoreIsNaive(log, lex, docs, v, q, d);
    }
  }

  /** Naive scores depend on the documents, not on the order in which they were added. */
  lemma {:induction false} NaiveOrderIrrelevant(log: real -> real, lex: Lexer, a: seq<Doc>, b: seq<Doc>,
                                                q: seq<string>, d: Doc)
    requires multiset(a) == multiset(b) && a != [] && AllTokenized(lex, a)
    ensures b != [] && AllTokenized(lex, b)
    ensures NaiveScore(log, lex, a, q, d) == NaiveScore(log, lex, b, q, d)
  {
    SameMembers(a, b);
    hide Bm25, TermCount, SymbolCount, DocLength;
    if q != [] {
      NaiveOrderIrrelevant(log, lex, a, b, q[..|q| - 1], d);
      SumPermuted(PostingCount(lex, q[|q| - 1]), a, b);
      SumPermuted(LengthOf(lex), a, b);
    }
  }

  // ----- The index object -----

  predicate IsString(meta: Meta, key: string) {
    key in meta && meta[key].Str? && meta[key].s != ""
  }

  function JoinSpaced(parts: seq<string>): string {
    if parts == [] then ""
    else if |parts| == 1 then parts[0]
    else JoinSpaced(parts[..|parts| - 1]) + " " + parts[|parts| - 1]
  }

  /** Strings are joined with one blank between them. */
  lemma {:induction false} JoinedParts(a: seq<string>, b: seq<string>)
    requires a != [] && b != []
    ensures JoinSpaced(a + b) == JoinSpaced(a) + " " + JoinSpaced(b)
    decreases |b|
  {
    var (init, last) := (b[..|b| - 1], b[|b| - 1]);
    assert (a + b)[..|a + b| - 1] == a + init;
    if |b| == 1 {
      assert a + init == a;
    } else {
      JoinedParts(a, init);
      assert JoinSpaced(a) + " " + JoinSpaced(init) + " " + last
             == JoinSpaced(a) + " " + (JoinSpaced(init) + " " + last);
    }
  }

  lemma JoinedFew(part: string)
    ensures JoinSpaced([]) == "" && JoinSpaced([part]) == part
  {
  }

  /** The text of an event; without "text" and "summary" all its strings, in any order. */
  ghost predicate IsEventText(meta: Meta, text: string) {
    if IsString(meta, "text") then text == meta["text"].s
    else if IsString(meta, "summary") then text == meta["summary"].s
    else exists keys: seq<string> ::
      && Distinct(keys) && (forall k :: k in keys <==> IsString(meta, k) && k != "schema_version")
      && text == JoinSpaced(Mapped(k => ReadMetaString(meta, k), keys))
  }

  method EventText(meta: Meta) returns (text: string)
    ensures IsEventText(meta, text)
    ensures "text" in meta && meta["text"].Str? && meta["text"].s != "" ==> text == meta["text"].s
    ensures "text" !in meta && "summary" in meta && meta["summary"].Str? && meta["summary"].s != "" ==>
              text == meta["summary"].s
  {
    if IsString(meta, "text") {
      return meta["text"].s;
    }
    if IsString(meta, "summary") {
      return meta["summary"].s;
    }
    ghost var keys: seq<string> := [];
    ghost var read := k => ReadMetaString(meta, k);
    var parts: seq<string> := [];
    var rest := meta.Keys;
    while rest != {}
      invariant rest <= meta.Keys && Distinct(keys)
      invariant forall k :: k in keys <==> IsString(meta, k) && k != "schema_version" && k !in rest
      invariant parts == Mapped(read, keys)
      decreases |rest|
    {
      var k :| k in rest;
      rest := rest - {k};
      if IsString(meta, k) && k != "schema_version" {
        assert (keys + [k])[..|keys|] == keys;
        keys := keys + [k];
        parts := parts + [meta[k].s];
      }
    }
    text := JoinSpaced(parts);
  }

  class Index {
    const lex: Lexer
    var terms: map<string, seq<Posting>>
    var eventStats: map<string, EventStats>
    var docCount: nat
    var avgDocLen: real
    ghost var docs: seq<Doc>   // what was indexed, in order

    function Current(): View
      reads this
    {
      View(terms, eventStats, docCount, avgDocLen)
    }

    ghost predicate Valid()
      reads this
    {
      Represents(lex, docs, Current())
    }

    constructor (lex: Lexer)
      ensures Valid() && this.lex == lex && docs == []
    {
      this.lex := lex;
      terms, eventStats, docCount, avgDocLen, docs := map[], map[], 0, 0.0, [];
    }

    /** Indexes an event; one whose text has no token leaves the index as it is. */
    method Add(ev: Event) returns (ghost d: Doc)
      requires Valid()
      modifies this
      ensures Valid()
      ensures (d.id, d.branchId) == (ev.id, ev.branchId) && IsEventText(ev.meta, d.text)
      ensures docs == if d.text == "" || Tokens(lex, d.text) == [] then old(docs) else old(docs) + [d]
    {
      hide Tokens, IsEventText, Postings, StatsOf, Listed, TotalTokens;
      var text := EventText(ev.meta);
      var doc := Doc(ev.id, ev.branchId, text);
      d := doc;
      if text == "" {
        return;
      }
      var tokens := Tokenize(lex, text);
      if tokens == [] {
        return;
      }
      var both, stats := Inserted(lex, doc, tokens, Current(), docs);
      terms, eventStats := both, stats;
      docCount := docCount + 1;
      docs := docs + [doc];
      RecomputeAvgDocLen();
    }

    method RecomputeAvgDocLen()
      modifies this`avgDocLen
      ensures avgDocLen == if docCount == 0 then 0.0 else TotalTokens(eventStats) as real / docCount as real
    {
      if docCount == 0 {
        avgDocLen := 0.0;
        return;
      }
      var total := 0;
      var rest := eventStats.Keys;
      while rest != {}
        invariant rest <= eventStats.Keys
        invariant total + SumOver(CountsIn(eventStats), rest) == TotalTokens(eventStats)
        decreases |rest|
      {
        var id :| id in rest;
        SumOverPick(CountsIn(eventStats), rest, id);
        rest := rest - {id};
        total := total + eventStats[id].tokenCount;
      }
      avgDocLen := total as real / docCount as real;
    }

    /** A ranking of the whole index: best first, nothing twice, and with distinct ids exactly what
        the naive scan finds. */
    ghost predicate IsFullRanking(log: real -> real, query: string, branchId: string, ranked: seq<Result>)
      reads this
      requires Valid()
    {
      && (forall i, j | 0 <= i < j < |ranked| :: ranked[i].score >= ranked[j].score) && Distinct(ranked)
      && (Tokens(lex, query) == [] || docs == [] ==> ranked == [])
      && (docs != [] && Tokens(lex, query) != [] && DistinctIds(docs) ==>
            forall r :: r in ranked <==> exists d :: IsNaiveHit(log, lex, docs, branchId, Tokens(lex, query), d, r))
    }

    /** The result is a full ranking, cut at the limit. */
    method Search(log: real -> real, query: string, branchId: string, limit: int) returns (results: seq<Result>)
      requires Valid()
      ensures exists ranked ::
        && IsFullRanking(log, query, branchId, ranked)
        && results == (if limit > 0 then Limited(ranked, limit) else Limited(ranked, 20))
    {
      hide Tokens, Represents, IsScored, IsNaiveHit, DistinctIds, Postings;
      var queryTerms := Tokenize(lex, query);
      if queryTerms == [] {
        assert IsFullRanking(log, query, branchId, []);
        return [];
      }
      var v := Current();
      PositiveAverage(lex, docs, v);
      var scores: map<string, real> := map[];
      if v.avgdl > 0.0 {
        StartScores(log, v, branchId);
      }
      assert queryTerms[..0] == [];
      for i := 0 to |queryTerms|
        invariant docs == [] ==> scores == map[]
        invariant v.avgdl > 0.0 ==> forall g: Posting -> real ::
          IsScored(log, v, branchId, queryTerms[..i], g, [], scores)
      {
        var qt := queryTerms[i];
        assert queryTerms[..i + 1] == queryTerms[..i] + [qt];
        if |Listed(terms, qt)| == 0 {
          if v.avgdl > 0.0 {
            SkipTerm(log, v, branchId, queryTerms[..i], qt, scores);
          }
        } else {
          NoPostingsInEmpty(lex, docs, v, qt);
          scores := ScoreTerm(log, v, branchId, queryTerms[..i], qt, scores);
        }
      }
      assert queryTerms[..|queryTerms|] == queryTerms;
      var ranking := Rank(scores);
      if docs == [] {
        EmptyRanking(ranking);
      } else if DistinctIds(docs) {
        RankingIsNaive(log, lex, docs, v, branchId, queryTerms, scores, ranking);
      }
      assert IsFullRanking(log, query, branchId, ranking);
      var l := limit;
      if l <= 0 {
        l := DEFAULT_LIMIT;
      }
      results := if |ranking| > l then ranking[..l] else ranking;
    }
  }

  /** The postings and statistics after one more document. */
  method Inserted(lex: Lexer, d: Doc, tokens: seq<string>, v: View, ghost docs: seq<Doc>)
    returns (both: map<string, seq<Posting>>, stats: map<string, EventStats>)
    requires Represents(lex, docs, v) && tokens == Tokens(lex, d.text) != []
    ensures forall t :: Listed(both, t) == Postings(lex, docs + [d], t)
    ensures stats == StatsOf(lex, docs + [d]) && AllTokenized(lex, docs + [d])
  {
    hide Represents, DocPostings, Tokens, Postings, StatsOf, Listed, AllTokenized, IsCountOf;
    var tf := CountTerms(tokens);
    var names := Mapped(lex.lower, lex.symbols(d.text));
    var symbolTf := CountTerms(names);
    var plain := InsertPostings(v.terms, d.id, tf, 1, 1.0);
    both := InsertPostings(plain, d.id, symbolTf, 3, 3.0);
    var boosted := BoostedCount(names, symbolTf);
    stats := v.stats[d.id := EventStats(|tokens| + boosted, d.branchId)];
    InsertedTwice(lex, d, v.terms, plain, both, tf, symbolTf);
    AddedPostings(lex, docs, d, v, both);
    AddedStats(lex, docs, d, v, stats);
  }

  lemma {:induction false} InsertedTwice(lex: Lexer, d: Doc, before: map<string, seq<Posting>>,
                                         plain: map<string, seq<Posting>>, both: map<string, seq<Posting>>,
                                         tf: map<string, nat>, symbolTf: map<string, nat>)
    requires IsCountOf(tf, Tokens(lex, d.text)) && IsCountOf(symbolTf, Symbols(lex, d))
    requires forall t ::
      Listed(plain, t) == Listed(before, t) + (if t in tf then [Posting(d.id, 1 * tf[t], 1.0)] else [])
    requires forall t ::
      Listed(both, t) == Listed(plain, t) + (if t in symbolTf then [Posting(d.id, 3 * symbolTf[t], 3.0)] else [])
    ensures forall t :: Listed(both, t) == Listed(before, t) + DocPostings(lex, d, t)
  {
    hide Listed, DocPostings, Tokens;
    forall t
      ensures Listed(both, t) == Listed(before, t) + DocPostings(lex, d, t)
    {
      TwoInserts(lex, d, before, plain, both, t);
    }
  }

  lemma {:induction false} AddedPostings(lex: Lexer, docs: seq<Doc>, d: Doc, v: View, terms: map<string, seq<Posting>>)
    requires Represents(lex, docs, v)
    requires forall t :: Listed(terms, t) == Listed(v.terms, t) + DocPostings(lex, d, t)
    ensures forall t :: Listed(terms, t) == Postings(lex, docs + [d], t)
  {
    hide DocPostings, Listed, StatsOf;
    forall t
      ensures Listed(terms, t) == Postings(lex, docs + [d], t)
    {
      assert (docs + [d])[..|docs|] == docs;
      assert Listed(v.terms, t) == Postings(lex, docs, t);
    }
  }

  lemma {:induction false} AddedStats(lex: Lexer, docs: seq<Doc>, d: Doc, v: View, stats: map<string, EventStats>)
    requires Represents(lex, docs, v) && Tokens(lex, d.text) != []
    requires stats == v.stats[d.id := EventStats(DocLength(lex, d), d.branchId)]
    ensures stats == StatsOf(lex, docs + [d]) && AllTokenized(lex, docs + [d])
  {
    hide Postings;
    assert (docs + [d])[..|docs|] == docs;
  }

  lemma {:induction false} EmptyRanking(ranked: seq<Result>)
    requires IsRanking(map[], ranked)
    ensures ranked == []
  {
    if |ranked| > 0 {
      HasElement(ranked);
      assert false;
    }
  }

  lemma {:induction false} HasElement<T>(s: seq<T>)
    requires |s| > 0
    ensures exists x :: x in s
  {
    assert s[0] in s;
  }

  lemma {:induction false} NoPostingsInEmpty(lex: Lexer, docs: seq<Doc>, v: View, t: string)
    requires Represents(lex, docs, v) && Listed(v.terms, t) != []
    ensures docs != []
  {
    assert Listed(v.terms, t) == Postings(lex, docs, t);
  }

  lemma {:induction false} TotalAtLeast(stats: map<string, EventStats>, keys: set<string>)
    requires keys <= stats.Keys && forall k | k in stats :: stats[k].tokenCount >= 1
    ensures SumOver(CountsIn(stats), keys) >= |keys|
    decreases |keys|
  {
    if keys != {} {
      TotalAtLeast(stats, keys - {LeastKey(keys)});
    }
  }

  lemma {:induction false} StatsArePositive(lex: Lexer, docs: seq<Doc>)
    requires AllTokenized(lex, docs)
    ensures forall k | k in StatsOf(lex, docs) :: StatsOf(lex, docs)[k].tokenCount >= 1
    ensures docs != [] ==> StatsOf(lex, docs) != map[]
  {
    if docs != [] {
      var (init, last) := (docs[..|docs| - 1], docs[|docs| - 1]);
      assert docs == init + [last];
      StatsArePositive(lex, init);
      assert last in docs;
      assert last.id in StatsOf(lex, docs);
    }
  }

  lemma {:induction false} PositiveAverage(lex: Lexer, docs: seq<Doc>, v: View)
    requires Represents(lex, docs, v)
    ensures v.avgdl > 0.0 <==> docs != []
  {
    hide Postings;
    StatsArePositive(lex, docs);
    TotalAtLeast(v.stats, v.stats.Keys);
    if docs != [] {
      hide StatsOf, AllTokenized;
      assert |v.stats.Keys| >= 1;
      QuotientPositive(TotalTokens(v.stats), |docs|);
    }
  }

  lemma QuotientPositive(a: int, n: nat)
    requires a > 0 && n > 0
    ensures a as real / n as real > 0.0
  {
  }

  lemma {:induction false} StartScores(log: real -> real, v: View, branchId: string)
    requires v.avgdl > 0.0
    ensures forall g: Posting -> real :: IsScored(log, v, branchId, [], g, [], map[])
  {
    forall id
      ensures !Hit([], id)
    {
      NothingHit(id);
    }
  }

  lemma {:induction false} SkipTerm(log: real -> real, v: View, branchId: string, q: seq<string>, t: string,
                                    scores: map<string, real>)
    requires v.avgdl > 0.0 && Listed(v.terms, t) == []
    requires forall g: Posting -> real :: IsScored(log, v, branchId, q, g, [], scores)
    ensures forall g: Posting -> real :: IsScored(log, v, branchId, q + [t], g, [], scores)
  {
    assert IsScored(log, v, branchId, q, Scorer(log, v, t), [], scores);
    hide IsScored;
    TermDone(log, v, branchId, q, t, scores);
  }

  /** Appends one posting per term; `boost` multiplies the frequency. */
  method InsertPostings(terms: map<string, seq<Posting>>, id: string, tf: map<string, nat>, boost: nat,
                        fieldBoost: real)
    returns (r: map<string, seq<Posting>>)
    ensures forall t :: Listed(r, t) == Listed(terms, t) + (if t in tf then [Posting(id, boost * tf[t], fieldBoost)]
                                                            else [])
  {
    r := terms;
    var rest := tf.Keys;
    while rest != {}
      invariant rest <= tf.Keys
      invariant forall t :: Listed(r, t) ==
                  Listed(terms, t) + (if t in tf && t !in rest then [Posting(id, boost * tf[t], fieldBoost)] else [])
      decreases |rest|
    {
      var t :| t in rest;
      rest := rest - {t};
      r := r[t := Listed(r, t) + [Posting(id, boost * tf[t], fieldBoost)]];
    }
  }

  lemma {:induction false} TwoInserts(lex: Lexer, d: Doc, before: map<string, seq<Posting>>,
                                      plain: map<string, seq<Posting>>, both: map<string, seq<Posting>>, t: string)
    requires Listed(plain, t) == Listed(before, t) + (if TermCount(lex, d, t) > 0
                                                      then [Posting(d.id, TermCount(lex, d, t), 1.0)] else [])
    requires Listed(both, t) == Listed(plain, t) + (if SymbolCount(lex, d, t) > 0
                                                    then [Posting(d.id, 3 * SymbolCount(lex, d, t), 3.0)] else [])
    ensures Listed(both, t) == Listed(before, t) + DocPostings(lex, d, t)
  {
    hide Listed, TermCount, SymbolCount;
  }

  /** What the loop over the symbols adds to the length of the event. */
  method BoostedCount(names: seq<string>, tf: map<string, nat>) returns (total: nat)
    requires IsCountOf(tf, names)
    ensures total == 3 * |names|
  {
    CountsAddUp(names, tf.Keys);
    total := 0;
    var rest := tf.Keys;
    while rest != {}
      invariant rest <= tf.Keys
      invariant total + 3 * SumOver(Frequency(names), rest) == 3 * |names|
      decreases |rest|
    {
      var t :| t in rest;
      SumOverPick(Frequency(names), rest, t);
      rest := rest - {t};
      total := total + tf[t] * 3;
    }
  }
}
