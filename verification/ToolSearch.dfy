/** The BM25 index over tool descriptions, with scores over the reals. */
module ToolSearch {

  datatype Doc = Doc(id: string, tokens: seq<string>)

  datatype Scored = Scored(index: nat, score: real)

  type Table = map<string, nat>

  const K1 := 1.5
  const B := 0.75

  // ---- tokens ----

  /** The two Unicode tables that tokens depend on. */
  datatype Alphabet = Alphabet(lower: string -> string, alphanumeric: char -> bool)

  /** `split` at every character that is not alphanumeric, without the empty pieces;
      `word` is the piece that is being read. */
  function Words(alphanumeric: char -> bool, text: string, word: string): seq<string> {
    if text == [] then Piece(word)
    else if alphanumeric(text[0]) then Words(alphanumeric, text[1..], word + [text[0]])
    else Piece(word) + Words(alphanumeric, text[1..], [])
  }

  function Piece(word: string): seq<string> {
    if word == [] then [] else [word]
  }

  function Tokenize(letters: Alphabet, text: string): seq<string> {
    Words(letters.alphanumeric, letters.lower(text), [])
  }

  predicate IsWord(alphanumeric: char -> bool, word: string) {
    word != [] && forall c | c in word :: alphanumeric(c)
  }

  function Concatenated(words: seq<string>): string {
    if words == [] then [] else words[0] + Concatenated(words[1..])
  }

  function OnlyAlphanumeric(alphanumeric: char -> bool, text: string): string {
    if text == [] then []
    else (if alphanumeric(text[0]) then [text[0]] else []) + OnlyAlphanumeric(alphanumeric, text[1..])
  }

  lemma {:induction false} ConcatenatedPiece(word: string, rest: seq<string>)
    ensures Concatenated(Piece(word) + rest) == word + Concatenated(rest)
  {
    if word == [] {
      assert Piece(word) + rest == rest;
    } else {
      assert ([word] + rest)[1..] == rest;
    }
  }

  lemma {:induction false} WordsAreAlphanumeric(alphanumeric: char -> bool, text: string, word: string)
    requires forall c | c in word :: alphanumeric(c)
    ensures forall w | w in Words(alphanumeric, text, word) :: IsWord(alphanumeric, w)
  {
    if text != [] {
      if alphanumeric(text[0]) {
        WordsAreAlphanumeric(alphanumeric, text[1..], word + [text[0]]);
      } else {
        WordsAreAlphanumeric(alphanumeric, text[1..], []);
      }
    }
  }

  /** Together the words are all alphanumeric characters of the text, in order. */
  lemma {:induction false} WordsAreTheText(alphanumeric: char -> bool, text: string, word: string)
    ensures Concatenated(Words(alphanumeric, text, word)) == word + OnlyAlphanumeric(alphanumeric, text)
  {
    if text == [] {
      ConcatenatedPiece(word, []);
      assert Piece(word) + [] == Piece(word);
    } else if alphanumeric(text[0]) {
      WordsAreTheText(alphanumeric, text[1..], word + [text[0]]);
    } else {
      WordsAreTheText(alphanumeric, text[1..], []);
      ConcatenatedPiece(word, Words(alphanumeric, text[1..], []));
    }
  }

  /** A separator between two texts separates their words. */
  lemma {:induction false} WordsSeparate(alphanumeric: char -> bool, a: string, separator: char, b: string,
        word: string)
    requires !alphanumeric(separator)
    ensures Words(alphanumeric, a + [separator] + b, word)
         == Words(alphanumeric, a, word) + Words(alphanumeric, b, [])
  {
    var whole := a + [separator] + b;
    if a == [] {
      assert whole[1..] == b;
    } else {
      assert whole[1..] == a[1..] + [separator] + b;
      if alphanumeric(a[0]) {
        WordsSeparate(alphanumeric, a[1..], separator, b, word + [a[0]]);
      } else {
        WordsSeparate(alphanumeric, a[1..], separator, b, []);
      }
    }
  }

  /** The tokens of a text are words, and together the alphanumeric characters of its lower case. */
  lemma TokensAreTheLowerCase(letters: Alphabet, text: string)
    ensures forall token | token in Tokenize(letters, text) :: IsWord(letters.alphanumeric, token)
    ensures Concatenated(Tokenize(letters, text)) == OnlyAlphanumeric(letters.alphanumeric, letters.lower(text))
  {
    WordsAreAlphanumeric(letters.alphanumeric, letters.lower(text), []);
    WordsAreTheText(letters.alphanumeric, letters.lower(text), []);
  }

  // ---- the table of document frequencies ----

  function DocFrequency(docs: seq<Doc>, term: string): nat {
    if docs == [] then 0
    else DocFrequency(docs[..|docs| - 1], term) + if term in docs[|docs| - 1].tokens then 1 else 0
  }

  /** The table is the one that would be computed from the documents. */
  ghost predicate TableOk(docs: seq<Doc>, df: Table) {
    forall term :: (if term in df then df[term] else 0) == DocFrequency(docs, term)
  }

  function Frequency(df: Table, term: string): nat { if term in df then df[term] else 0 }

  lemma {:induction false} FrequencyIsBounded(docs: seq<Doc>, term: string)
    ensures DocFrequency(docs, term) <= |docs|
    ensures forall i | 0 <= i < |docs| && term in docs[i].tokens :: DocFrequency(docs, term) > 0
  {
    if docs != [] { FrequencyIsBounded(docs[..|docs| - 1], term); }
  }

  function Count(tokens: seq<string>, term: string): nat {
    if tokens == [] then 0 else Count(tokens[..|tokens| - 1], term) + if tokens[|tokens| - 1] == term then 1 else 0
  }

  lemma {:induction false} CountIsPositive(tokens: seq<string>, term: string)
    ensures Count(tokens, term) > 0 <==> term in tokens
  {
    if tokens != [] { CountIsPositive(tokens[..|tokens| - 1], term); }
  }

  // ---- scores ----

  function TotalLength(docs: seq<Doc>): nat {
    if docs == [] then 0 else TotalLength(docs[..|docs| - 1]) + |docs[|docs| - 1].tokens|
  }

  lemma {:induction false} TotalLengthCovers(docs: seq<Doc>, i: nat)
    requires i < |docs|
    ensures TotalLength(docs) >= |docs[i].tokens|
  {
    if i < |docs| - 1 { TotalLengthCovers(docs[..|docs| - 1], i); }
  }

  function InverseFrequency(ln: real -> real, n: nat, df: nat): real {
    ln((n as real - df as real + 0.5) / (df as real + 0.5) + 1.0)
  }

  /** Term frequency, damped by the document's length relative to the average. */
  function Saturated(tf: nat, length: nat, total: nat, n: nat): real
    requires tf > 0 && total > 0 && n > 0
  {
    LengthPartIsPositive(length, total, n);
    (tf as real * (K1 + 1.0)) / (tf as real + LengthPart(length, total, n))
  }

  function LengthPart(length: nat, total: nat, n: nat): real
    requires total > 0 && n > 0
  {
    K1 * (1.0 - B + B * (length as real / Average(total, n)))
  }

  function Average(total: nat, n: nat): (a: real)
    requires total > 0 && n > 0
    ensures a > 0.0
  {
    total as real / n as real
  }

  lemma LengthPartIsPositive(length: nat, total: nat, n: nat)
    requires total > 0 && n > 0
    ensures LengthPart(length, total, n) > 0.0
  {
    assert length as real / Average(total, n) >= 0.0;
  }

  function TermScore(ln: real -> real, docs: seq<Doc>, df: Table, tokens: seq<string>, term: string): real
    requires exists i | 0 <= i < |docs| :: docs[i].tokens == tokens
  {
    var tf := Count(tokens, term);
    if tf == 0 then 0.0
    else
      SomeLength(docs, tokens, term);
      InverseFrequency(ln, |docs|, Frequency(df, term)) * Saturated(tf, |tokens|, TotalLength(docs), |docs|)
  }

  lemma {:induction false} SomeLength(docs: seq<Doc>, tokens: seq<string>, term: string)
    requires (exists i | 0 <= i < |docs| :: docs[i].tokens == tokens) && Count(tokens, term) > 0
    ensures TotalLength(docs) > 0
  {
    var i :| 0 <= i < |docs| && docs[i].tokens == tokens;
    CountIsPositive(tokens, term);
    TotalLengthCovers(docs, i);
  }

  function Score(ln: real -> real, docs: seq<Doc>, df: Table, query: seq<string>, tokens: seq<string>): real
    requires exists i | 0 <= i < |docs| :: docs[i].tokens == tokens
  {
    if query == [] then 0.0
    else Score(ln, docs, df, query[..|query| - 1], tokens) + TermScore(ln, docs, df, tokens, query[|query| - 1])
  }

  lemma {:induction false} ScoreOfOne(ln: real -> real, docs: seq<Doc>, df: Table, d: nat, term: string)
    requires d < |docs|
    ensures Score(ln, docs, df, [term], docs[d].tokens) == TermScore(ln, docs, df, docs[d].tokens, term)
  {
    var rest := Score(ln, docs, df, [term][..0], docs[d].tokens);
    assert rest == 0.0;
    AddToNothing(TermScore(ln, docs, df, docs[d].tokens, term));
  }

  lemma AddToNothing(x: real)
    ensures 0.0 + x == x
  {
  }

  /** The formula as the literature has it, with the usual 1.5 and 0.75, for a token that occurs
      `tf` times among `length` in a document, and in `holders` of `n` documents. */
  function Okapi(ln: real -> real, n: nat, holders: nat, tf: nat, length: nat, average: real): real
    requires average > 0.0 && tf > 0
  {
    var damping := 1.5 * (0.25 + 0.75 * (length as real / average));
    assert length as real / average >= 0.0;
    ln((n as real - holders as real + 0.5) / (holders as real + 0.5) + 1.0)
      * ((tf as real * 2.5) / (tf as real + damping))
  }

  lemma WorthInNumbers(ln: real -> real, n: nat, total: nat, tf: nat, length: nat, holders: nat)
    requires n > 0 && total > 0 && tf > 0
    ensures total as real / n as real > 0.0
    ensures InverseFrequency(ln, n, holders) * Saturated(tf, length, total, n)
         == Okapi(ln, n, holders, tf, length, total as real / n as real)
  {
    LengthPartIsPositive(length, total, n);
  }

  lemma {:induction false} TermScoreIsOkapi(ln: real -> real, docs: seq<Doc>, df: Table, d: nat, term: string,
        holders: nat)
    requires d < |docs| && holders == Frequency(df, term) && Count(docs[d].tokens, term) > 0 && TotalLength(docs) > 0
    ensures TotalLength(docs) as real / |docs| as real > 0.0
    ensures TermScore(ln, docs, df, docs[d].tokens, term)
         == Okapi(ln, |docs|, holders, Count(docs[d].tokens, term), |docs[d].tokens|,
                  TotalLength(docs) as real / |docs| as real)
  {
    WorthInNumbers(ln, |docs|, TotalLength(docs), Count(docs[d].tokens, term), |docs[d].tokens|, holders);
  }

  /** The document holds the token, which some documents hold. */
  lemma {:induction false} Held(docs: seq<Doc>, df: Table, d: nat, term: string)
    requires d < |docs| && term in docs[d].tokens && TableOk(docs, df)
    ensures Count(docs[d].tokens, term) > 0 && TotalLength(docs) > 0
    ensures Frequency(df, term) == DocFrequency(docs, term) <= |docs|
  {
    CountIsPositive(docs[d].tokens, term);
    SomeLength(docs, docs[d].tokens, term);
    FrequencyIsBounded(docs, term);
  }

  /** What one token of a query is worth: the formula for how often the document holds it, how
      long the document is, the average length, and how many documents hold the token. */
  lemma {:induction false} OneTokenScores(ln: real -> real, docs: seq<Doc>, df: Table, d: nat, term: string)
    requires d < |docs| && term in docs[d].tokens && TableOk(docs, df)
    ensures Count(docs[d].tokens, term) > 0 && TotalLength(docs) as real / |docs| as real > 0.0
    ensures Score(ln, docs, df, [term], docs[d].tokens)
         == Okapi(ln, |docs|, DocFrequency(docs, term), Count(docs[d].tokens, term), |docs[d].tokens|,
                  TotalLength(docs) as real / |docs| as real)
  {
    Held(docs, df, d, term);
    ScoreOfOne(ln, docs, df, d, term);
    TermScoreIsOkapi(ln, docs, df, d, term, DocFrequency(docs, term));
  }

  ghost predicate IncreasingLn(ln: real -> real) {
    forall x, y | 0.0 < x < y :: ln(x) < ln(y)
  }

  /** Of two tokens that a document holds equally often, the one that fewer documents hold scores more. */
  lemma {:induction false} RarerTokensScoreMore(ln: real -> real, docs: seq<Doc>, df: Table, d: nat, rare: string,
        common: string)
    requires d < |docs| && TableOk(docs, df) && IncreasingLn(ln)
    requires var tokens := docs[d].tokens;
      rare in tokens && common in tokens && Count(tokens, rare) == Count(tokens, common)
    requires DocFrequency(docs, rare) < DocFrequency(docs, common)
    ensures Score(ln, docs, df, [rare], docs[d].tokens) > Score(ln, docs, df, [common], docs[d].tokens)
  {
    Held(docs, df, d, rare);
    Held(docs, df, d, common);
    OneTokenScores(ln, docs, df, d, rare);
    OneTokenScores(ln, docs, df, d, common);
    FewerHoldersScoreMore(ln, |docs|, Count(docs[d].tokens, rare), |docs[d].tokens|, DocFrequency(docs, rare),
                          DocFrequency(docs, common), TotalLength(docs) as real / |docs| as real);
  }

  lemma FewerHoldersScoreMore(ln: real -> real, n: nat, tf: nat, length: nat, few: nat, many: nat, average: real)
    requires IncreasingLn(ln) && average > 0.0 && tf > 0 && few < many <= n
    ensures Okapi(ln, n, few, tf, length, average) > Okapi(ln, n, many, tf, length, average)
  {
    var damping := 1.5 * (0.25 + 0.75 * (length as real / average));
    assert length as real / average >= 0.0;
    var factor := (tf as real * 2.5) / (tf as real + damping);
    QuotientIsPositive(tf as real * 2.5, tf as real + damping);
    InverseFrequencyFalls(ln, n, few, many);
    ProductGrows(InverseFrequency(ln, n, many), InverseFrequency(ln, n, few), factor);
  }

  lemma InverseFrequencyFalls(ln: real -> real, n: nat, few: nat, many: nat)
    requires few < many <= n && IncreasingLn(ln)
    ensures InverseFrequency(ln, n, many) < InverseFrequency(ln, n, few)
  {
    var a, b := n as real - many as real + 0.5, many as real + 0.5;
    var c, d := n as real - few as real + 0.5, few as real + 0.5;
    QuotientGrows(a, b, c, d);
    QuotientIsPositive(a, b);
  }

  lemma QuotientGrows(a: real, b: real, c: real, d: real)
    requires 0.0 < a < c && 0.0 < d < b
    ensures a / b < c / d
  {
    assert a / b < c / b;
    assert c / b < c / d;
  }

  lemma ProductGrows(a: real, b: real, factor: real)
    requires a < b && factor > 0.0
    ensures a * factor < b * factor
  {
  }

  /** Logarithms of numbers above one are positive: all that is needed of `ln`. */
  ghost predicate LogLike(ln: real -> real) {
    forall x | x > 1.0 :: ln(x) > 0.0
  }

  predicate Shares(query: seq<string>, tokens: seq<string>) {
    exists term | term in query :: term in tokens
  }

  lemma ProductIsPositive(a: real, b: real)
    requires a > 0.0 && b > 0.0
    ensures a * b > 0.0
  {
  }

  lemma QuotientIsPositive(a: real, b: real)
    requires a > 0.0 && b > 0.0
    ensures a / b > 0.0
  {
  }

  lemma TermScoreIsPositive(ln: real -> real, docs: seq<Doc>, df: Table, tokens: seq<string>, term: string)
    requires LogLike(ln) && TableOk(docs, df)
    requires exists i | 0 <= i < |docs| :: docs[i].tokens == tokens
    ensures if term in tokens then TermScore(ln, docs, df, tokens, term) > 0.0
      else TermScore(ln, docs, df, tokens, term) == 0.0
  {
    CountIsPositive(tokens, term);
    if term in tokens {
      var tf, n, f := Count(tokens, term), |docs|, Frequency(df, term);
      FrequencyIsBounded(docs, term);
      assert f == DocFrequency(docs, term);
      QuotientIsPositive(n as real - f as real + 0.5, f as real + 0.5);
      SomeLength(docs, tokens, term);
      LengthPartIsPositive(|tokens|, TotalLength(docs), n);
      QuotientIsPositive(tf as real * (K1 + 1.0), tf as real + LengthPart(|tokens|, TotalLength(docs), n));
      ProductIsPositive(InverseFrequency(ln, n, f), Saturated(tf, |tokens|, TotalLength(docs), n));
    }
  }

  /** A document scores exactly when it shares a token with the query. */
  lemma {:induction false} HitExactlyWhenATokenIsShared(ln: real -> real, docs: seq<Doc>, df: Table,
        query: seq<string>, tokens: seq<string>)
    requires LogLike(ln) && TableOk(docs, df)
    requires exists i | 0 <= i < |docs| :: docs[i].tokens == tokens
    ensures Score(ln, docs, df, query, tokens) >= 0.0
    ensures Score(ln, docs, df, query, tokens) > 0.0 <==> Shares(query, tokens)
  {
    if query != [] {
      var init, last := query[..|query| - 1], query[|query| - 1];
      HitExactlyWhenATokenIsShared(ln, docs, df, init, tokens);
      TermScoreIsPositive(ln, docs, df, tokens, last);
      assert query == init + [last];
    }
  }

  // ---- ranking ----

  /** Higher scores first; equal scores in the order of registration. */
  predicate Before(a: Scored, b: Scored) {
    a.score > b.score || (a.score == b.score && a.index < b.index)
  }

  predicate Ranked(s: seq<Scored>) {
    forall i, j | 0 <= i < j < |s| :: Before(s[i], s[j])
  }

  /** A stable place for `x`: after everything that scores at least as much. */
  function InsertRanked(s: seq<Scored>, x: Scored): seq<Scored> {
    if s == [] then [x]
    else if s[0].score >= x.score then [s[0]] + InsertRanked(s[1..], x)
    else [x] + s
  }

  lemma {:induction false} InsertKeepsRank(s: seq<Scored>, x: Scored)
    requires Ranked(s) && forall i | 0 <= i < |s| :: s[i].index < x.index
    ensures Ranked(InsertRanked(s, x))
    ensures forall y :: y in InsertRanked(s, x) <==> y in s || y == x
  {
    var r := InsertRanked(s, x);
    if s != [] {
      assert s == [s[0]] + s[1..];
      if s[0].score >= x.score {
        InsertKeepsRank(s[1..], x);
        forall j | 0 < j < |r| ensures Before(r[0], r[j]) {
          assert r[j] in InsertRanked(s[1..], x);
        }
      }
    }
  }

  /** What the first `n` documents score, if they score, best first. */
  function RankedHits(ln: real -> real, docs: seq<Doc>, df: Table, query: seq<string>, n: nat): seq<Scored>
    requires n <= |docs|
  {
    if n == 0 then []
    else
      var before := RankedHits(ln, docs, df, query, n - 1);
      var hit := HitOf(ln, docs, df, query, n - 1);
      if hit.score > 0.0 then InsertRanked(before, hit) else before
  }

  function HitOf(ln: real -> real, docs: seq<Doc>, df: Table, query: seq<string>, d: nat): Scored
    requires d < |docs|
  {
    Scored(d, Score(ln, docs, df, query, docs[d].tokens))
  }

  function Best(ln: real -> real, docs: seq<Doc>, df: Table, query: seq<string>, limit: nat): seq<Scored> {
    var hits := RankedHits(ln, docs, df, query, |docs|);
    if |hits| <= limit then hits else hits[..limit]
  }

  // ---- which hits are the best ----

  ghost predicate IsHit(ln: real -> real, docs: seq<Doc>, df: Table, query: seq<string>, hit: Scored) {
    hit.index < |docs| && Shares(query, docs[hit.index].tokens) && hit == HitOf(ln, docs, df, query, hit.index)
  }

  lemma {:induction false} RankedHitsAre(ln: real -> real, docs: seq<Doc>, df: Table, query: seq<string>, n: nat)
    requires n <= |docs| && LogLike(ln) && TableOk(docs, df)
    ensures Ranked(RankedHits(ln, docs, df, query, n))
    ensures forall hit ::
      hit in RankedHits(ln, docs, df, query, n) <==> IsHit(ln, docs, df, query, hit) && hit.index < n
  {
    if n > 0 {
      RankedHitsAre(ln, docs, df, query, n - 1);
      OneMoreRanked(ln, docs, df, query, n - 1, RankedHits(ln, docs, df, query, n - 1));
    }
  }

  lemma OneMoreRanked(ln: real -> real, docs: seq<Doc>, df: Table, query: seq<string>, d: nat, before: seq<Scored>)
    requires d < |docs| && LogLike(ln) && TableOk(docs, df) && Ranked(before)
    requires forall hit :: hit in before <==> IsHit(ln, docs, df, query, hit) && hit.index < d
    ensures var hit := HitOf(ln, docs, df, query, d);
      var after := if hit.score > 0.0 then InsertRanked(before, hit) else before;
      Ranked(after) && forall other :: other in after <==> IsHit(ln, docs, df, query, other) && other.index < d + 1
  {
    var hit := HitOf(ln, docs, df, query, d);
    HitExactlyWhenATokenIsShared(ln, docs, df, query, docs[d].tokens);
    OneMoreOf(before, hit, hit.score > 0.0, iset other | IsHit(ln, docs, df, query, other));
  }

  /** The hits up to the next document, which counts or not. */
  lemma OneMoreOf(before: seq<Scored>, hit: Scored, counts: bool, hits: iset<Scored>)
    requires Ranked(before) && forall other :: other in before <==> other in hits && other.index < hit.index
    requires forall other :: other in hits && other.index == hit.index <==> counts && other == hit
    ensures var after := if counts then InsertRanked(before, hit) else before;
      Ranked(after) && forall other :: other in after <==> other in hits && other.index < hit.index + 1
  {
    if counts { InsertNext(before, hit); }
  }

  lemma {:induction false} InsertNext(before: seq<Scored>, hit: Scored)
    requires Ranked(before) && forall other | other in before :: other.index < hit.index
    ensures Ranked(InsertRanked(before, hit))
    ensures forall other :: other in InsertRanked(before, hit) <==> other in before || other == hit
  {
    forall i | 0 <= i < |before| ensures before[i].index < hit.index { assert before[i] in before; }
    InsertKeepsRank(before, hit);
  }

  /** The documents whose hits rank before that of `d`. */
  function Ahead(ln: real -> real, docs: seq<Doc>, df: Table, query: seq<string>, d: nat): set<nat>
    requires d < |docs|
  {
    set k: nat | 0 <= k < |docs| && Shares(query, docs[k].tokens)
                 && Before(HitOf(ln, docs, df, query, k), HitOf(ln, docs, df, query, d)) :: k
  }

  /** The document shares a token with the query, and fewer than `limit` rank before it. */
  predicate AmongBest(ln: real -> real, docs: seq<Doc>, df: Table, query: seq<string>, limit: nat, d: nat)
    requires d < |docs|
  {
    Shares(query, docs[d].tokens) && |Ahead(ln, docs, df, query, d)| < limit
  }

  /** The documents of the first `n` hits of a list. */
  function Indices(hits: seq<Scored>, n: nat): set<nat>
    requires n <= |hits|
  {
    set i: nat | 0 <= i < n :: hits[i].index
  }

  lemma {:induction false} IndicesCount(hits: seq<Scored>, n: nat)
    requires n <= |hits| && forall i, j | 0 <= i < j < |hits| :: hits[i].index != hits[j].index
    ensures |Indices(hits, n)| == n
  {
    if n > 0 {
      IndicesCount(hits, n - 1);
      assert Indices(hits, n) == Indices(hits, n - 1) + {hits[n - 1].index};
    }
  }

  lemma HitsDiffer(ln: real -> real, docs: seq<Doc>, df: Table, query: seq<string>, hits: seq<Scored>)
    requires Ranked(hits) && forall hit | hit in hits :: IsHit(ln, docs, df, query, hit)
    ensures forall i, j | 0 <= i < j < |hits| :: hits[i].index != hits[j].index
  {
    forall i, j | 0 <= i < j < |hits| ensures hits[i].index != hits[j].index {
      assert Before(hits[i], hits[j]) && hits[i] in hits && hits[j] in hits;
    }
  }

  /** In the full ranking, exactly the documents of the hits before a hit rank ahead of it. */
  lemma AheadIsBefore(ln: real -> real, docs: seq<Doc>, df: Table, query: seq<string>, hits: seq<Scored>, i: nat)
    requires i < |hits| && Ranked(hits) && forall hit :: hit in hits <==> IsHit(ln, docs, df, query, hit)
    ensures hits[i].index < |docs| && |Ahead(ln, docs, df, query, hits[i].index)| == i
  {
    assert hits[i] in hits;
    var d := hits[i].index;
    HitsDiffer(ln, docs, df, query, hits);
    IndicesCount(hits, i);
    forall k ensures k in Ahead(ln, docs, df, query, d) <==> k in Indices(hits, i) {
      if k in Ahead(ln, docs, df, query, d) {
        var hit := HitOf(ln, docs, df, query, k);
        assert hit in hits;
        var j :| 0 <= j < |hits| && hits[j] == hit;
        assert !Before(hits[i], hits[j]);
        assert hits[j].index == k;
      }
      if k in Indices(hits, i) {
        var j :| 0 <= j < i && hits[j].index == k;
        assert hits[j] in hits && Before(hits[j], hits[i]);
      }
    }
    assert Ahead(ln, docs, df, query, d) == Indices(hits, i);
  }

  /** A document is found exactly when it shares a token with the query and fewer than
      `limit` such documents rank before it; the list is ordered best first. */
  lemma BestAreExactly(ln: real -> real, docs: seq<Doc>, df: Table, query: seq<string>, limit: nat)
    requires LogLike(ln) && TableOk(docs, df)
    ensures var best := Best(ln, docs, df, query, limit);
      && |best| <= limit && Ranked(best)
      && (forall hit | hit in best :: hit.index < |docs| && hit == HitOf(ln, docs, df, query, hit.index))
      && (forall d | 0 <= d < |docs| ::
            HitOf(ln, docs, df, query, d) in best <==> AmongBest(ln, docs, df, query, limit, d))
  {
    var hits, best := RankedHits(ln, docs, df, query, |docs|), Best(ln, docs, df, query, limit);
    RankedHitsAre(ln, docs, df, query, |docs|);
    assert forall hit :: hit in hits <==> IsHit(ln, docs, df, query, hit);
    forall d | 0 <= d < |docs|
      ensures HitOf(ln, docs, df, query, d) in best <==> AmongBest(ln, docs, df, query, limit, d)
    {
      FoundExactly(ln, docs, df, query, limit, hits, best, d);
    }
  }

  lemma FoundExactly(ln: real -> real, docs: seq<Doc>, df: Table, query: seq<string>, limit: nat,
        hits: seq<Scored>, best: seq<Scored>, d: nat)
    requires d < |docs| && Ranked(hits) && forall hit :: hit in hits <==> IsHit(ln, docs, df, query, hit)
    requires best == if |hits| <= limit then hits else hits[..limit]
    ensures HitOf(ln, docs, df, query, d) in best <==> AmongBest(ln, docs, df, query, limit, d)
  {
    var hit := HitOf(ln, docs, df, query, d);
    if hit in hits {
      var i :| 0 <= i < |hits| && hits[i] == hit;
      AheadIsBefore(ln, docs, df, query, hits, i);
      if i < |best| { assert best[i] == hit; }
      if j :| 0 <= j < |best| && best[j] == hit {
        HitsDiffer(ln, docs, df, query, hits);
        assert hits[j] == hits[i];
      }
    } else {
      assert best <= hits;
    }
  }

  method TermFrequencies(tokens: seq<string>) returns (frequencies: Table)
    ensures forall term :: (if term in frequencies then frequencies[term] else 0) == Count(tokens, term)
  {
    frequencies := map[];
    for i := 0 to |tokens|
      invariant forall term :: (if term in frequencies then frequencies[term] else 0) == Count(tokens[..i], term)
    {
      var t := tokens[i];
      assert tokens[..i + 1][..i] == tokens[..i];
      frequencies := frequencies[t := (if t in frequencies then frequencies[t] else 0) + 1];
    }
    assert tokens[..|tokens|] == tokens;
  }

  class BM25Index {
    const letters: Alphabet
    var docs: seq<Doc>
    var df: Table

    constructor (letters: Alphabet)
      ensures this.letters == letters && docs == [] && df == map[]
    {
      this.letters := letters;
      docs, df := [], map[];
    }

    method Insert(id: string, text: string)
      requires TableOk(docs, df)
      modifies this
      ensures docs == old(docs) + [Doc(id, Tokenize(letters, text))] && TableOk(docs, df)
    {
      var tokens := Tokenize(letters, text);
      var seen: set<string> := {};
      ghost var before := df;
      for i := 0 to |tokens|
        invariant docs == old(docs)
        invariant seen == set t | t in tokens[..i]
        invariant forall term :: Frequency(df, term) == Frequency(before, term) + if term in tokens[..i] then 1 else 0
      {
        var t := tokens[i];
        assert tokens[..i + 1] == tokens[..i] + [t];
        if t !in seen {
          seen := seen + {t};
          df := df[t := (if t in df then df[t] else 0) + 1];
        }
      }
      assert tokens[..|tokens|] == tokens;
      docs := docs + [Doc(id, tokens)];
      assert docs[..|docs| - 1] == old(docs);
      forall term ensures Frequency(df, term) == DocFrequency(docs, term) {
        assert Frequency(before, term) == DocFrequency(old(docs), term);
      }
    }

    method Search(ln: real -> real, query: string, limit: nat) returns (r: seq<Scored>)
      ensures r == Best(ln, docs, df, QueryTokens(letters, query), limit)
    {
      if docs == [] || query == [] {
        NothingToFind(ln, docs, df, |docs|);
        return [];
      }
      var tokens := Tokenize(letters, query);
      r := [];
      var total := 0;
      for d := 0 to |docs|
        invariant total == TotalLength(docs[..d])
      {
        assert docs[..d + 1][..d] == docs[..d];
        total := total + |docs[d].tokens|;
      }
      assert docs[..|docs|] == docs;
      for d := 0 to |docs|
        invariant r == RankedHits(ln, docs, df, tokens, d)
      {
        var score := ScoreOf(ln, total, tokens, d);
        if score > 0.0 { r := InsertRanked(r, Scored(d, score)); }
      }
      if |r| > limit { r := r[..limit]; }
    }

    /** The sum over the tokens of the query. */
    method ScoreOf(ln: real -> real, total: nat, query: seq<string>, d: nat) returns (score: real)
      requires d < |docs| && total == TotalLength(docs)
      ensures score == Score(ln, docs, df, query, docs[d].tokens)
    {
      var frequencies := TermFrequencies(docs[d].tokens);
      score := 0.0;
      for q := 0 to |query|
        invariant score == Score(ln, docs, df, query[..q], docs[d].tokens)
      {
        var term := query[q];
        assert query[..q + 1][..q] == query[..q];
        var worth := TermWorth(ln, total, d, term, if term in frequencies then frequencies[term] else 0);
        score := score + worth;
      }
      assert query[..|query|] == query;
    }

    /** What a token is worth that document `d` holds `tf` times. */
    method TermWorth(ln: real -> real, total: nat, d: nat, term: string, tf: nat) returns (worth: real)
      requires d < |docs| && total == TotalLength(docs) && tf == Count(docs[d].tokens, term)
      ensures worth == TermScore(ln, docs, df, docs[d].tokens, term)
    {
      if tf == 0 { return 0.0; }
      SomeLength(docs, docs[d].tokens, term);
      LengthPartIsPositive(|docs[d].tokens|, total, |docs|);
      var n, length := |docs| as real, |docs[d].tokens| as real;
      var holders := (if term in df then df[term] else 0) as real;
      var idf := ln((n - holders + 0.5) / (holders + 0.5) + 1.0);
      var damping := 1.5 * (1.0 - 0.75 + 0.75 * (length / (total as real / n)));
      return idf * ((tf as real * (1.5 + 1.0)) / (tf as real + damping));
    }
  }

  /** An empty query is not even tokenized. */
  function QueryTokens(letters: Alphabet, query: string): seq<string> {
    if query == [] then [] else Tokenize(letters, query)
  }

  lemma {:induction false} NothingToFind(ln: real -> real, docs: seq<Doc>, df: Table, n: nat)
    requires n <= |docs|
    ensures RankedHits(ln, docs, df, [], n) == []
  {
    if n > 0 { NothingToFind(ln, docs, df, n - 1); }
  }
}
