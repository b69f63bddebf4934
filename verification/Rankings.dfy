/** Result pages, and the comparison that accepts or refuses a renumbering. */
module Rankings {
  import opened ChunkIds
  import opened Options
  import opened Ranks
  import opened Vectors

  datatype Hit = Hit(doc: ChunkId, score: real)
  type Page = seq<Hit>

  // ── What a page is ───────────────────────────────────────────────

  ghost predicate Ascending(p: Page) {
    forall i, j | 0 <= i <= j < |p| :: p[i].score <= p[j].score
  }

  ghost predicate Distinct(p: Page) {
    forall i, j | 0 <= i < j < |p| :: p[i].doc != p[j].doc
  }

  function Docs(p: Page): set<ChunkId> {
    set h | h in p :: h.doc
  }

  /** A best-first page of at most `k` of these scored documents, with ties
      broken in any way the executor likes. */
  ghost predicate IsPage(p: Page, scores: map<ChunkId, real>, k: nat) {
    && Ascending(p)
    && Distinct(p)
    && (forall i | 0 <= i < |p| :: p[i].doc in scores && scores[p[i].doc] == p[i].score)
    && |p| == (if k < |scores| then k else |scores|)
    && (forall d, i | d in scores && d !in Docs(p) && 0 <= i < |p| :: p[i].score <= scores[d])
  }

  lemma DocAt(p: Page, i: nat)
    requires i < |p|
    ensures p[i].doc in Docs(p)
  {
    assert p[i] in p;
  }

  lemma {:induction false} DocsSize(p: Page)
    requires Distinct(p)
    ensures |Docs(p)| == |p|
  {
    if p != [] {
      var k := |p| - 1;
      DocsSize(p[..k]);
      NotAmong(p, k);
      DocsExtend(p[..k], p[k]);
      assert p == p[..k] + [p[k]];
    }
  }

  lemma NotAmong(p: Page, k: nat)
    requires Distinct(p) && k < |p|
    ensures p[k].doc !in Docs(p[..k])
  {
    forall h | h in p[..k] ensures h.doc != p[k].doc {
      var i :| 0 <= i < k && p[i] == h;
    }
  }

  lemma DocsExtend(p: Page, h: Hit)
    ensures Docs(p + [h]) == Docs(p) + {h.doc}
  {
    forall d | d in Docs(p) + {h.doc} ensures d in Docs(p + [h]) {
      if d == h.doc {
        assert h in p + [h];
      } else {
        var g :| g in p && g.doc == d;
        assert g in p + [h];
      }
    }
  }

  ghost predicate IsBest(c: ChunkId, rest: set<ChunkId>, scores: map<ChunkId, real>)
    requires rest <= scores.Keys
  {
    c in rest && forall d | d in rest :: scores[c] <= scores[d]
  }

  lemma {:induction false} BestExists(rest: set<ChunkId>, scores: map<ChunkId, real>) returns (best: ChunkId)
    requires rest != {} && rest <= scores.Keys
    ensures IsBest(best, rest, scores)
  {
    best := Pick(rest);
    var others := rest - {best};
    if others != {} {
      var c := BestExists(others, scores);
      forall d | d in rest ensures scores[c] <= scores[d] || scores[best] <= scores[d] {
        assert d in others || d == best;
      }
      if scores[c] < scores[best] { best := c; }
    } else {
      assert forall d | d in rest :: d == best || d in others;
    }
  }

  /** The page so far, and the documents it has yet to consider. */
  ghost predicate Partial(page: Page, rest: set<ChunkId>, scores: map<ChunkId, real>) {
    && Ascending(page)
    && Distinct(page)
    && rest <= scores.Keys && Docs(page) == scores.Keys - rest
    && (forall i | 0 <= i < |page| :: page[i].doc in scores && scores[page[i].doc] == page[i].score)
    && (forall d, i | d in rest && 0 <= i < |page| :: page[i].score <= scores[d])
  }

  lemma PartialStep(page: Page, rest: set<ChunkId>, scores: map<ChunkId, real>, c: ChunkId)
    requires Partial(page, rest, scores) && c in rest
    requires forall d | d in rest :: scores[c] <= scores[d]
    ensures Partial(page + [Hit(c, scores[c])], rest - {c}, scores)
  {
    DocsExtend(page, Hit(c, scores[c]));
    forall i | 0 <= i < |page| ensures page[i].doc != c { DocAt(page, i); }
  }

  lemma PartialIsPage(page: Page, rest: set<ChunkId>, scores: map<ChunkId, real>, k: nat)
    requires Partial(page, rest, scores)
    requires |page| <= k && (|page| == k || rest == {})
    ensures IsPage(page, scores, k)
  {
    DocsSize(page);
    assert scores.Keys == Docs(page) + rest;
    assert |scores| == |page| + |rest|;
  }

  /** `ORDER BY score LIMIT k`: any choice among tied documents. */
  method TopK(scores: map<ChunkId, real>, k: nat) returns (page: Page)
    ensures IsPage(page, scores, k)
  {
    page := [];
    var rest := scores.Keys;
    assert Docs(page) == {};
    while |page| < k && rest != {}
      invariant Partial(page, rest, scores) && |page| <= k
      decreases |rest|
    {
      ghost var best := BestExists(rest, scores);
      assert best in rest && forall d | d in rest :: scores[best] <= scores[d];
      var c :| c in rest && forall d | d in rest :: scores[c] <= scores[d];
      PartialStep(page, rest, scores, c);
      page := page + [Hit(c, scores[c])];
      rest := rest - {c};
    }
    PartialIsPage(page, rest, scores, k);
  }

  function Negative(scores: map<ChunkId, real>): map<ChunkId, real> {
    map c | c in scores && scores[c] < 0.0 :: scores[c]
  }

  /** The `vchord` query cuts the page first and drops the unmatched documents
      (score 0) after; that is still a page of the matching documents. */
  lemma CutThenFilter(p: Page, scores: map<ChunkId, real>, k: nat, n: nat)
    requires IsPage(p, scores, k) && n <= |p|
    requires forall i | 0 <= i < n :: p[i].score < 0.0
    requires n < |p| ==> p[n].score >= 0.0
    ensures IsPage(p[..n], Negative(scores), k)
  {
    var q, neg := p[..n], Negative(scores);
    forall i | 0 <= i < |q| ensures q[i].doc in neg && neg[q[i].doc] == q[i].score { }
    forall d, i | d in neg && d !in Docs(q) && 0 <= i < |q| ensures q[i].score <= neg[d] {
      OutsidePrefix(p, scores, k, n, d);
    }
    PrefixLength(p, scores, k, n);
  }

  /** A matching document the cut left out is not on the uncut page either. */
  lemma OutsidePrefix(p: Page, scores: map<ChunkId, real>, k: nat, n: nat, d: ChunkId)
    requires IsPage(p, scores, k) && n <= |p|
    requires n < |p| ==> p[n].score >= 0.0
    requires d in Negative(scores) && d !in Docs(p[..n])
    ensures d !in Docs(p) && n == |p|
  {
    forall i | 0 <= i < |p| ensures p[i].doc != d {
      if i < n { DocAt(p[..n], i); } else { NotNegative(p, scores, k, n, i); }
    }
  }

  lemma NotNegative(p: Page, scores: map<ChunkId, real>, k: nat, n: nat, i: nat)
    requires IsPage(p, scores, k) && n <= i < |p| && p[n].score >= 0.0
    ensures p[i].doc !in Negative(scores)
  {
    assert p[n].score <= p[i].score;
  }

  lemma PrefixLength(p: Page, scores: map<ChunkId, real>, k: nat, n: nat)
    requires IsPage(p, scores, k) && n <= |p|
    requires forall i | 0 <= i < n :: p[i].score < 0.0
    requires n < |p| ==> p[n].score >= 0.0
    ensures n == if k < |Negative(scores)| then k else |Negative(scores)|
  {
    var q, neg := p[..n], Negative(scores);
    DocsSize(q);
    PrefixMatches(p, scores, k, n);
    SubsetSize(Docs(q), neg.Keys);
    SubsetSize(neg.Keys, scores.Keys);
    if n < |p| || |scores| <= k {
      MatchesInPrefix(p, scores, k, n);
      SubsetSize(neg.Keys, Docs(q));
    }
  }

  lemma PrefixMatches(p: Page, scores: map<ChunkId, real>, k: nat, n: nat)
    requires IsPage(p, scores, k) && n <= |p|
    requires forall i | 0 <= i < n :: p[i].score < 0.0
    ensures Docs(p[..n]) <= Negative(scores).Keys
  {
    forall d | d in Docs(p[..n]) ensures d in Negative(scores) {
      var h :| h in p[..n] && h.doc == d;
      var i :| 0 <= i < n && p[i] == h;
    }
  }

  /** Every matching document is on the prefix, if the page was cut for want of a
      match or not cut at all. */
  lemma MatchesInPrefix(p: Page, scores: map<ChunkId, real>, k: nat, n: nat)
    requires IsPage(p, scores, k) && n <= |p| && (n < |p| || |scores| <= k)
    requires n < |p| ==> p[n].score >= 0.0
    ensures Negative(scores).Keys <= Docs(p[..n])
  {
    if |scores| <= k { AllDocs(p, scores, k); }
    forall d | d in Negative(scores) ensures d in Docs(p[..n]) {
      if d !in Docs(p[..n]) { OutsidePrefix(p, scores, k, n, d); }
    }
  }

  lemma AllDocs(p: Page, scores: map<ChunkId, real>, k: nat)
    requires IsPage(p, scores, k) && |scores| <= k
    ensures Docs(p) == scores.Keys
  {
    DocsSize(p);
    forall d | d in Docs(p) ensures d in scores {
      var h :| h in p && h.doc == d;
      var i :| 0 <= i < |p| && p[i] == h;
    }
    SubsetSize(Docs(p), scores.Keys);
  }

  // ── The comparison ───────────────────────────────────────────────

  datatype Difference =
    | Lengths(before: nat, after: nat)
    | RankScore
    | AboveLast
    | DocumentScore

  function Abs(x: real): real {
    if x < 0.0 then -x else x
  }

  function Greater(x: real, y: real): real {
    if x < y then y else x
  }

  /** `math.isclose` with both tolerances set to `tol`. */
  predicate IsClose(a: real, b: real, tol: real) {
    Abs(a - b) <= Greater(tol * Greater(Abs(a), Abs(b)), tol)
  }

  function Above(p: Page, boundary: real, tol: real): set<ChunkId> {
    set h | h in p && h.score < boundary - tol :: h.doc
  }

  /** `dict(after)`: the last entry of a document wins. */
  function ScoreIn(p: Page, d: ChunkId): Option<real> {
    if p == [] then None
    else if p[|p| - 1].doc == d then Some(p[|p| - 1].score)
    else ScoreIn(p[..|p| - 1], d)
  }

  function RankingDifference(before: Page, after: Page, tol: real): Option<Difference> {
    if |before| != |after| then Some(Lengths(|before|, |after|))
    else if RanksDiffer(before, after, tol) then Some(RankScore)
    else if before == [] then None
    else
      var boundary := before[|before| - 1].score;
      if Above(before, boundary, tol) != Above(after, boundary, tol) then Some(AboveLast)
      else if DocumentsDiffer(before, after, tol) then Some(DocumentScore)
      else None
  }

  predicate RanksDiffer(before: Page, after: Page, tol: real)
    requires |before| == |after|
  {
    exists i | 0 <= i < |before| :: !IsClose(before[i].score, after[i].score, tol)
  }

  predicate DocumentsDiffer(before: Page, after: Page, tol: real) {
    exists i | 0 <= i < |before| :: DiffersIn(before[i], after, tol)
  }

  predicate DiffersIn(h: Hit, after: Page, tol: real) {
    var now := ScoreIn(after, h.doc);
    now.Some? && !IsClose(h.score, now.value, tol)
  }

  lemma {:induction false} ScoreInDistinct(p: Page, i: nat)
    requires Distinct(p) && i < |p|
    ensures ScoreIn(p, p[i].doc) == Some(p[i].score)
  {
    if i < |p| - 1 {
      ScoreInDistinct(p[..|p| - 1], i);
    }
  }

  lemma {:induction false} ScoreInSound(p: Page, d: ChunkId)
    ensures match ScoreIn(p, d) case Some(s) => Hit(d, s) in p case None => d !in Docs(p)
  {
    if p != [] && p[|p| - 1].doc != d {
      var k := |p| - 1;
      ScoreInSound(p[..k], d);
      assert p == p[..k] + [p[k]];
      DocsExtend(p[..k], p[k]);
    } else if p == [] {
      assert Docs(p) == {};
    }
  }

  /** Two pages of the same scores agree on the score at every rank. */
  lemma SameScoreAtRank(p: Page, q: Page, scores: map<ChunkId, real>, k: nat, i: nat)
    requires IsPage(p, scores, k) && IsPage(q, scores, k) && i < |p|
    ensures p[i].score == q[i].score
  {
    NotBetterAtRank(p, q, scores, k, i);
    NotBetterAtRank(q, p, scores, k, i);
  }

  lemma NotBetterAtRank(p: Page, q: Page, scores: map<ChunkId, real>, k: nat, i: nat)
    requires IsPage(p, scores, k) && IsPage(q, scores, k) && i < |p|
    ensures p[i].score >= q[i].score
  {
    if p[i].score < q[i].score {
      // i+1 documents score below q[i]; all of them must sit among q's first i
      var few := Docs(q[..i]);
      var many := Docs(p[..i + 1]);
      forall d | d in many ensures d in few {
        var h :| h in p[..i + 1] && h.doc == d;
        var a :| 0 <= a <= i && p[a] == h;
        BetterComesFirst(p, q, scores, k, i, a);
      }
      DocsSize(q[..i]);
      DocsSize(p[..i + 1]);
      SubsetSize(many, few);
      assert false;
    }
  }

  lemma MustBeOnPage(q: Page, scores: map<ChunkId, real>, k: nat, d: ChunkId, i: nat)
    requires IsPage(q, scores, k) && i < |q| && d in scores && scores[d] < q[i].score
    ensures d in Docs(q)
  {
  }

  lemma EarlierRank(q: Page, b: nat, i: nat)
    requires Ascending(q) && b < |q| && i < |q| && q[b].score < q[i].score
    ensures b < i
  {
  }

  lemma BetterComesFirst(p: Page, q: Page, scores: map<ChunkId, real>, k: nat, i: nat, a: nat)
    requires IsPage(p, scores, k) && IsPage(q, scores, k) && a <= i < |p|
    requires p[i].score < q[i].score
    ensures p[a].doc in Docs(q[..i])
  {
    var d := p[a].doc;
    assert p[a].score <= p[i].score;
    MustBeOnPage(q, scores, k, d, i);
    var g :| g in q && g.doc == d;
    var b :| 0 <= b < |q| && q[b] == g;
    EarlierRank(q, b, i);
    DocAt(q[..i], b);
  }

  lemma AboveSame(p: Page, q: Page, scores: map<ChunkId, real>, k: nat, boundary: real, tol: real)
    requires IsPage(p, scores, k) && IsPage(q, scores, k) && p != [] && tol >= 0.0
    requires boundary == q[|q| - 1].score
    ensures Above(p, boundary, tol) <= Above(q, boundary, tol)
  {
    forall d | d in Above(p, boundary, tol) ensures d in Above(q, boundary, tol) {
      var h :| h in p && h.score < boundary - tol && h.doc == d;
      var i :| 0 <= i < |p| && p[i] == h;
      MustBeOnPage(q, scores, k, d, |q| - 1);
      var g :| g in q && g.doc == d;
      var j :| 0 <= j < |q| && q[j] == g;
      assert q[j].score == scores[d];
    }
  }

  /** The comparison accepts any two pages of one score function, however their
      ties fell, at every tolerance. */
  lemma PagesAccepted(p: Page, q: Page, scores: map<ChunkId, real>, k: nat, tol: real)
    requires IsPage(p, scores, k) && IsPage(q, scores, k) && tol >= 0.0
    ensures RankingDifference(p, q, tol).None?
  {
    RanksAgree(p, q, scores, k, tol);
    SameLength(p, q, scores, k);
    hide IsPage, Above, RanksDiffer, DocumentsDiffer;
    if p != [] {
      SameScoreAtRank(p, q, scores, k, |p| - 1);
      AboveSame(p, q, scores, k, p[|p| - 1].score, tol);
      AboveSame(q, p, scores, k, p[|p| - 1].score, tol);
      DocumentsAgree(p, q, scores, k, tol);
    }
  }

  lemma SameLength(p: Page, q: Page, scores: map<ChunkId, real>, k: nat)
    requires IsPage(p, scores, k) && IsPage(q, scores, k)
    ensures |p| == |q|
  {
  }

  lemma RanksAgree(p: Page, q: Page, scores: map<ChunkId, real>, k: nat, tol: real)
    requires IsPage(p, scores, k) && IsPage(q, scores, k) && tol >= 0.0
    ensures !RanksDiffer(p, q, tol)
  {
    forall i | 0 <= i < |p| ensures IsClose(p[i].score, q[i].score, tol) {
      SameScoreAtRank(p, q, scores, k, i);
      SelfClose(p[i].score, tol);
    }
  }

  lemma DocumentsAgree(p: Page, q: Page, scores: map<ChunkId, real>, k: nat, tol: real)
    requires IsPage(p, scores, k) && IsPage(q, scores, k) && tol >= 0.0
    ensures !DocumentsDiffer(p, q, tol)
  {
    forall i | 0 <= i < |p| ensures !DiffersIn(p[i], q, tol) {
      DocumentAgrees(p, q, scores, k, tol, i);
    }
  }

  lemma SelfClose(a: real, tol: real)
    requires tol >= 0.0
    ensures IsClose(a, a, tol)
  {
  }

  lemma DocumentAgrees(p: Page, q: Page, scores: map<ChunkId, real>, k: nat, tol: real, i: nat)
    requires IsPage(p, scores, k) && IsPage(q, scores, k) && tol >= 0.0 && i < |p|
    ensures !DiffersIn(p[i], q, tol)
  {
    ScoreInSound(q, p[i].doc);
    var now := ScoreIn(q, p[i].doc);
    if now.Some? {
      var j :| 0 <= j < |q| && q[j] == Hit(p[i].doc, now.value);
      assert now.value == p[i].score;
      SelfClose(p[i].score, tol);
    }
  }

  /** The documents a page gives this score. */
  function TieGroup(p: Page, score: real): set<ChunkId> {
    set h | h in p && h.score == score :: h.doc
  }

  ghost predicate SameUpToLastTie(p: Page, q: Page) {
    && |p| == |q|
    && (forall i | 0 <= i < |p| :: p[i].score == q[i].score)
    && (p != [] ==> forall s: real {:trigger TieGroup(p, s)} | s < p[|p| - 1].score :: TieGroup(p, s) == TieGroup(q, s))
  }

  lemma InTieGroup(p: Page, d: ChunkId, s: real)
    ensures d in TieGroup(p, s) <==> Hit(d, s) in p
  {
    if Hit(d, s) in p {
      assert d in TieGroup(p, s);
    }
  }

  lemma OneHit(p: Page, h: Hit, i: nat)
    requires Distinct(p) && i < |p| && p[i].doc == h.doc
    ensures h in p <==> h == p[i]
  {
  }

  lemma AcceptedOneGroup(p: Page, q: Page, s: real)
    requires Ascending(p) && Ascending(q) && Distinct(p) && Distinct(q) && p != []
    requires RankingDifference(p, q, 0.0).None? && s < p[|p| - 1].score
    ensures TieGroup(p, s) == TieGroup(q, s)
  {
    forall i | 0 <= i < |p| ensures p[i].score == q[i].score {
      assert IsClose(p[i].score, q[i].score, 0.0);
    }
    var b := p[|p| - 1].score;
    assert Above(p, b, 0.0) == Above(q, b, 0.0);
    forall d ensures d in TieGroup(p, s) <==> d in TieGroup(q, s) {
      InTieGroup(p, d, s);
      InTieGroup(q, d, s);
      if Hit(d, s) in p || Hit(d, s) in q { AcceptedHit(p, q, d, s, b); }
    }
  }

  lemma AcceptedHit(p: Page, q: Page, d: ChunkId, s: real, b: real)
    requires Distinct(p) && Distinct(q) && s < b
    requires Above(p, b, 0.0) == Above(q, b, 0.0) && !DocumentsDiffer(p, q, 0.0)
    requires Hit(d, s) in p || Hit(d, s) in q
    ensures Hit(d, s) in p && Hit(d, s) in q
  {
    assert d in Above(p, b, 0.0) && d in Above(q, b, 0.0);
    var g :| g in p && g.score < b - 0.0 && g.doc == d;
    var h :| h in q && h.score < b - 0.0 && h.doc == d;
    var i :| 0 <= i < |p| && p[i] == g;
    var j :| 0 <= j < |q| && q[j] == h;
    ScoreInDistinct(q, j);
    assert !DiffersIn(p[i], q, 0.0);
    assert g == h;
    OneHit(p, Hit(d, s), i);
    OneHit(q, Hit(d, s), j);
  }

  /** At tolerance zero the comparison accepts two sorted pages exactly when every
      rank keeps its score and every tie group strictly better than the last
      score holds the same documents. */
  lemma AcceptedIff(p: Page, q: Page)
    requires Ascending(p) && Ascending(q) && Distinct(p) && Distinct(q)
    ensures RankingDifference(p, q, 0.0).None? <==> SameUpToLastTie(p, q)
  {
    if RankingDifference(p, q, 0.0).None? {
      forall i | 0 <= i < |p| ensures p[i].score == q[i].score {
        assert IsClose(p[i].score, q[i].score, 0.0);
      }
      if p != [] {
        forall s: real | s < p[|p| - 1].score ensures TieGroup(p, s) == TieGroup(q, s) {
          AcceptedOneGroup(p, q, s);
        }
      }
    }
    if SameUpToLastTie(p, q) && p != [] {
      SameTiesAccepted(p, q);
    }
  }

  lemma SameTiesAccepted(p: Page, q: Page)
    requires Ascending(p) && Ascending(q) && Distinct(p) && Distinct(q) && p != []
    requires SameUpToLastTie(p, q)
    ensures RankingDifference(p, q, 0.0).None?
  {
    var b := p[|p| - 1].score;
    forall d, s: real | s < b ensures Hit(d, s) in p <==> Hit(d, s) in q {
      assert TieGroup(p, s) == TieGroup(q, s);
      InTieGroup(p, d, s);
      InTieGroup(q, d, s);
    }
    forall d ensures d in Above(p, b, 0.0) <==> d in Above(q, b, 0.0) {
      if d in Above(p, b, 0.0) {
        var h :| h in p && h.score < b - 0.0 && h.doc == d;
        assert Hit(d, h.score) in q;
      }
      if d in Above(q, b, 0.0) {
        var h :| h in q && h.score < b - 0.0 && h.doc == d;
        assert Hit(d, h.score) in p;
      }
    }
    forall i | 0 <= i < |p| ensures !DiffersIn(p[i], q, 0.0) {
      ScoreInSound(q, p[i].doc);
      var now := ScoreIn(q, p[i].doc);
      if now.Some? {
        SameDocSameScore(p, q, i, now.value);
      }
    }
  }

  lemma SameDocSameScore(p: Page, q: Page, i: nat, now: real)
    requires Ascending(p) && Ascending(q) && Distinct(p) && Distinct(q)
    requires SameUpToLastTie(p, q) && i < |p| && Hit(p[i].doc, now) in q
    ensures p[i].score == now
  {
    var d, was, b := p[i].doc, p[i].score, p[|p| - 1].score;
    var j :| 0 <= j < |q| && q[j] == Hit(d, now);
    assert was <= b && now <= b;
    OneHit(p, Hit(d, now), i);
    OneHit(q, Hit(d, was), j);
    assert was < b ==> TieGroup(p, was) == TieGroup(q, was);
    assert now < b ==> TieGroup(p, now) == TieGroup(q, now);
    InTieGroup(p, d, was);
    InTieGroup(q, d, was);
    InTieGroup(p, d, now);
    InTieGroup(q, d, now);
  }

  // ── At any tolerance ─────────────────────────────────────────────

  /** Two scores no further apart than `tol`, or than `tol` times the larger of them. */
  predicate Near(a: real, b: real, tol: real) {
    var d := if a < b then b - a else a - b;
    d <= tol || d <= tol * a || d <= tol * -a || d <= tol * b || d <= tol * -b
  }

  function Scaled(t: real, x: real): real {
    t * x
  }

  lemma ScaledLess(t: real, x: real, y: real)
    requires t >= 0.0 && x <= y
    ensures Scaled(t, x) <= Scaled(t, y)
  {
  }

  lemma ScaledMax(t: real, x: real, y: real)
    requires t >= 0.0
    ensures Scaled(t, Greater(x, y)) == Greater(Scaled(t, x), Scaled(t, y))
  {
    hide Scaled;
    if x < y { ScaledLess(t, x, y); } else { ScaledLess(t, y, x); }
  }

  lemma ScaledAbs(t: real, x: real)
    requires t >= 0.0
    ensures Scaled(t, Abs(x)) == Greater(Scaled(t, x), Scaled(t, -x))
  {
    hide Scaled;
    if x < 0.0 { ScaledLess(t, x, -x); } else { ScaledLess(t, -x, x); }
  }

  lemma InScale(a: real, b: real, tol: real)
    ensures IsClose(a, b, tol) <==> Abs(a - b) <= Greater(Scaled(tol, Greater(Abs(a), Abs(b))), tol)
    ensures var d := Abs(a - b);
      Near(a, b, tol) <==>
        d <= tol || d <= Scaled(tol, a) || d <= Scaled(tol, -a) || d <= Scaled(tol, b) || d <= Scaled(tol, -b)
  {
  }

  lemma NearIsClose(a: real, b: real, tol: real)
    requires tol >= 0.0
    ensures IsClose(a, b, tol) <==> Near(a, b, tol)
  {
    hide Scaled, IsClose, Near;
    InScale(a, b, tol);
    ScaledMax(tol, Abs(a), Abs(b));
    ScaledAbs(tol, a);
    ScaledAbs(tol, b);
  }

  /** The page lists this document more than `tol` better than its score `last`. */
  ghost predicate Beats(p: Page, d: ChunkId, last: real, tol: real) {
    exists i :: 0 <= i < |p| && p[i].doc == d && p[i].score < last - tol
  }

  ghost predicate SameBeaters(p: Page, q: Page, last: real, tol: real) {
    forall d :: Beats(p, d, last, tol) <==> Beats(q, d, last, tol)
  }

  /** What an accepted pair of pages shows: as many hits, near scores rank by rank,
      the same documents more than `tol` better than the last score, and near scores
      for every document on both. */
  ghost predicate Agreeing(p: Page, q: Page, tol: real) {
    && |p| == |q|
    && (forall i | 0 <= i < |p| :: Near(p[i].score, q[i].score, tol))
    && (p != [] ==> SameBeaters(p, q, p[|p| - 1].score, tol))
    && (forall i, j | 0 <= i < |p| && 0 <= j < |q| && p[i].doc == q[j].doc :: Near(p[i].score, q[j].score, tol))
  }

  lemma BeatsIsAbove(p: Page, d: ChunkId, last: real, tol: real)
    ensures Beats(p, d, last, tol) <==> d in Above(p, last, tol)
  {
    if d in Above(p, last, tol) {
      var h :| h in p && h.score < last - tol && h.doc == d;
      var i :| 0 <= i < |p| && p[i] == h;
    }
  }

  lemma SameAbove(p: Page, q: Page, last: real, tol: real)
    ensures Above(p, last, tol) == Above(q, last, tol) <==> SameBeaters(p, q, last, tol)
  {
    forall d ensures Beats(p, d, last, tol) <==> d in Above(p, last, tol) { BeatsIsAbove(p, d, last, tol); }
    forall d ensures Beats(q, d, last, tol) <==> d in Above(q, last, tol) { BeatsIsAbove(q, d, last, tol); }
    hide Beats, Above;
  }

  lemma RanksNear(p: Page, q: Page, tol: real)
    requires |p| == |q| && tol >= 0.0
    ensures !RanksDiffer(p, q, tol) <==> forall i | 0 <= i < |p| :: Near(p[i].score, q[i].score, tol)
  {
    forall i | 0 <= i < |p| ensures IsClose(p[i].score, q[i].score, tol) <==> Near(p[i].score, q[i].score, tol) {
      NearIsClose(p[i].score, q[i].score, tol);
    }
    hide IsClose, Near;
  }

  lemma DocumentNear(p: Page, q: Page, tol: real, i: nat)
    requires Distinct(q) && tol >= 0.0 && i < |p|
    ensures !DiffersIn(p[i], q, tol) <==>
      forall j | 0 <= j < |q| && p[i].doc == q[j].doc :: Near(p[i].score, q[j].score, tol)
  {
    ScoreInSound(q, p[i].doc);
    var now := ScoreIn(q, p[i].doc);
    if now.Some? {
      NearIsClose(p[i].score, now.value, tol);
      var n :| 0 <= n < |q| && q[n] == Hit(p[i].doc, now.value);
      hide IsClose, Near;
      forall j | 0 <= j < |q| && p[i].doc == q[j].doc ensures q[j].score == now.value { ScoreInDistinct(q, j); }
    } else {
      forall j | 0 <= j < |q| ensures p[i].doc != q[j].doc { DocAt(q, j); }
    }
  }

  /** At every tolerance the comparison accepts two pages exactly when they agree. */
  lemma AcceptedWithin(p: Page, q: Page, tol: real)
    requires Distinct(p) && Distinct(q) && tol >= 0.0
    ensures RankingDifference(p, q, tol).None? <==> Agreeing(p, q, tol)
  {
    if |p| == |q| {
      RanksNear(p, q, tol);
      forall i | 0 <= i < |p|
        ensures !DiffersIn(p[i], q, tol) <==>
          forall j | 0 <= j < |q| && p[i].doc == q[j].doc :: Near(p[i].score, q[j].score, tol)
      {
        DocumentNear(p, q, tol, i);
      }
      if p != [] { SameAbove(p, q, p[|p| - 1].score, tol); }
      hide RanksDiffer, DiffersIn, Near, Above, SameBeaters;
    }
  }
}
