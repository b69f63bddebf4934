/** `redact`: what its passes leave, and the gate in front of them. */
module Redaction {
  import opened Options
  import opened Patterns
  import opened Pulling

  // ── A whole pass ─────────────────────────────────────────────────

  lemma SameText(s: string, y: string)
    requires SameTail(s, 0, y, 0)
    ensures s == y
  {
  }

  /** Scanning may go on at `a` in `s` as at `b` in `y`. */
  ghost predicate Resumes(q: Pattern, word: char -> bool, s: string, a: nat, y: string, b: nat) {
    && SameTail(s, a, y, b)
    && (LooksBack(q) ==> (a == 0 && b == 0) || (!Matches(q, word, s, a) && !Matches(q, word, y, b)))
  }

  lemma MatchMoves(q: Pattern, word: char -> bool, s: string, a: nat, y: string, b: nat, i: nat)
    requires SameTail(s, a, y, b) && (i > a || (i == a && !LooksBack(q))) && Matches(q, word, s, i)
    ensures Matches(q, word, y, i - a + b)
  {
    var k: nat, sep: nat, c: nat, e: nat :| Parse(q, word, s, i, k, sep, c, e);
    ParseShifts(q, word, s, a, y, b, i, k, sep, c, e);
  }

  lemma MatchesShift(q: Pattern, word: char -> bool, s: string, a: nat, y: string, b: nat, i: nat)
    requires Resumes(q, word, s, a, y, b) && i >= a && Matches(q, word, y, i - a + b)
    ensures Matches(q, word, s, i)
  {
    hide Parse;
    if a == 0 && b == 0 {
      SameText(s, y);
    } else {
      MatchMoves(q, word, y, b, s, a, i - a + b);
    }
  }

  lemma GreedyShifts(q: Pattern, word: char -> bool, s: string, a: nat, y: string, b: nat,
                     i: nat, k: nat, sep: nat, c: nat, e: nat)
    requires Resumes(q, word, s, a, y, b) && i >= a && Greedy(q, word, s, i, k, sep, c, e)
    ensures Greedy(q, word, y, i - a + b, k - a + b, sep - a + b, c - a + b, e - a + b)
  {
    hide Parse;
    if a == 0 && b == 0 {
      SameText(s, y);
    } else {
      assert Matches(q, word, s, i);
      GreedyMoves(q, word, s, a, y, b, i, k, sep, c, e);
    }
  }

  lemma GreedyMoves(q: Pattern, word: char -> bool, s: string, a: nat, y: string, b: nat,
                    i: nat, k: nat, sep: nat, c: nat, e: nat)
    requires SameTail(s, a, y, b) && (i > a || (i == a && !LooksBack(q))) && Greedy(q, word, s, i, k, sep, c, e)
    ensures Greedy(q, word, y, i - a + b, k - a + b, sep - a + b, c - a + b, e - a + b)
  {
    ParseShifts(q, word, s, a, y, b, i, k, sep, c, e);
    var i1: nat := i - a + b;
    forall k1: nat, sep1: nat, c1: nat, e1: nat | Parse(q, word, y, i1, k1, sep1, c1, e1)
      ensures !Later(k - a + b, sep - a + b, c - a + b, e - a + b, k1, sep1, c1, e1)
    {
      ParseShifts(q, word, y, b, s, a, i1, k1, sep1, c1, e1);
    }
  }

  /** `x` so far, the rest of `s` from `from`; then `x` grown by a match. */
  lemma TextsAlign(q: Pattern, s: string, from: nat, x: string, i: nat, k: nat, e: nat)
    requires from <= i < k < e <= |s|
    ensures var y, x', u := x + s[from..], x + s[from..k] + Inserted(q), x + s[from..k] + Inserted(q) + s[e..];
      && SameTail(s, from, y, |x|) && SameHead(y, u, k + |x| - from) && |x'| == k + |x| - from + |Inserted(q)|
      && SameTail(y, e + |x| - from, u, |x'|) && SameTail(s, e, u, |x'|)
      && Placed(q, u, k + |x| - from)
  {
    hide Inserted;
  }

  /** One replacement of a pass, seen on the whole text. */
  lemma StepReplaces(q: Pattern, word: char -> bool, s: string, from: nat, x: string, m: Span) returns (b: nat, c: nat)
    requires from <= m.i < m.k < m.e <= |s| && MatchAt(q, word, s, m)
    requires Resumes(q, word, s, from, x + s[from..], |x|)
    ensures var d, x' := |x| - from, x + s[from..m.k] + Inserted(q);
      && Replaced(q, word, x + s[from..], m.i + d, m.k + d, b, c, m.e + d, x' + s[m.e..])
      && Resumes(q, word, s, m.e, x' + s[m.e..], |x'|)
  {
    hide Parse, Greedy, Matches, Inserted, SameHead, SameTail, Placed;
    TextsAlign(q, s, from, x, m.i, m.k, m.e);
    b, c := ReplacedIn(q, word, s, from, x + s[from..], |x|, m, x + s[from..m.k] + Inserted(q) + s[m.e..]);
  }

  lemma GreedyOrder(q: Pattern, word: char -> bool, s: string, i: nat, k: nat, b: nat, c: nat, e: nat)
    requires Greedy(q, word, s, i, k, b, c, e)
    ensures i < k <= b <= c < e <= |s|
  {
  }

  lemma ReplacedIn(q: Pattern, word: char -> bool, s: string, from: nat, y: string, a: nat, m: Span, u: string)
    returns (b: nat, c: nat)
    requires from <= m.i < m.k < m.e <= |s| && MatchAt(q, word, s, m) && Resumes(q, word, s, from, y, a)
    requires var d := a - from;
      && SameHead(y, u, m.k + d) && Placed(q, u, m.k + d)
      && SameTail(y, m.e + d, u, m.k + d + |Inserted(q)|) && SameTail(s, m.e, u, m.k + d + |Inserted(q)|)
    ensures var d := a - from;
      && Replaced(q, word, y, m.i + d, m.k + d, b, c, m.e + d, u)
      && Resumes(q, word, s, m.e, u, m.k + d + |Inserted(q)|)
  {
    hide Parse, Greedy, Matches, Inserted, SameHead, SameTail, Placed, Order;
    var d := a - from;
    var b0: nat, c0: nat :| Greedy(q, word, s, m.i, m.k, b0, c0, m.e);
    GreedyShifts(q, word, s, from, y, a, m.i, m.k, b0, c0, m.e);
    GreedyOrder(q, word, s, m.i, m.k, b0, c0, m.e);
    b, c := b0 + d, c0 + d;
    if LooksBack(q) {
      NoneAtRest(q, q, word, s, m.i, m.k, b0, c0, m.e);
      NoneInserted(q, word, y, m.i + d, m.k + d, b, c, m.e + d, u);
    }
  }

  lemma NoneInserted(q: Pattern, word: char -> bool, y: string, i: nat, k: nat, b: nat, c: nat, e: nat, u: string)
    requires LooksBack(q) && Greedy(q, word, y, i, k, b, c, e) && SameTail(y, e, u, k + |Inserted(q)|)
    ensures !Matches(q, word, u, k + |Inserted(q)|)
  {
    hide Parse, Greedy, Matches;
    if Matches(q, word, u, k + |Inserted(q)|) {
      StartsAfter(q, q, word, y, i, k, b, c, e, u, k + |Inserted(q)|);
    }
  }

  ghost predicate CleanBelow(p: Pattern, word: char -> bool, y: string, n: nat) {
    forall j: nat | j < n :: !Bad(p, word, y, j)
  }

  /** A pass leaves nothing for itself, and nothing for an earlier pass that had
      left nothing. */
  lemma {:induction false} SubCleans(p: Pattern, q: Pattern, word: char -> bool, s: string, from: nat, x: string)
    requires from <= |s| && Order(p) <= Order(q)
    requires Resumes(q, word, s, from, x + s[from..], |x|)
    requires if p == q then CleanBelow(p, word, x + s[from..], |x|) else Clean(p, word, x + s[from..])
    ensures Clean(p, word, Sub(q, word, s, from, x))
    decreases |s| - from
  {
    hide Parse;
    var y := x + s[from..];
    match Search(q, word, s, from)
    case None =>
      if p == q { NoneLeft(q, word, s, from, x); }
    case Some(m) =>
      var x' := x + s[from..m.k] + Inserted(q);
      var b, c := StepReplaces(q, word, s, from, x, m);
      StepCleans(p, q, word, s, from, y, |x|, m, b, c, x' + s[m.e..]);
      SubCleans(p, q, word, s, m.e, x');
  }

  lemma NoneLeft(q: Pattern, word: char -> bool, s: string, from: nat, x: string)
    requires from <= |s| && Resumes(q, word, s, from, x + s[from..], |x|)
    requires CleanBelow(q, word, x + s[from..], |x|)
    requires forall i | from <= i :: !Matches(q, word, s, i)
    ensures Clean(q, word, x + s[from..])
  {
    forall j: nat ensures !Bad(q, word, x + s[from..], j) {
      if j >= |x| && Bad(q, word, x + s[from..], j) {
        BadMatches(q, word, x + s[from..], j);
        MatchesShift(q, word, s, from, x + s[from..], |x|, j - |x| + from);
      }
    }
  }

  lemma StepCleans(p: Pattern, q: Pattern, word: char -> bool, s: string, from: nat, y: string, a: nat, m: Span,
                   b: nat, c: nat, u: string)
    requires from <= m.i < m.k < m.e <= |s| && Order(p) <= Order(q) && Resumes(q, word, s, from, y, a)
    requires forall i | from <= i < m.i :: !Matches(q, word, s, i)
    requires if p == q then CleanBelow(p, word, y, a) else Clean(p, word, y)
    requires var d := a - from; Replaced(q, word, y, m.i + d, m.k + d, b, c, m.e + d, u)
    ensures if p == q then CleanBelow(p, word, u, m.k + a - from + |Inserted(q)|) else Clean(p, word, u)
  {
    hide Parse;
    var d := a - from;
    forall j: nat | Bad(p, word, u, j) ensures p == q && j >= m.k + d + |Inserted(q)| {
      PullBad(p, q, word, y, m.i + d, m.k + d, b, c, m.e + d, u, j);
      if p == q { NotBadBefore(q, word, s, from, y, a, m.i, j); }
    }
  }

  lemma NotBadBefore(q: Pattern, word: char -> bool, s: string, from: nat, y: string, a: nat, i: nat, j: nat)
    requires from <= i && Resumes(q, word, s, from, y, a) && CleanBelow(q, word, y, a)
    requires forall n | from <= n < i :: !Matches(q, word, s, n)
    ensures j < i - from + a ==> !Bad(q, word, y, j)
  {
    if a <= j < i - from + a && Bad(q, word, y, j) {
      BadMatches(q, word, y, j);
      MatchesShift(q, word, s, from, y, a, j - a + from);
    }
  }

  // ── A pass over a clean text ─────────────────────────────────────

  lemma RedactedValue(y: string, k: nat, b: nat, c: nat, e: nat)
    requires Marked(y, k) && Labelled(y, k, b, c, e)
    ensures b == k && c <= k + 2 && e <= k + 12
    ensures Labelled(y, k, k, k + 2, k + 12)
  {
    MarkedChars(y, k);
    assert b == k;
    assert c <= k + 2;
    assert !(k + 12 < |y| && In(ValueChars, y[k + 12]));
  }

  lemma MarkedChars(y: string, k: nat)
    requires Marked(y, k)
    ensures k + 12 <= |y| && y[k] == ':' && y[k + 1] == ' ' && !Space(y[k + 2])
    ensures Run(ValueChars, y, k, k + 12)
  {
    var region := y[k..k + 12];
    assert forall n | k <= n < k + 12 :: y[n] == region[n - k];
    assert region[0] == ':' && region[1] == ' ' && region[2] == '<';
    assert forall n | 0 <= n < 12 :: In(ValueChars, region[n]);
  }

  lemma CleanLabelMatch(p: Pattern, word: char -> bool, y: string, i: nat, k: nat, b: nat, c: nat, e: nat)
    requires HasLabel(p) && Greedy(p, word, y, i, k, b, c, e) && Marked(y, k)
    ensures e == k + 12
  {
    RedactedValue(y, k, b, c, e);
    assert Parse(p, word, y, i, k, k, k + 2, k + 12);
    assert !Later(k, b, c, e, k, k, k + 2, k + 12);
  }

  /** On a clean text a match is replaced by itself. */
  lemma CleanMatch(p: Pattern, word: char -> bool, y: string, i: nat, k: nat, b: nat, c: nat, e: nat)
    requires Greedy(p, word, y, i, k, b, c, e) && !Bad(p, word, y, i)
    ensures y[k..e] == Inserted(p)
  {
    hide UserinfoAt, Labelled, CredentialAt, PrefixedAt, Boundary;
    assert Parse(p, word, y, i, k, b, c, e);
    assert Matches(p, word, y, i);
    if HasLabel(p) {
      LabelLength(p, word, y, i, k, b, c, e);
      CleanLabelMatch(p, word, y, i, k, b, c, e);
      hide LabelAt;
    }
  }

  lemma LabelLength(p: Pattern, word: char -> bool, y: string, i: nat, k: nat, b: nat, c: nat, e: nat)
    requires HasLabel(p) && Parse(p, word, y, i, k, b, c, e)
    ensures k == i + |Name(p)|
  {
  }

  lemma {:induction false} CleanFixed(p: Pattern, word: char -> bool, y: string, from: nat)
    requires Clean(p, word, y) && from <= |y|
    ensures Sub(p, word, y, from, y[..from]) == y
    decreases |y| - from
  {
    hide Parse, Bad, Inserted;
    match Search(p, word, y, from)
    case None =>
    case Some(m) =>
      var b: nat, c: nat :| Greedy(p, word, y, m.i, m.k, b, c, m.e);
      CleanMatch(p, word, y, m.i, m.k, b, c, m.e);
      assert y[..from] + y[from..m.k] + Inserted(p) == y[..m.e];
      CleanFixed(p, word, y, m.e);
  }

  // ── The promises ─────────────────────────────────────────────────

  lemma PassCleans(p: Pattern, q: Pattern, word: char -> bool, s: string)
    requires p == q || (Order(p) < Order(q) && Clean(p, word, s))
    ensures Clean(p, word, Sub(q, word, s, 0, ""))
  {
    assert "" + s[0..] == s;
    SubCleans(p, q, word, s, 0, "");
  }

  /** What `redact` returns has no match left, for any pattern, but the
      redactions themselves. */
  lemma RedactedIsClean(word: char -> bool, s: string, p: Pattern)
    ensures Clean(p, word, Redact(word, s))
  {
    var s1 := Sub(Userinfo, word, s, 0, "");
    var s2 := Sub(Authorization, word, s1, 0, "");
    var s3 := Sub(AccessToken, word, s2, 0, "");
    var s4 := Sub(Credential, word, s3, 0, "");
    match p
    case Userinfo =>
      PassCleans(p, p, word, s); PassCleans(p, Authorization, word, s1); PassCleans(p, AccessToken, word, s2);
      PassCleans(p, Credential, word, s3); PassCleans(p, Prefixed, word, s4);
    case Authorization =>
      PassCleans(p, p, word, s1); PassCleans(p, AccessToken, word, s2);
      PassCleans(p, Credential, word, s3); PassCleans(p, Prefixed, word, s4);
    case AccessToken =>
      PassCleans(p, p, word, s2); PassCleans(p, Credential, word, s3); PassCleans(p, Prefixed, word, s4);
    case Credential => PassCleans(p, p, word, s3); PassCleans(p, Prefixed, word, s4);
    case Prefixed => PassCleans(p, p, word, s4);
  }

  lemma CleanUnchanged(word: char -> bool, s: string)
    requires forall p :: Clean(p, word, s)
    ensures Redact(word, s) == s
  {
    assert s[..0] == "";
    forall p ensures Sub(p, word, s, 0, "") == s { CleanFixed(p, word, s, 0); }
  }

  /** Redacting twice is redacting once, on every text. */
  lemma RedactIdempotent(word: char -> bool, s: string)
    ensures Redact(word, Redact(word, s)) == Redact(word, s)
  {
    forall p ensures Clean(p, word, Redact(word, s)) { RedactedIsClean(word, s, p); }
    CleanUnchanged(word, Redact(word, s));
  }

  lemma PassFixed(p: Pattern, q: Pattern, word: char -> bool, s: string)
    requires p == q || (Order(p) < Order(q) && Clean(p, word, s))
    ensures Sub(p, word, Sub(q, word, s, 0, ""), 0, "") == Sub(q, word, s, 0, "")
    ensures Clean(p, word, Sub(q, word, s, 0, ""))
  {
    var y := Sub(q, word, s, 0, "");
    assert y[..0] == "";
    PassCleans(p, q, word, s);
    CleanFixed(p, word, y, 0);
  }

  /** What a pass has done stays done: started over after any of its passes, `redact`
      comes to the same end.  So no later pass may run before an earlier one. */
  lemma PassesInOrder(word: char -> bool, s: string)
    ensures var s1 := Sub(Userinfo, word, s, 0, "");
      var s2 := Sub(Authorization, word, s1, 0, "");
      var s3 := Sub(AccessToken, word, s2, 0, "");
      var s4 := Sub(Credential, word, s3, 0, "");
      Redact(word, s) == Redact(word, s1) == Redact(word, s2) == Redact(word, s3) == Redact(word, s4)
  {
    hide Sub, Clean;
    var s1 := Sub(Userinfo, word, s, 0, "");
    var s2 := Sub(Authorization, word, s1, 0, "");
    var s3 := Sub(AccessToken, word, s2, 0, "");
    PassFixed(Userinfo, Userinfo, word, s);
    PassFixed(Userinfo, Authorization, word, s1);
    PassFixed(Authorization, Authorization, word, s1);
    PassFixed(Userinfo, AccessToken, word, s2);
    PassFixed(Authorization, AccessToken, word, s2);
    PassFixed(AccessToken, AccessToken, word, s2);
    PassFixed(Userinfo, Credential, word, s3);
    PassFixed(Authorization, Credential, word, s3);
    PassFixed(AccessToken, Credential, word, s3);
    PassFixed(Credential, Credential, word, s3);
  }

  /** `_TRIGGER.search`. */
  ghost predicate Triggered(word: char -> bool, s: string) {
    exists i: nat, k: nat :: TriggerAt(word, s, i, k)
  }

  predicate TriggerAt(word: char -> bool, s: string, i: nat, k: nat) {
    || (k == i + 3 && TextAt(s, i, "://"))
    || (k == i + 1 && TextAt(s, i, "@"))
    || LabelAt(s, i, k, AUTHORIZATION)
    || LabelAt(s, i, k, ACCESS_TOKEN)
    || ((LabelAt(s, i, k, "basic") || LabelAt(s, i, k, "bearer")) && Boundary(word, s, i) && k < |s| && Space(s[k]))
    || PrefixFolded(word, s, i, k)
  }

  predicate PrefixFolded(word: char -> bool, s: string, i: nat, k: nat) {
    || (k == i + 4 && k <= |s| && LabelAt(s, i, i + 2, "gh") && s[i + 3] == '_'
        && exists l | l in "pousr" :: Folds(s[i + 2], l))
    || LabelAt(s, i, k, "github_pat_")
    || LabelAt(s, i, k, "glpat-")
    || (k == i + 5 && k <= |s| && LabelAt(s, i, i + 3, "xox") && s[i + 4] == '-'
        && exists l | l in "baprs" :: Folds(s[i + 3], l))
    || (Boundary(word, s, i) && LabelAt(s, i, k, "sk-"))
  }

  lemma TextIsLabel(s: string, i: nat, name: string)
    requires TextAt(s, i, name)
    ensures LabelAt(s, i, i + |name|, name)
  {
    forall n | 0 <= n < |name| ensures Folds(s[i + n], name[n]) { assert s[i + n] == s[i..i + |name|][n]; }
  }

  lemma PrefixTriggers(word: char -> bool, s: string, i: nat, k: nat)
    requires PrefixAt(s, i, k) && Boundary(word, s, i)
    ensures PrefixFolded(word, s, i, k)
  {
    if TextAt(s, i, "github_pat_") { TextIsLabel(s, i, "github_pat_"); }
    if TextAt(s, i, "glpat-") { TextIsLabel(s, i, "glpat-"); }
    if TextAt(s, i, "sk-") { TextIsLabel(s, i, "sk-"); }
  }

  /** Whatever a pattern matches, the gate sees. */
  lemma MatchTriggers(p: Pattern, word: char -> bool, s: string, i: nat)
    requires Matches(p, word, s, i)
    ensures Triggered(word, s)
  {
    var k: nat, b: nat, c: nat, e: nat :| Parse(p, word, s, i, k, b, c, e);
    match p
    case Userinfo =>
      assert s[k - 3..k] == "://";
      assert TriggerAt(word, s, k - 3, k);
    case Prefixed =>
      PrefixTriggers(word, s, i, k);
      assert TriggerAt(word, s, i, k);
    case _ => assert TriggerAt(word, s, i, k);
  }

  /** The gate skips nothing the patterns would rewrite. */
  lemma UntriggeredUnchanged(word: char -> bool, s: string)
    requires !Triggered(word, s)
    ensures Redact(word, s) == s
  {
    forall p, i: nat ensures !Bad(p, word, s, i) {
      if Bad(p, word, s, i) { BadMatches(p, word, s, i); MatchTriggers(p, word, s, i); }
    }
    forall p ensures Clean(p, word, s) {}
    CleanUnchanged(word, s);
  }
}
