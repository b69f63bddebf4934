/** The promises of `backend/app/logging_redaction.py`, on characters: what a secret
    looks like, that none is left, and that nothing else is touched. */
module Secrets {
  import opened Options
  import opened Patterns
  import opened Pulling
  import opened Redaction

  // What a secret looks like, character by character.

  const TOKEN_PREFIXES: set<string> := {
    "ghp_", "gho_", "ghu_", "ghs_", "ghr_", "github_pat_", "glpat-",
    "xoxb-", "xoxa-", "xoxp-", "xoxr-", "xoxs-", "sk-"}

  predicate Ascii(c: char) {
    c < '\U{80}'
  }

  /** Outside ASCII, the classes are those of the patterns. */
  predicate Blank(c: char) {
    '\t' <= c <= '\r' || '\U{1c}' <= c <= ' ' || (!Ascii(c) && Space(c))
  }

  predicate Alphanumeric(c: char) {
    'a' <= c <= 'z' || 'A' <= c <= 'Z' || '0' <= c <= '9'
  }

  predicate Bloblike(c: char) {
    Alphanumeric(c) || c in "+/=_.-" || (!Ascii(c) && FoldsToLetter(c))
  }

  /** The character `l`, or its capital. */
  predicate SaysChar(c: char, l: char) {
    c == l || ('a' <= l <= 'z' && c as int + 32 == l as int) || (!Ascii(c) && Folds(c, l))
  }

  /** `text` at `i`, capital letters or not. */
  predicate Says(y: string, i: nat, text: string) {
    i + |text| <= |y| && forall n | 0 <= n < |text| :: SaysChar(y[i + n], text[n])
  }

  predicate WordStarts(word: char -> bool, y: string, i: nat) {
    i == 0 || (i <= |y| && !word(y[i - 1]))
  }

  /** At a word boundary, a known prefix and 8 or more token characters up to `e`. */
  predicate Token(word: char -> bool, y: string, i: nat, prefix: string, e: nat) {
    && prefix in TOKEN_PREFIXES && WordStarts(word, y, i) && i + |prefix| + 8 <= e <= |y|
    && y[i..i + |prefix|] == prefix
    && forall n | i + |prefix| <= n < e :: Alphanumeric(y[n]) || y[n] in "_-"
  }

  /** At a word boundary, `basic` or `bearer`, blanks up to `b`, and 16 or more
      characters of a credential up to `e`. */
  predicate Scheme(word: char -> bool, y: string, i: nat, name: string, b: nat, e: nat) {
    && (name == "basic" || name == "bearer") && WordStarts(word, y, i) && Says(y, i, name)
    && i + |name| < b && b + 16 <= e <= |y|
    && (forall n | i + |name| <= n < b :: Blank(y[n]))
    && forall n | b <= n < e :: Bloblike(y[n])
  }

  /** A header label, a separator at `b` between blanks, and a value from `c`. */
  predicate Header(y: string, i: nat, name: string, b: nat, c: nat) {
    && (name == "authorization" || name == "x-access-token") && Says(y, i, name)
    && i + |name| <= b < c < |y| && y[b] in ":="
    && (forall n | i + |name| <= n < b :: Blank(y[n])) && (forall n | b < n < c :: Blank(y[n]))
    && y[c] !in "\r\n,;"
  }

  /** `scheme://userinfo@`, with the userinfo from `k` and the `@` before `e`. */
  predicate Authority(y: string, i: nat, k: nat, e: nat) {
    && i + 3 < k < e - 1 && e <= |y| && y[k - 3..k] == "://" && y[e - 1] == '@'
    && Alphanumeric(y[i]) && !('0' <= y[i] <= '9')
    && (forall n | i < n < k - 3 :: Alphanumeric(y[n]) || y[n] in "+.-")
    && forall n | k <= n < e :: !Blank(y[n]) && y[n] !in "/?#"
  }

  // Whatever looks like a secret is matched.

  lemma SaysLabel(y: string, i: nat, name: string)
    requires Says(y, i, name)
    ensures LabelAt(y, i, i + |name|, name)
  {
  }

  lemma TokenMatches(word: char -> bool, y: string, i: nat, prefix: string, e: nat)
    requires Token(word, y, i, prefix, e)
    ensures Parse(Prefixed, word, y, i, i + |prefix|, i + |prefix|, i + |prefix|, e)
  {
    var k := i + |prefix|;
    assert forall n | i <= n < k :: y[n] == y[i..k][n - i];
    assert PrefixAt(y, i, k);
    assert Run(TailChars, y, k, e);
  }

  lemma SchemeMatches(word: char -> bool, y: string, i: nat, name: string, b: nat, e: nat)
    requires Scheme(word, y, i, name, b, e)
    ensures Parse(Credential, word, y, i, i + |name|, b, b, e)
  {
    SaysLabel(y, i, name);
    hide Says, LabelAt;
    assert Run(Spaces, y, i + |name|, b) && Run(BlobChars, y, b, e);
  }

  lemma HeaderMatches(word: char -> bool, y: string, i: nat, name: string, b: nat, c: nat)
    requires Header(y, i, name, b, c)
    ensures Parse(if name == "authorization" then Authorization else AccessToken, word, y, i, i + |name|, b, c, c + 1)
  {
    SaysLabel(y, i, name);
    hide Says, LabelAt;
    assert Run(Spaces, y, i + |name|, b) && Run(Spaces, y, b + 1, c) && Run(ValueChars, y, c, c + 1);
  }

  lemma AuthorityMatches(word: char -> bool, y: string, i: nat, k: nat, e: nat)
    requires Authority(y, i, k, e)
    ensures Parse(Userinfo, word, y, i, k, k, k, e)
  {
    assert forall n | k - 3 <= n < k :: y[n] == y[k - 3..k][n - (k - 3)];
    assert Run(SchemeChars, y, i + 1, k - 3);
    assert Run(UserinfoChars, y, k, e - 1);
  }

  // So none is left.

  /** No token is left in a redacted text. */
  lemma NoTokenLeft(word: char -> bool, s: string, i: nat, prefix: string, e: nat)
    ensures !Token(word, Redact(word, s), i, prefix, e)
  {
    var y := Redact(word, s);
    RedactedIsClean(word, s, Prefixed);
    assert !Bad(Prefixed, word, y, i);
    if Token(word, y, i, prefix, e) { TokenMatches(word, y, i, prefix, e); }
  }

  /** No `basic` or `bearer` credential is left. */
  lemma NoCredentialLeft(word: char -> bool, s: string, i: nat, name: string, b: nat, e: nat)
    ensures !Scheme(word, Redact(word, s), i, name, b, e)
  {
    var y := Redact(word, s);
    RedactedIsClean(word, s, Credential);
    assert !Bad(Credential, word, y, i);
    if Scheme(word, y, i, name, b, e) { SchemeMatches(word, y, i, name, b, e); }
  }

  /** Every header value left is `<redacted>`, up to a delimiter. */
  lemma HeadersRedacted(word: char -> bool, s: string, i: nat, name: string, b: nat, c: nat)
    ensures var y := Redact(word, s);
      Header(y, i, name, b, c) ==>
        var k := i + |name|;
        && k + 12 <= |y| && y[k..k + 12] == ": <redacted>"
        && (k + 12 == |y| || y[k + 12] in "\r\n,;")
  {
    var y := Redact(word, s);
    if Header(y, i, name, b, c) {
      var p := if name == "authorization" then Authorization else AccessToken;
      RedactedIsClean(word, s, p);
      hide Redact, Header;
      HeaderIsMarked(p, word, y, i, name, b, c);
    }
  }

  lemma HeaderIsMarked(p: Pattern, word: char -> bool, y: string, i: nat, name: string, b: nat, c: nat)
    requires Header(y, i, name, b, c) && p == (if name == "authorization" then Authorization else AccessToken)
    requires !Bad(p, word, y, i)
    ensures var k := i + |name|;
      && k + 12 <= |y| && y[k..k + 12] == ": <redacted>"
      && (k + 12 == |y| || y[k + 12] in "\r\n,;")
  {
    HeaderMatches(word, y, i, name, b, c);
    hide Parse, Header;
    assert Matches(p, word, y, i);
    MarkedSays(y, i + |name|);
  }

  lemma MarkedSays(y: string, k: nat)
    requires Marked(y, k)
    ensures k + 12 <= |y| && y[k..k + 12] == ": <redacted>"
    ensures k + 12 == |y| || y[k + 12] in "\r\n,;"
  {
  }

  /** Every userinfo left is `<redacted>`. */
  lemma UserinfoRedacted(word: char -> bool, s: string, i: nat, k: nat, e: nat)
    ensures var y := Redact(word, s);
      Authority(y, i, k, e) ==> y[k..e] == "<redacted>@"
  {
    var y := Redact(word, s);
    if Authority(y, i, k, e) {
      AuthorityMatches(word, y, i, k, e);
      RedactedIsClean(word, s, Userinfo);
      assert !Bad(Userinfo, word, y, i);
    }
  }

  // And nothing else is touched.

  lemma LabelSays(y: string, i: nat, k: nat, name: string)
    requires LabelAt(y, i, k, name)
    ensures k == i + |name| && Says(y, i, name)
  {
  }

  /** A match of the last pattern is a token. */
  lemma MatchIsToken(word: char -> bool, y: string, i: nat, k: nat, e: nat) returns (prefix: string)
    requires PrefixedAt(y, i, k, e) && Boundary(word, y, i)
    ensures k == i + |prefix| && Token(word, y, i, prefix, e)
  {
    prefix := y[i..k];
    if k == i + 4 && y[i] == 'g' && y[i + 1] == 'h' && y[i + 2] in "pousr" && y[i + 3] == '_' {
      assert prefix == [y[i], y[i + 1], y[i + 2], y[i + 3]];
      assert prefix == "ghp_" || prefix == "gho_" || prefix == "ghu_" || prefix == "ghs_" || prefix == "ghr_";
    } else if k == i + 5 && y[i] == 'x' && y[i + 1] == 'o' && y[i + 2] == 'x' && y[i + 3] in "baprs"
              && y[i + 4] == '-' {
      assert prefix == [y[i], y[i + 1], y[i + 2], y[i + 3], y[i + 4]];
      assert prefix == "xoxb-" || prefix == "xoxa-" || prefix == "xoxp-" || prefix == "xoxr-" || prefix == "xoxs-";
    }
  }

  lemma MatchIsScheme(word: char -> bool, y: string, i: nat, k: nat, b: nat, e: nat) returns (name: string)
    requires CredentialAt(y, i, k, b, e) && Boundary(word, y, i)
    ensures k == i + |name| && Scheme(word, y, i, name, b, e)
  {
    name := if LabelAt(y, i, k, "basic") then "basic" else "bearer";
    LabelSays(y, i, k, name);
    hide Says, LabelAt;
    forall n | k <= n < b ensures Blank(y[n]) { assert In(Spaces, y[n]); }
    forall n | b <= n < e ensures Bloblike(y[n]) { assert In(BlobChars, y[n]); }
  }

  lemma MatchIsHeader(y: string, i: nat, k: nat, name: string, b: nat, c: nat, e: nat)
    requires LabelName(name) && LabelAt(y, i, k, name) && Labelled(y, k, b, c, e)
    ensures k == i + |name| && Header(y, i, name, b, c)
  {
    LabelSays(y, i, k, name);
    hide Says, LabelAt;
    forall n | k <= n < b ensures Blank(y[n]) { assert In(Spaces, y[n]); }
    forall n | b < n < c ensures Blank(y[n]) { assert In(Spaces, y[n]); }
    assert In(ValueChars, y[c]);
  }

  lemma MatchIsAuthority(y: string, i: nat, k: nat, e: nat)
    requires UserinfoAt(y, i, k, e)
    ensures Authority(y, i, k, e)
  {
    assert y[k - 3..k] == "://";
    forall n | i < n < k - 3 ensures Alphanumeric(y[n]) || y[n] in "+.-" { assert In(SchemeChars, y[n]); }
    forall n | k <= n < e ensures !Blank(y[n]) && y[n] !in "/?#" {
      if n < e - 1 { assert In(UserinfoChars, y[n]); }
    }
  }

  /** A secret of this kind begins at `i`. */
  ghost predicate Begins(p: Pattern, word: char -> bool, y: string, i: nat) {
    match p
    case Userinfo => exists k: nat, e: nat :: Authority(y, i, k, e)
    case Authorization => exists b: nat, c: nat :: Header(y, i, "authorization", b, c)
    case AccessToken => exists b: nat, c: nat :: Header(y, i, "x-access-token", b, c)
    case Credential => exists name: string, b: nat, e: nat :: Scheme(word, y, i, name, b, e)
    case Prefixed => exists prefix: string, e: nat :: Token(word, y, i, prefix, e)
  }

  /** The text holds nothing that looks like a secret of this kind. */
  ghost predicate Free(p: Pattern, word: char -> bool, y: string) {
    forall i: nat :: !Begins(p, word, y, i)
  }

  lemma MatchBegins(p: Pattern, word: char -> bool, y: string, i: nat, k: nat, b: nat, c: nat, e: nat)
    requires Parse(p, word, y, i, k, b, c, e)
    ensures Begins(p, word, y, i)
  {
    hide UserinfoAt, CredentialAt, PrefixedAt, Labelled, LabelAt, Boundary, Authority, Header, Scheme, Token;
    match p
    case Userinfo => MatchIsAuthority(y, i, k, e);
    case Authorization => MatchIsHeader(y, i, k, AUTHORIZATION, b, c, e);
    case AccessToken => MatchIsHeader(y, i, k, ACCESS_TOKEN, b, c, e);
    case Credential => var name := MatchIsScheme(word, y, i, k, b, e);
    case Prefixed => var prefix := MatchIsToken(word, y, i, k, e);
  }

  lemma FreeIsClean(p: Pattern, word: char -> bool, y: string)
    requires Free(p, word, y)
    ensures forall i: nat :: !Matches(p, word, y, i)
    ensures Clean(p, word, y)
  {
    forall i: nat, k: nat, b: nat, c: nat, e: nat ensures !Parse(p, word, y, i, k, b, c, e) {
      if Parse(p, word, y, i, k, b, c, e) { MatchBegins(p, word, y, i, k, b, c, e); }
    }
    hide Parse, Begins;
  }

  /** A text with nothing that looks like a secret is left as it is. */
  lemma NoSecretUnchanged(word: char -> bool, s: string)
    requires forall p :: Free(p, word, s)
    ensures Redact(word, s) == s
  {
    forall p ensures Clean(p, word, s) { FreeIsClean(p, word, s); }
    CleanUnchanged(word, s);
  }

  /** What a match replaces: after what is kept, a secret and all of
      it, up to where no character of its kind follows. */
  ghost predicate Whole(p: Pattern, word: char -> bool, y: string, m: Span) {
    m.i < m.k < m.e <= |y| &&
    match p
    case Userinfo => Authority(y, m.i, m.k, m.e) && forall e | e > m.e :: !Authority(y, m.i, m.k, e)
    case Authorization => exists b, c :: WholeHeader(y, m, "authorization", b, c)
    case AccessToken => exists b, c :: WholeHeader(y, m, "x-access-token", b, c)
    case Credential => exists name, b :: WholeScheme(word, y, m, name, b)
    case Prefixed => exists prefix :: WholeToken(word, y, m, prefix)
  }

  ghost predicate WholeHeader(y: string, m: Span, name: string, b: nat, c: nat) {
    && Header(y, m.i, name, b, c) && m.k == m.i + |name| && c < m.e <= |y|
    && (forall d | d > c :: !Header(y, m.i, name, b, d))
    && (forall n | c <= n < m.e :: y[n] !in "\r\n,;") && (m.e == |y| || y[m.e] in "\r\n,;")
  }

  predicate WholeScheme(word: char -> bool, y: string, m: Span, name: string, b: nat) {
    && Scheme(word, y, m.i, name, b, m.e) && m.k == m.i + |name|
    && (m.e == |y| || !Bloblike(y[m.e]))
  }

  predicate WholeToken(word: char -> bool, y: string, m: Span, prefix: string) {
    && Token(word, y, m.i, prefix, m.e) && m.k == m.i + |prefix|
    && (m.e == |y| || !(Alphanumeric(y[m.e]) || y[m.e] in "_-"))
  }

  /** A pass replaces secrets only, and each of them whole. */
  lemma SpanIsSecret(p: Pattern, word: char -> bool, y: string, m: Span)
    requires MatchAt(p, word, y, m)
    ensures Whole(p, word, y, m)
  {
    var b: nat, c: nat :| Greedy(p, word, y, m.i, m.k, b, c, m.e);
    assert Parse(p, word, y, m.i, m.k, b, c, m.e);
    if p.Userinfo? {
      SpanIsAuthority(word, y, m, b, c);
    } else {
      GreedyStops(p, word, y, m.i, m.k, b, c, m.e);
      hide UserinfoAt, CredentialAt, PrefixedAt, LabelAt, Boundary, Authority, Header, Scheme, Token, Greedy, Run;
      match p
      case Authorization =>
        MatchIsHeader(y, m.i, m.k, AUTHORIZATION, b, c, m.e);
        HeaderIsLast(word, y, m, "authorization", b, c);
        HeaderIsWhole(y, m, "authorization", b, c);
      case AccessToken =>
        MatchIsHeader(y, m.i, m.k, ACCESS_TOKEN, b, c, m.e);
        HeaderIsLast(word, y, m, "x-access-token", b, c);
        HeaderIsWhole(y, m, "x-access-token", b, c);
      case Credential =>
        var name := MatchIsScheme(word, y, m.i, m.k, b, m.e);
        assert WholeScheme(word, y, m, name, b);
      case Prefixed =>
        var prefix := MatchIsToken(word, y, m.i, m.k, m.e);
        assert WholeToken(word, y, m, prefix);
    }
  }

  lemma GreedyIsLast(p: Pattern, word: char -> bool, y: string, m: Span, b: nat, c: nat, d: nat)
    requires Greedy(p, word, y, m.i, m.k, b, c, m.e) && Parse(p, word, y, m.i, m.k, b, d, d + 1)
    ensures d <= c
  {
    assert !Later(m.k, b, c, m.e, m.k, b, d, d + 1);
    hide Parse;
  }

  lemma HeaderIsLast(word: char -> bool, y: string, m: Span, name: string, b: nat, c: nat)
    requires name == "authorization" || name == "x-access-token"
    requires Greedy(if name == "authorization" then Authorization else AccessToken, word, y, m.i, m.k, b, c, m.e)
    requires m.k == m.i + |name|
    ensures forall d | d > c :: !Header(y, m.i, name, b, d)
  {
    forall d | d > c ensures !Header(y, m.i, name, b, d) {
      if Header(y, m.i, name, b, d) {
        HeaderMatches(word, y, m.i, name, b, d);
        GreedyIsLast(if name == "authorization" then Authorization else AccessToken, word, y, m, b, c, d);
      }
    }
  }

  lemma HeaderIsWhole(y: string, m: Span, name: string, b: nat, c: nat)
    requires Header(y, m.i, name, b, c) && m.k == m.i + |name| && Labelled(y, m.k, b, c, m.e)
    requires m.e == |y| || !In(ValueChars, y[m.e])
    requires forall d | d > c :: !Header(y, m.i, name, b, d)
    ensures WholeHeader(y, m, name, b, c)
  {
    forall n | c <= n < m.e ensures y[n] !in "\r\n,;" { assert In(ValueChars, y[n]); }
  }

  lemma SpanIsAuthority(word: char -> bool, y: string, m: Span, b: nat, c: nat)
    requires Greedy(Userinfo, word, y, m.i, m.k, b, c, m.e)
    ensures Whole(Userinfo, word, y, m)
  {
    MatchIsAuthority(y, m.i, m.k, m.e);
    forall e | e > m.e ensures !Authority(y, m.i, m.k, e) {
      if Authority(y, m.i, m.k, e) {
        AuthorityMatches(word, y, m.i, m.k, e);
        assert Later(m.k, m.k, m.k, m.e, m.k, m.k, m.k, e);
      }
    }
  }

  lemma BeginsMatches(p: Pattern, word: char -> bool, y: string, i: nat)
    requires Begins(p, word, y, i)
    ensures Matches(p, word, y, i)
  {
    hide Authority, Header, Scheme, Token, Parse;
    match p
    case Userinfo =>
      var k: nat, e: nat :| Authority(y, i, k, e);
      AuthorityMatches(word, y, i, k, e);
    case Authorization =>
      var b: nat, c: nat :| Header(y, i, "authorization", b, c);
      HeaderMatches(word, y, i, "authorization", b, c);
    case AccessToken =>
      var b: nat, c: nat :| Header(y, i, "x-access-token", b, c);
      HeaderMatches(word, y, i, "x-access-token", b, c);
    case Credential =>
      var name: string, b: nat, e: nat :| Scheme(word, y, i, name, b, e);
      SchemeMatches(word, y, i, name, b, e);
    case Prefixed =>
      var prefix: string, e: nat :| Token(word, y, i, prefix, e);
      TokenMatches(word, y, i, prefix, e);
  }

  /** A pattern matches exactly where a secret of its kind begins. */
  lemma MatchesIffBegins(p: Pattern, word: char -> bool, y: string, i: nat)
    ensures Matches(p, word, y, i) <==> Begins(p, word, y, i)
  {
    hide Parse, Begins;
    if Matches(p, word, y, i) {
      var k: nat, b: nat, c: nat, e: nat :| Parse(p, word, y, i, k, b, c, e);
      MatchBegins(p, word, y, i, k, b, c, e);
    }
    if Begins(p, word, y, i) { BeginsMatches(p, word, y, i); }
  }

  // One secret in a text: the whole result.

  lemma WholeBegins(p: Pattern, word: char -> bool, y: string, m: Span)
    requires Whole(p, word, y, m)
    ensures Begins(p, word, y, m.i)
  {
    hide Authority, Header, Scheme, Token;
  }

  lemma SameHeader(y: string, m: Span, n: Span, name: string, b: nat, c: nat, b1: nat, c1: nat)
    requires m.i == n.i && WholeHeader(y, m, name, b, c) && WholeHeader(y, n, name, b1, c1)
    ensures m == n
  {
    assert !Blank(y[b]) && !Blank(y[b1]);
    assert b == b1 && c == c1;
  }

  lemma SameAuthority(y: string, i: nat, k: nat, e: nat, k1: nat, e1: nat)
    requires Authority(y, i, k, e) && Authority(y, i, k1, e1)
    ensures k == k1
  {
    assert y[k - 3] == y[k - 3..k][0] == ':' && y[k1 - 3] == y[k1 - 3..k1][0] == ':';
  }

  /** What a secret is to its end is determined by where it begins. */
  lemma WholeUnique(p: Pattern, word: char -> bool, y: string, m: Span, n: Span)
    requires Whole(p, word, y, m) && Whole(p, word, y, n) && m.i == n.i
    ensures m == n
  {
    hide Authority, Header, WholeHeader, WholeScheme, WholeToken;
    match p
    case Userinfo => SameAuthority(y, m.i, m.k, m.e, n.k, n.e);
    case Authorization =>
      var b, c :| WholeHeader(y, m, "authorization", b, c);
      var b1, c1 :| WholeHeader(y, n, "authorization", b1, c1);
      SameHeader(y, m, n, "authorization", b, c, b1, c1);
    case AccessToken =>
      var b, c :| WholeHeader(y, m, "x-access-token", b, c);
      var b1, c1 :| WholeHeader(y, n, "x-access-token", b1, c1);
      SameHeader(y, m, n, "x-access-token", b, c, b1, c1);
    case Credential =>
      var name, b :| WholeScheme(word, y, m, name, b);
      var n1, b1 :| WholeScheme(word, y, n, n1, b1);
      SchemeEnds(word, y, m, n, name, b, n1, b1);
    case Prefixed =>
      var prefix :| WholeToken(word, y, m, prefix);
      var p1 :| WholeToken(word, y, n, p1);
      TokenEnds(word, y, m, n, prefix, p1);
  }

  lemma SchemeEnds(word: char -> bool, y: string, m: Span, n: Span, name: string, b: nat, n1: string, b1: nat)
    requires m.i == n.i && WholeScheme(word, y, m, name, b) && WholeScheme(word, y, n, n1, b1)
    ensures m == n
  {
    SameScheme(word, y, m.i, name, b, m.e, n1, b1, n.e);
  }

  lemma TokenEnds(word: char -> bool, y: string, m: Span, n: Span, prefix: string, p1: string)
    requires m.i == n.i && WholeToken(word, y, m, prefix) && WholeToken(word, y, n, p1)
    ensures m == n
  {
    PrefixOnly(y, m.i, p1, prefix);
    SameEnd(word, y, m.i, prefix, m.e, n.e);
  }

  /** Where a secret stands whole, that is what its pass replaces there. */
  lemma WholeIsSpan(p: Pattern, word: char -> bool, y: string, m: Span)
    requires Whole(p, word, y, m)
    ensures MatchAt(p, word, y, m)
  {
    WholeBegins(p, word, y, m);
    BeginsMatches(p, word, y, m.i);
    hide Parse, Whole, Begins;
    var k: nat, b: nat, c: nat, e: nat :| Parse(p, word, y, m.i, k, b, c, e);
    GreedyExists(p, word, y, m.i, k, b, c, e);
    var k1: nat, b1: nat, c1: nat, e1: nat :| Greedy(p, word, y, m.i, k1, b1, c1, e1);
    assert MatchAt(p, word, y, Span(m.i, k1, e1));
    hide Greedy, MatchAt;
    SpanIsSecret(p, word, y, Span(m.i, k1, e1));
    WholeUnique(p, word, y, m, Span(m.i, k1, e1));
  }

  /** A pass over a text with one secret of its kind puts the mark where the secret was
      and keeps everything else. */
  lemma OneSecret(p: Pattern, word: char -> bool, s: string, m: Span)
    requires Whole(p, word, s, m) && forall j: nat | Begins(p, word, s, j) :: m.i <= j < m.e
    ensures m.k <= m.e <= |s|
    ensures Sub(p, word, s, 0, "") == s[..m.k] + (
      match p
      case Userinfo => "<redacted>@"
      case Authorization => ": <redacted>"
      case AccessToken => ": <redacted>"
      case Credential => " <redacted>"
      case Prefixed => "<redacted>") + s[m.e..]
  {
    WholeIsSpan(p, word, s, m);
    assert m.i < m.k < m.e <= |s|;
    hide Whole, Begins, Matches, MatchAt;
    forall j: nat | j < m.i || m.e <= j ensures !Matches(p, word, s, j) { MatchesIffBegins(p, word, s, j); }
    OneSpan(p, word, s, m);
  }

  lemma GreedyUnique(p: Pattern, word: char -> bool, y: string, m: Span, n: Span)
    requires MatchAt(p, word, y, m) && MatchAt(p, word, y, n) && m.i == n.i
    ensures m == n
  {
    var b: nat, c: nat :| Greedy(p, word, y, m.i, m.k, b, c, m.e);
    var b': nat, c': nat :| Greedy(p, word, y, n.i, n.k, b', c', n.e);
    assert !Later(m.k, b, c, m.e, n.k, b', c', n.e) && !Later(n.k, b', c', n.e, m.k, b, c, m.e);
    hide Parse;
  }

  /** A pass that meets one match replaces it and nothing else. */
  lemma OneSpan(p: Pattern, word: char -> bool, s: string, m: Span)
    requires MatchAt(p, word, s, m) && m.i < m.k < m.e <= |s|
    requires (forall i | 0 <= i < m.i :: !Matches(p, word, s, i)) && forall i | m.e <= i :: !Matches(p, word, s, i)
    ensures Sub(p, word, s, 0, "") == s[..m.k] + Inserted(p) + s[m.e..]
  {
    SpanMatches(p, word, s, m);
    hide Parse, Greedy, Matches, MatchAt, Inserted;
    var found := Search(p, word, s, 0);
    assert found.Some?;
    if found.value.i < m.i { SpanMatches(p, word, s, found.value); }
    GreedyUnique(p, word, s, found.value, m);
    var rest := Search(p, word, s, m.e);
    if rest.Some? { SpanMatches(p, word, s, rest.value); }
    assert "" + s[0..m.k] + Inserted(p) == s[..m.k] + Inserted(p);
  }

  lemma SpanMatches(p: Pattern, word: char -> bool, s: string, m: Span)
    requires MatchAt(p, word, s, m)
    ensures Matches(p, word, s, m.i)
  {
    var b: nat, c: nat :| Greedy(p, word, s, m.i, m.k, b, c, m.e);
  }

  lemma PrefixOnly(y: string, i: nat, a: string, b: string)
    requires a in TOKEN_PREFIXES && b in TOKEN_PREFIXES && i + |a| <= |y| && i + |b| <= |y|
    requires y[i..i + |a|] == a && y[i..i + |b|] == b
    ensures a == b
  {
    assert a[0] == y[i] == b[0] && a[1] == y[i + 1] == b[1] && a[2] == y[i + 2] == b[2];
    if a[0] == 's' || b[0] == 's' { return; }
    assert a[3] == y[i + 3] == b[3];
  }

  lemma SameEnd(word: char -> bool, s: string, i: nat, prefix: string, e: nat, e1: nat)
    requires WholeToken(word, s, Span(i, i + |prefix|, e), prefix)
    requires WholeToken(word, s, Span(i, i + |prefix|, e1), prefix)
    ensures e == e1
  {
  }

  lemma TokenStands(word: char -> bool, y: string, m: Span, prefix: string)
    requires WholeToken(word, y, m, prefix)
    ensures Whole(Prefixed, word, y, m)
  {
    PrefixText(prefix);
  }

  lemma SchemeStands(word: char -> bool, y: string, m: Span, name: string, b: nat)
    requires WholeScheme(word, y, m, name, b)
    ensures Whole(Credential, word, y, m)
  {
  }

  lemma OnlyTokens(word: char -> bool, s: string, i: nat, e: nat)
    requires forall j: nat, q: string, e1: nat | Token(word, s, j, q, e1) :: i <= j < e
    ensures forall j: nat | Begins(Prefixed, word, s, j) :: i <= j < e
  {
    hide Token;
  }

  lemma OnlySchemes(word: char -> bool, s: string, i: nat, e: nat)
    requires forall j: nat, q: string, b1: nat, e1: nat | Scheme(word, s, j, q, b1, e1) :: i <= j < e
    ensures forall j: nat | Begins(Credential, word, s, j) :: i <= j < e
  {
    hide Scheme;
  }

  /** A text whose only secret is one token keeps everything but its tail. */
  lemma TokenRedacted(word: char -> bool, s: string, i: nat, prefix: string, e: nat)
    requires WholeToken(word, s, Span(i, i + |prefix|, e), prefix)
    requires forall p: Pattern | !p.Prefixed? :: Free(p, word, s)
    requires forall j: nat, q: string, e1: nat | Token(word, s, j, q, e1) :: i <= j < e
    ensures Redact(word, s) == s[..i + |prefix|] + "<redacted>" + s[e..]
  {
    hide *;
    OthersFixed(word, s);
    TokenStands(word, s, Span(i, i + |prefix|, e), prefix);
    OnlyTokens(word, s, i, e);
    OneSecret(Prefixed, word, s, Span(i, i + |prefix|, e));
  }

  /** The other passes have nothing to do on a text free of their secrets. */
  lemma FreeFixed(p: Pattern, word: char -> bool, y: string)
    requires Free(p, word, y)
    ensures Sub(p, word, y, 0, "") == y
  {
    assert y[..0] == "";
    FreeIsClean(p, word, y);
    CleanFixed(p, word, y, 0);
  }

  /** The first four passes leave such a text alone. */
  lemma OthersFixed(word: char -> bool, s: string)
    requires forall p: Pattern | !p.Prefixed? :: Free(p, word, s)
    ensures Redact(word, s) == Sub(Prefixed, word, s, 0, "")
  {
    hide Free, Sub;
    FreeFixed(Userinfo, word, s);
    FreeFixed(Authorization, word, s);
    FreeFixed(AccessToken, word, s);
    FreeFixed(Credential, word, s);
  }

  predicate PrefixStands(y: string, j: nat, prefix: string) {
    prefix in TOKEN_PREFIXES && j + |prefix| <= |y| && y[j..j + |prefix|] == prefix
  }

  ghost predicate NoPrefix(y: string) {
    forall j: nat, prefix :: !PrefixStands(y, j, prefix)
  }

  lemma NoPrefixFree(word: char -> bool, y: string)
    requires NoPrefix(y)
    ensures Free(Prefixed, word, y)
  {
    forall i: nat, prefix: string, e: nat ensures !Token(word, y, i, prefix, e) {
      assert !PrefixStands(y, i, prefix);
    }
  }

  lemma PrefixText(prefix: string)
    requires prefix in TOKEN_PREFIXES
    ensures prefix != "" && prefix[0] in "gxs" && forall n | 0 <= n < |prefix| :: Wordlike(prefix[n])
  {
  }

  /** What stands in the text after a credential is redacted stood there before. */
  lemma PrefixStood(s: string, k: nat, e: nat, y: string, j: nat, prefix: string)
    requires k <= e <= |s| && y == s[..k] + " <redacted>" + s[e..] && PrefixStands(y, j, prefix)
    ensures exists i: nat :: PrefixStands(s, i, prefix)
  {
    PrefixText(prefix);
    var n := j + |prefix|;
    forall m | j <= m < n ensures Wordlike(y[m]) { assert y[m] == y[j..n][m - j]; }
    assert y[j] == y[j..n][0];
    InsertedApart(s, k, e, y);
    if j < k {
      StopsBefore(y, j, n, k);
      SliceBefore(s, k, e, y, j, n);
      assert PrefixStands(s, j, prefix);
    } else {
      SliceAfter(s, k, e, y, j, n);
      assert PrefixStands(s, j - 11 - k + e, prefix);
    }
  }

  lemma SliceBefore(s: string, k: nat, e: nat, y: string, a: nat, b: nat)
    requires a <= b <= k <= e <= |s| && y == s[..k] + " <redacted>" + s[e..]
    ensures s[a..b] == y[a..b]
  {
  }

  lemma SliceAfter(s: string, k: nat, e: nat, y: string, a: nat, b: nat)
    requires k <= e <= |s| && y == s[..k] + " <redacted>" + s[e..] && k + 11 <= a <= b <= |y|
    ensures b - 11 - k + e <= |s| && s[a - 11 - k + e..b - 11 - k + e] == y[a..b]
  {
  }

  lemma StopsBefore(y: string, j: nat, n: nat, k: nat)
    requires j < k < |y| && n <= |y| && !Wordlike(y[k]) && forall m | j <= m < n :: Wordlike(y[m])
    ensures n <= k
  {
  }

  /** No token prefix begins in the inserted text, nor runs into it. */
  lemma InsertedApart(s: string, k: nat, e: nat, y: string)
    requires k <= e <= |s| && y == s[..k] + " <redacted>" + s[e..]
    ensures !Wordlike(y[k]) && forall m | k <= m < k + 11 :: y[m] !in "gxs"
  {
    forall m | k <= m < k + 11 ensures y[m] !in "gxs" { assert y[m] == " <redacted>"[m - k]; }
  }

  lemma NoPrefixAfter(s: string, k: nat, e: nat, y: string)
    requires NoPrefix(s) && k <= e <= |s| && y == s[..k] + " <redacted>" + s[e..]
    ensures NoPrefix(y)
  {
    forall j: nat, prefix ensures !PrefixStands(y, j, prefix) {
      if PrefixStands(y, j, prefix) { PrefixStood(s, k, e, y, j, prefix); }
    }
  }

  lemma SameScheme(word: char -> bool, s: string, i: nat, name: string, b: nat, e: nat, n1: string, b1: nat, e1: nat)
    requires WholeScheme(word, s, Span(i, i + |name|, e), name, b)
    requires WholeScheme(word, s, Span(i, i + |n1|, e1), n1, b1)
    ensures name == n1 && b == b1 && e == e1
  {
    assert SaysChar(s[i + 1], name[1]) && SaysChar(s[i + 1], n1[1]);
    assert name[1] == n1[1];
    assert !Blank(s[b]) && !Blank(s[b1]);
  }

  /** A text whose only secret is one credential, with no token prefix about, keeps
      everything but the blanks and the credential. */
  lemma CredentialRedacted(word: char -> bool, s: string, i: nat, name: string, b: nat, e: nat)
    requires NoPrefix(s) && WholeScheme(word, s, Span(i, i + |name|, e), name, b)
    requires forall p: Pattern | !p.Credential? :: Free(p, word, s)
    requires forall j: nat, q: string, b1: nat, e1: nat | Scheme(word, s, j, q, b1, e1) :: i <= j < e
    ensures Redact(word, s) == s[..i + |name|] + " <redacted>" + s[e..]
  {
    hide *;
    FreeFixed(Userinfo, word, s);
    FreeFixed(Authorization, word, s);
    FreeFixed(AccessToken, word, s);
    SchemeStands(word, s, Span(i, i + |name|, e), name, b);
    OnlySchemes(word, s, i, e);
    OneSecret(Credential, word, s, Span(i, i + |name|, e));
    var y := s[..i + |name|] + " <redacted>" + s[e..];
    NoPrefixAfter(s, i + |name|, e, y);
    NoPrefixFree(word, y);
    FreeFixed(Prefixed, word, y);
    LastTwoPasses(word, s, y);
  }

  lemma LastTwoPasses(word: char -> bool, s: string, y: string)
    requires Sub(Userinfo, word, s, 0, "") == s && Sub(Authorization, word, s, 0, "") == s
    requires Sub(AccessToken, word, s, 0, "") == s
    requires Sub(Credential, word, s, 0, "") == y && Sub(Prefixed, word, y, 0, "") == y
    ensures Redact(word, s) == y
  {
    hide Sub;
  }

  // What opens the gate.

  /** A marker at `i`, in capitals or not: `://`, `@`, a header label, `basic` or
      `bearer` where a word starts and before a blank, or a token prefix, `sk-` only
      where a word starts. */
  ghost predicate Marker(word: char -> bool, s: string, i: nat) {
    || Says(s, i, "://") || Says(s, i, "@") || Says(s, i, "authorization") || Says(s, i, "x-access-token")
    || (WordStarts(word, s, i) && Says(s, i, "basic") && i + 5 < |s| && Blank(s[i + 5]))
    || (WordStarts(word, s, i) && Says(s, i, "bearer") && i + 6 < |s| && Blank(s[i + 6]))
    || (exists prefix | prefix in TOKEN_PREFIXES :: Says(s, i, prefix) && (prefix == "sk-" ==> WordStarts(word, s, i)))
  }

  /** The gate opens exactly for a text that holds a marker. */
  lemma GateIff(word: char -> bool, s: string)
    ensures Triggered(word, s) <==> exists i: nat :: Marker(word, s, i)
  {
    if i: nat, k: nat :| TriggerAt(word, s, i, k) {
      TriggerMarks(word, s, i, k);
    }
    if i: nat :| Marker(word, s, i) {
      MarkTriggers(word, s, i);
    }
  }

  lemma TriggerMarks(word: char -> bool, s: string, i: nat, k: nat)
    requires TriggerAt(word, s, i, k)
    ensures Marker(word, s, i)
  {
    hide LabelAt, Says, Folds;
    if LabelAt(s, i, k, AUTHORIZATION) { LabelSays(s, i, k, AUTHORIZATION); }
    if LabelAt(s, i, k, ACCESS_TOKEN) { LabelSays(s, i, k, ACCESS_TOKEN); }
    if LabelAt(s, i, k, "basic") { LabelSays(s, i, k, "basic"); }
    if LabelAt(s, i, k, "bearer") { LabelSays(s, i, k, "bearer"); }
    if PrefixFolded(word, s, i, k) { var prefix := FoldedPrefix(word, s, i, k); }
    if TextAt(s, i, "://") { TextSays(s, i, "://"); }
    if TextAt(s, i, "@") { TextSays(s, i, "@"); }
  }

  lemma TextSays(s: string, i: nat, text: string)
    requires TextAt(s, i, text)
    ensures Says(s, i, text)
  {
    forall n | 0 <= n < |text| ensures s[i + n] == text[n] { assert s[i + n] == s[i..i + |text|][n]; }
  }

  lemma FoldedPrefix(word: char -> bool, s: string, i: nat, k: nat) returns (prefix: string)
    requires PrefixFolded(word, s, i, k)
    ensures prefix in TOKEN_PREFIXES && Says(s, i, prefix) && (prefix == "sk-" ==> WordStarts(word, s, i))
  {
    if k == i + 4 && k <= |s| && LabelAt(s, i, i + 2, "gh") && s[i + 3] == '_'
       && exists l | l in "pousr" :: Folds(s[i + 2], l) {
      LabelSays(s, i, i + 2, "gh");
      var l :| l in "pousr" && Folds(s[i + 2], l);
      prefix := ['g', 'h', l, '_'];
      assert prefix == "ghp_" || prefix == "gho_" || prefix == "ghu_" || prefix == "ghs_" || prefix == "ghr_";
      FourSay(s, i, l);
    } else if LabelAt(s, i, k, "github_pat_") {
      prefix := "github_pat_";
      LabelSays(s, i, k, prefix);
    } else if LabelAt(s, i, k, "glpat-") {
      prefix := "glpat-";
      LabelSays(s, i, k, prefix);
    } else if LabelAt(s, i, k, "sk-") && Boundary(word, s, i) {
      prefix := "sk-";
      LabelSays(s, i, k, prefix);
    } else {
      LabelSays(s, i, i + 3, "xox");
      var l :| l in "baprs" && Folds(s[i + 3], l);
      prefix := ['x', 'o', 'x', l, '-'];
      assert prefix == "xoxb-" || prefix == "xoxa-" || prefix == "xoxp-" || prefix == "xoxr-" || prefix == "xoxs-";
      FiveSay(s, i, l);
    }
  }

  lemma FourSay(s: string, i: nat, l: char)
    requires Says(s, i, "gh") && i + 4 <= |s| && Folds(s[i + 2], l) && s[i + 3] == '_'
    ensures Says(s, i, ['g', 'h', l, '_'])
  {
    assert SaysChar(s[i + 0], "gh"[0]) && SaysChar(s[i + 1], "gh"[1]);
  }

  lemma FiveSay(s: string, i: nat, l: char)
    requires Says(s, i, "xox") && i + 5 <= |s| && Folds(s[i + 3], l) && s[i + 4] == '-'
    ensures Says(s, i, ['x', 'o', 'x', l, '-'])
  {
    assert SaysChar(s[i + 0], "xox"[0]) && SaysChar(s[i + 1], "xox"[1]) && SaysChar(s[i + 2], "xox"[2]);
  }

  lemma SaysText(s: string, i: nat, text: string)
    requires Says(s, i, text) && forall n | 0 <= n < |text| :: !('a' <= text[n] <= 'z')
    ensures TextAt(s, i, text)
  {
    assert s[i..i + |text|] == text;
  }

  lemma MarkTriggers(word: char -> bool, s: string, i: nat)
    requires Marker(word, s, i)
    ensures Triggered(word, s)
  {
    hide Says, LabelAt, TextAt, Folds;
    if Says(s, i, "://") {
      SaysText(s, i, "://");
      assert TriggerAt(word, s, i, i + 3);
    } else if Says(s, i, "@") {
      SaysText(s, i, "@");
      assert TriggerAt(word, s, i, i + 1);
    } else if Says(s, i, "authorization") {
      SaysLabel(s, i, AUTHORIZATION);
      assert TriggerAt(word, s, i, i + 13);
    } else if Says(s, i, "x-access-token") {
      SaysLabel(s, i, ACCESS_TOKEN);
      assert TriggerAt(word, s, i, i + 14);
    } else if prefix :| prefix in TOKEN_PREFIXES && Says(s, i, prefix) && (prefix == "sk-" ==> WordStarts(word, s, i)) {
      PrefixGate(word, s, i, prefix);
      assert TriggerAt(word, s, i, i + |prefix|);
    } else if Says(s, i, "basic") && i + 5 < |s| && Blank(s[i + 5]) && WordStarts(word, s, i) {
      SaysLabel(s, i, "basic");
      assert TriggerAt(word, s, i, i + 5);
    } else {
      SaysLabel(s, i, "bearer");
      assert TriggerAt(word, s, i, i + 6);
    }
  }

  lemma PrefixGate(word: char -> bool, s: string, i: nat, prefix: string)
    requires prefix in TOKEN_PREFIXES && Says(s, i, prefix) && (prefix == "sk-" ==> WordStarts(word, s, i))
    ensures PrefixFolded(word, s, i, i + |prefix|)
  {
    if |prefix| == 4 {
      ShortLabel(s, i, prefix, "gh");
      assert prefix[2] in "pousr" && Folds(s[i + 2], prefix[2]) && s[i + 3] == '_';
    } else if |prefix| == 5 {
      ShortLabel(s, i, prefix, "xox");
      assert prefix[3] in "baprs" && prefix[4] == '-';
      assert Folds(s[i + 3], prefix[3]) && Folds(s[i + 4], prefix[4]);
    } else {
      SaysLabel(s, i, prefix);
      assert prefix == "github_pat_" || prefix == "glpat-" || prefix == "sk-";
    }
  }

  lemma ShortLabel(s: string, i: nat, prefix: string, head: string)
    requires Says(s, i, prefix) && |head| <= |prefix| && prefix[..|head|] == head
    ensures LabelAt(s, i, i + |head|, head)
    ensures forall n | |head| <= n < |prefix| ::
              Folds(s[i + n], prefix[n]) && (prefix[n] in "_-" ==> s[i + n] == prefix[n])
  {
    forall n | 0 <= n < |head| ensures Folds(s[i + n], head[n]) { assert head[n] == prefix[n]; }
  }
}
