/** `backend/app/logging_redaction.py`: five patterns, and the passes that rewrite a
    text with them. */
module Patterns {
  import opened Options

  datatype Pattern = Userinfo | Authorization | AccessToken | Credential | Prefixed

  /** The character classes of the patterns.  Under `(?i)` a range `A-Za-z` also
      takes the four letters outside ASCII that fold into it. */
  datatype Class = Spaces | SchemeChars | UserinfoChars | ValueChars | BlobChars | TailChars

  predicate Letter(c: char) {
    'a' <= c <= 'z' || 'A' <= c <= 'Z'
  }

  predicate Digit(c: char) {
    '0' <= c <= '9'
  }

  predicate Space(c: char) {
    || '\t' <= c <= '\r' || '\U{1c}' <= c <= ' ' || c == '\U{85}' || c == '\U{a0}' || c == '\U{1680}'
    || '\U{2000}' <= c <= '\U{200a}' || c == '\U{2028}' || c == '\U{2029}' || c == '\U{202f}'
    || c == '\U{205f}' || c == '\U{3000}'
  }

  /** The characters that fold to `l` under `(?i)`. */
  predicate Folds(c: char, l: char) {
    || c == l
    || ('a' <= l <= 'z' && 'A' <= c <= 'Z' && c as int + 32 == l as int)
    || (l == 'i' && (c == '\U{130}' || c == '\U{131}'))
    || (l == 's' && c == '\U{17f}')
    || (l == 'k' && c == '\U{212a}')
  }

  predicate FoldsToLetter(c: char) {
    Letter(c) || c == '\U{130}' || c == '\U{131}' || c == '\U{17f}' || c == '\U{212a}'
  }

  predicate In(cls: Class, c: char) {
    match cls
    case Spaces => Space(c)
    case SchemeChars => Letter(c) || Digit(c) || c == '+' || c == '.' || c == '-'
    case UserinfoChars => c != '/' && !Space(c) && c != '?' && c != '#'
    case ValueChars => c != '\r' && c != '\n' && c != ',' && c != ';'
    case BlobChars =>
      FoldsToLetter(c) || Digit(c) || c == '+' || c == '/' || c == '=' || c == '_' || c == '.' || c == '-'
    case TailChars => Letter(c) || Digit(c) || c == '_' || c == '-'
  }

  predicate Run(cls: Class, y: string, a: nat, b: nat) {
    b <= |y| && forall n | a <= n < b :: In(cls, y[n])
  }

  const AUTHORIZATION := "authorization"
  const ACCESS_TOKEN := "x-access-token"

  predicate LabelAt(y: string, i: nat, k: nat, name: string) {
    k == i + |name| <= |y| && forall n | 0 <= n < |name| :: Folds(y[i + n], name[n])
  }

  predicate TextAt(y: string, i: nat, text: string) {
    i + |text| <= |y| && y[i..i + |text|] == text
  }

  /** A well-known token prefix at `i`, ending at `k`. */
  predicate PrefixAt(y: string, i: nat, k: nat) {
    k <= |y| && (
      || (k == i + 4 && y[i] == 'g' && y[i + 1] == 'h' && y[i + 2] in "pousr" && y[i + 3] == '_')
      || (k == i + 11 && TextAt(y, i, "github_pat_"))
      || (k == i + 6 && TextAt(y, i, "glpat-"))
      || (k == i + 5 && y[i] == 'x' && y[i + 1] == 'o' && y[i + 2] == 'x' && y[i + 3] in "baprs" && y[i + 4] == '-')
      || (k == i + 3 && TextAt(y, i, "sk-")))
  }

  /** `\b` before a letter.  `word` is Python's `\w`. */
  predicate Boundary(word: char -> bool, y: string, i: nat) {
    i == 0 || (i <= |y| && !word(y[i - 1]))
  }

  /** One way to match the pattern on `y[i..e]`: `\1` is `y[i..k]`, a separator
      stands at `b` where the pattern has one, and the last run starts at `c`. */
  predicate Parse(p: Pattern, word: char -> bool, y: string, i: nat, k: nat, b: nat, c: nat, e: nat) {
    i < k <= b <= c < e <= |y| && (
      match p
      case Userinfo => b == k && c == k && UserinfoAt(y, i, k, e)
      case Authorization => LabelAt(y, i, k, AUTHORIZATION) && Labelled(y, k, b, c, e)
      case AccessToken => LabelAt(y, i, k, ACCESS_TOKEN) && Labelled(y, k, b, c, e)
      case Credential => c == b && Boundary(word, y, i) && CredentialAt(y, i, k, b, e)
      case Prefixed => b == k && c == k && Boundary(word, y, i) && PrefixedAt(y, i, k, e))
  }

  predicate UserinfoAt(y: string, i: nat, k: nat, e: nat) {
    && i + 4 <= k && k + 1 < e <= |y|
    && Letter(y[i]) && Run(SchemeChars, y, i + 1, k - 3)
    && y[k - 3] == ':' && y[k - 2] == '/' && y[k - 1] == '/'
    && Run(UserinfoChars, y, k, e - 1) && y[e - 1] == '@'
  }

  predicate CredentialAt(y: string, i: nat, k: nat, b: nat, e: nat) {
    && (LabelAt(y, i, k, "basic") || LabelAt(y, i, k, "bearer"))
    && k < b && Run(Spaces, y, k, b) && b + 16 <= e && Run(BlobChars, y, b, e)
  }

  predicate PrefixedAt(y: string, i: nat, k: nat, e: nat) {
    PrefixAt(y, i, k) && k + 8 <= e && Run(TailChars, y, k, e)
  }

  predicate Labelled(y: string, k: nat, b: nat, c: nat, e: nat) {
    && k <= b < c < e <= |y|
    && Run(Spaces, y, k, b) && (y[b] == ':' || y[b] == '=') && Run(Spaces, y, b + 1, c)
    && Run(ValueChars, y, c, e)
  }

  /** What follows `\1` in the replacement. */
  function Inserted(p: Pattern): string {
    match p
    case Userinfo => "<redacted>@"
    case Authorization => ": <redacted>"
    case AccessToken => ": <redacted>"
    case Credential => " <redacted>"
    case Prefixed => "<redacted>"
  }

  // ── The regular-expression engine ────────────────────────────────

  predicate Later(k: nat, b: nat, c: nat, e: nat, k': nat, b': nat, c': nat, e': nat) {
    k' > k || (k' == k && (b' > b || (b' == b && (c' > c || (c' == c && e' > e)))))
  }

  /** The match a backtracking engine finds at `i`: every quantifier is greedy,
      so the parse whose split points come lexicographically last. */
  ghost predicate Greedy(p: Pattern, word: char -> bool, y: string, i: nat, k: nat, b: nat, c: nat, e: nat) {
    && Parse(p, word, y, i, k, b, c, e)
    && (forall k', b', c', e' | Parse(p, word, y, i, k', b', c', e') :: !Later(k, b, c, e, k', b', c', e'))
  }

  ghost predicate Matches(p: Pattern, word: char -> bool, y: string, i: nat) {
    exists k, b, c, e :: Parse(p, word, y, i, k, b, c, e)
  }

  lemma {:induction false} GreedyExists(p: Pattern, word: char -> bool, y: string, i: nat, k: nat, b: nat, c: nat,
                                        e: nat)
    requires Parse(p, word, y, i, k, b, c, e)
    ensures exists k', b', c', e' :: Greedy(p, word, y, i, k', b', c', e')
    decreases |y| - k, |y| - b, |y| - c, |y| - e
  {
    if !Greedy(p, word, y, i, k, b, c, e) {
      var k', b', c', e' :| Parse(p, word, y, i, k', b', c', e') && Later(k, b, c, e, k', b', c', e');
      GreedyExists(p, word, y, i, k', b', c', e');
    }
  }

  datatype Span = Span(i: nat, k: nat, e: nat)

  ghost predicate MatchAt(p: Pattern, word: char -> bool, y: string, m: Span) {
    exists b, c :: Greedy(p, word, y, m.i, m.k, b, c, m.e)
  }

  /** The first match at or after `from`. */
  ghost function Search(p: Pattern, word: char -> bool, s: string, from: nat): (r: Option<Span>)
    ensures r.None? ==> forall i | from <= i :: !Matches(p, word, s, i)
    ensures r.Some? ==> from <= r.value.i < r.value.k < r.value.e <= |s| && MatchAt(p, word, s, r.value)
                        && forall i | from <= i < r.value.i :: !Matches(p, word, s, i)
    decreases |s| - from
  {
    if from >= |s| then None
    else if Matches(p, word, s, from) then
      var k, b, c, e :| Parse(p, word, s, from, k, b, c, e);
      GreedyExists(p, word, s, from, k, b, c, e);
      var k1, b1, c1, e1 :| Greedy(p, word, s, from, k1, b1, c1, e1);
      assert MatchAt(p, word, s, Span(from, k1, e1));
      Some(Span(from, k1, e1))
    else Search(p, word, s, from + 1)
  }

  /** `pattern.sub`: `x` is the output so far, for `s[..from]`. */
  ghost function Sub(p: Pattern, word: char -> bool, s: string, from: nat, x: string): string
    requires from <= |s|
    decreases |s| - from
  {
    match Search(p, word, s, from)
    case None => x + s[from..]
    case Some(m) => Sub(p, word, s, m.e, x + s[from..m.k] + Inserted(p))
  }

  /** What a pass leaves: the text up to each match's `\1`, the insertion, and on
      from the match's end. */
  function Splice(p: Pattern, s: string, from: nat, spans: seq<Span>): string
    decreases |spans|
  {
    if spans == [] then (if from <= |s| then s[from..] else "")
    else if from <= spans[0].k <= |s| then
      s[from..spans[0].k] + Inserted(p) + Splice(p, s, spans[0].e, spans[1..])
    else ""
  }

  /** The matches a pass replaces: each the first from where the last one ended,
      and none after the last. */
  ghost predicate Leftmost(p: Pattern, word: char -> bool, s: string, from: nat, spans: seq<Span>)
    decreases |spans|
  {
    if spans == [] then forall i | from <= i :: !Matches(p, word, s, i)
    else
      && from <= spans[0].i < spans[0].k < spans[0].e <= |s| && MatchAt(p, word, s, spans[0])
      && (forall i | from <= i < spans[0].i :: !Matches(p, word, s, i))
      && Leftmost(p, word, s, spans[0].e, spans[1..])
  }

  /** A pass replaces exactly its leftmost matches, from each match's `\1` to its
      end, and leaves every other character where it is. */
  lemma {:induction false} SubSplices(p: Pattern, word: char -> bool, s: string, from: nat, x: string)
    returns (spans: seq<Span>)
    requires from <= |s|
    ensures Leftmost(p, word, s, from, spans)
    ensures Sub(p, word, s, from, x) == x + Splice(p, s, from, spans)
    decreases |s| - from
  {
    hide Parse, Inserted;
    spans := [];
    var found := Search(p, word, s, from);
    if found.Some? {
      var m := found.value;
      var rest := SubSplices(p, word, s, m.e, x + s[from..m.k] + Inserted(p));
      spans := [m] + rest;
      assert spans[1..] == rest;
      assert x + s[from..m.k] + Inserted(p) + Splice(p, s, m.e, rest)
          == x + (s[from..m.k] + Inserted(p) + Splice(p, s, m.e, rest));
    }
  }

  ghost function Redact(word: char -> bool, s: string): string {
    var s1 := Sub(Userinfo, word, s, 0, "");
    var s2 := Sub(Authorization, word, s1, 0, "");
    var s3 := Sub(AccessToken, word, s2, 0, "");
    var s4 := Sub(Credential, word, s3, 0, "");
    Sub(Prefixed, word, s4, 0, "")
  }
}
