/** Pulling a match back through one replacement.

    A match that is there after a replacement was there before it: for the pattern
    that was replaced, and for every earlier one.  What is kept in front, what is
    inserted, and what follows are taken in turn. */
module Pulling {
  import opened Patterns

  // ── Texts that differ in one place ───────────────────────────────

  predicate SameHead(s: string, y: string, n: nat) {
    n <= |s| && n <= |y| && forall m | 0 <= m < n :: s[m] == y[m]
  }

  predicate SameTail(s: string, a: nat, y: string, b: nat) {
    && a <= |s| && b <= |y| && |s| - a == |y| - b
    && (forall m | a <= m < |s| :: s[m] == y[m - a + b])
    && (forall m | b <= m < |y| :: y[m] == s[m - b + a])
  }

  predicate LooksBack(p: Pattern) {
    p.Credential? || p.Prefixed?
  }

  lemma RunShifts(cls: Class, s: string, a: nat, y: string, b: nat, i: nat, n: nat)
    requires SameTail(s, a, y, b) && i >= a && i <= n && Run(cls, s, i, n)
    ensures Run(cls, y, i - a + b, n - a + b)
  {
    hide In;
  }

  lemma NameShifts(s: string, a: nat, y: string, b: nat, i: nat, k: nat, name: string)
    requires SameTail(s, a, y, b) && i >= a && LabelAt(s, i, k, name)
    ensures LabelAt(y, i - a + b, k - a + b, name)
  {
    hide Folds;
  }

  lemma UserinfoShifts(s: string, a: nat, y: string, b: nat, i: nat, k: nat, e: nat)
    requires SameTail(s, a, y, b) && i >= a && UserinfoAt(s, i, k, e)
    ensures UserinfoAt(y, i - a + b, k - a + b, e - a + b)
  {
    RunShifts(SchemeChars, s, a, y, b, i + 1, k - 3);
    RunShifts(UserinfoChars, s, a, y, b, k, e - 1);
    hide In, Run;
  }

  lemma LabelledShifts(s: string, a: nat, y: string, b: nat, k: nat, sep: nat, c: nat, e: nat)
    requires SameTail(s, a, y, b) && k >= a && Labelled(s, k, sep, c, e)
    ensures Labelled(y, k - a + b, sep - a + b, c - a + b, e - a + b)
  {
    RunShifts(Spaces, s, a, y, b, k, sep);
    RunShifts(Spaces, s, a, y, b, sep + 1, c);
    RunShifts(ValueChars, s, a, y, b, c, e);
    hide In, Run;
  }

  lemma CredentialShifts(s: string, a: nat, y: string, b: nat, i: nat, k: nat, sep: nat, e: nat)
    requires SameTail(s, a, y, b) && i >= a && CredentialAt(s, i, k, sep, e)
    ensures CredentialAt(y, i - a + b, k - a + b, sep - a + b, e - a + b)
  {
    NameShifts(s, a, y, b, i, k, if LabelAt(s, i, k, "basic") then "basic" else "bearer");
    RunShifts(Spaces, s, a, y, b, k, sep);
    RunShifts(BlobChars, s, a, y, b, sep, e);
    hide In, Run, LabelAt;
  }

  lemma TextShifts(s: string, a: nat, y: string, b: nat, i: nat, text: string)
    requires SameTail(s, a, y, b) && i >= a && TextAt(s, i, text)
    ensures TextAt(y, i - a + b, text)
  {
    assert y[i - a + b..i - a + b + |text|] == s[i..i + |text|];
  }

  lemma PrefixedShifts(s: string, a: nat, y: string, b: nat, i: nat, k: nat, e: nat)
    requires SameTail(s, a, y, b) && i >= a && PrefixedAt(s, i, k, e)
    ensures PrefixedAt(y, i - a + b, k - a + b, e - a + b)
  {
    RunShifts(TailChars, s, a, y, b, k, e);
    if k == i + 11 && TextAt(s, i, "github_pat_") {
      TextShifts(s, a, y, b, i, "github_pat_");
    } else if k == i + 6 && TextAt(s, i, "glpat-") {
      TextShifts(s, a, y, b, i, "glpat-");
    } else if k == i + 3 && TextAt(s, i, "sk-") {
      TextShifts(s, a, y, b, i, "sk-");
    }
    hide In, Run, TextAt;
  }

  /** A parse depends on its own text and, where it looks back, the character before. */
  lemma ParseShifts(p: Pattern, word: char -> bool, s: string, a: nat, y: string, b: nat,
                    i: nat, k: nat, sep: nat, c: nat, e: nat)
    requires SameTail(s, a, y, b) && Parse(p, word, s, i, k, sep, c, e)
    requires i > a || (i == a && !LooksBack(p))
    ensures Parse(p, word, y, i - a + b, k - a + b, sep - a + b, c - a + b, e - a + b)
  {
    hide UserinfoAt, LabelAt, Labelled, CredentialAt, PrefixedAt;
    match p
    case Userinfo => UserinfoShifts(s, a, y, b, i, k, e);
    case Authorization =>
      NameShifts(s, a, y, b, i, k, AUTHORIZATION);
      LabelledShifts(s, a, y, b, k, sep, c, e);
    case AccessToken =>
      NameShifts(s, a, y, b, i, k, ACCESS_TOKEN);
      LabelledShifts(s, a, y, b, k, sep, c, e);
    case Credential => CredentialShifts(s, a, y, b, i, k, sep, e);
    case Prefixed => PrefixedShifts(s, a, y, b, i, k, e);
  }

  // ── What a finished pass leaves ──────────────────────────────────

  /** A redacted value: nothing more of it follows. */
  predicate Marked(y: string, k: nat) {
    TextAt(y, k, ": <redacted>") && (k + 12 == |y| || !In(ValueChars, y[k + 12]))
  }

  function Name(p: Pattern): string
    requires p.Authorization? || p.AccessToken?
  {
    if p.Authorization? then AUTHORIZATION else ACCESS_TOKEN
  }

  /** A match that is not a redaction already made. */
  ghost predicate Bad(p: Pattern, word: char -> bool, y: string, i: nat) {
    match p
    case Userinfo => exists k: nat, e: nat :: Parse(p, word, y, i, k, k, k, e) && y[k..e] != "<redacted>@"
    case Authorization => Matches(p, word, y, i) && !Marked(y, i + |AUTHORIZATION|)
    case AccessToken => Matches(p, word, y, i) && !Marked(y, i + |ACCESS_TOKEN|)
    case Credential => Matches(p, word, y, i)
    case Prefixed => Matches(p, word, y, i)
  }

  ghost predicate Clean(p: Pattern, word: char -> bool, y: string) {
    forall i: nat :: !Bad(p, word, y, i)
  }

  // ── Pulling a match back through one replacement ─────────────────

  // What a replacement keeps in front of its insertion.

  lemma LabelChars(y: string, i: nat, k: nat, name: string)
    requires LabelAt(y, i, k, name) && forall n | 0 <= n < |name| :: 'a' <= name[n] <= 'z' || name[n] == '-'
    ensures forall n | i <= n < k :: FoldsToLetter(y[n]) || y[n] == '-'
  {
    forall n | i <= n < k ensures FoldsToLetter(y[n]) || y[n] == '-' {
      assert y[n] == y[i + (n - i)] && Folds(y[i + (n - i)], name[n - i]);
    }
  }

  predicate Wordlike(c: char) {
    FoldsToLetter(c) || c == '-' || c == '_'
  }

  lemma PrefixChars(y: string, i: nat, k: nat)
    requires PrefixAt(y, i, k)
    ensures forall n | i <= n < k :: Wordlike(y[n])
    ensures k - i <= 11 && (y[k - 1] == '_' || y[k - 1] == '-')
  {
    if k == i + 11 && TextAt(y, i, "github_pat_") {
      assert forall n | i <= n < k :: y[n] == y[i..k][n - i];
    } else if k == i + 6 && TextAt(y, i, "glpat-") {
      assert forall n | i <= n < k :: y[n] == y[i..k][n - i];
    } else if k == i + 3 && TextAt(y, i, "sk-") {
      assert forall n | i <= n < k :: y[n] == y[i..k][n - i];
    }
  }

  lemma KeptChars(q: Pattern, word: char -> bool, y: string, i: nat, k: nat, b: nat, c: nat, e: nat)
    requires !q.Userinfo? && Parse(q, word, y, i, k, b, c, e)
    ensures forall n | i <= n < k :: Wordlike(y[n])
  {
    match q
    case Authorization => LabelChars(y, i, k, AUTHORIZATION);
    case AccessToken => LabelChars(y, i, k, ACCESS_TOKEN);
    case Credential => LabelChars(y, i, k, if LabelAt(y, i, k, "basic") then "basic" else "bearer");
    case Prefixed => PrefixChars(y, i, k);
  }

  lemma SchemeStops(u: string, j: nat, k: nat, e: nat, n: nat)
    requires UserinfoAt(u, j, k, e) && j <= n < |u| && !In(SchemeChars, u[n])
    ensures k - 3 <= n
  {
  }

  lemma AuthorityStops(u: string, j: nat, k: nat, e: nat, n: nat)
    requires UserinfoAt(u, j, k, e) && k <= n < |u| && !In(UserinfoChars, u[n])
    ensures e <= n
  {
  }

  /** Text put at `k`: it has no colon, so no scheme ends in it. */
  predicate Wall(u: string, k: nat, n: nat) {
    k <= n < |u| && !In(SchemeChars, u[n]) && forall m | k <= m <= n :: u[m] != ':' && u[m] != '/'
  }

  lemma NoSchemeInside(u: string, k: nat, n: nat, j: nat, k1: nat, e1: nat)
    requires UserinfoAt(u, j, k1, e1) && Wall(u, k, n)
    ensures j < k || n < j
  {
    assert u[k1 - 3] == ':';
    if k <= j <= n { SchemeStops(u, j, k1, e1, n); }
  }

  /** Userinfo through a userinfo replacement. */
  lemma PullUserinfoUserinfo(y: string, i: nat, k: nat, e: nat, u: string, j: nat, k1: nat, e1: nat)
    requires UserinfoAt(y, i, k, e) && SameHead(y, u, k) && SameTail(y, e, u, k + 11)
    requires Wall(u, k, k + 9) && u[k + 10] == '@' && forall n | k <= n < k + 10 :: u[n] != '@'
    requires UserinfoAt(u, j, k1, e1) && j < k + 11
    requires !UserinfoAt(y, i, k, if e1 > k + 11 then e1 - 11 - k + e else 0)
    ensures (j < i && e1 <= k && UserinfoAt(y, j, k1, e1)) || (k1 == k && e1 == k + 11)
  {
    NoSchemeInside(u, k, k + 9, j, k1, e1);
    assert u[k - 3] == ':' && u[k - 2] == '/' && u[k - 1] == '/';
    assert u[e1 - 1] == '@' && Letter(u[j]);
    SchemeStops(u, j, k1, e1, k - 3);
    if k1 < k {
      AuthorityStops(u, j, k1, e1, k - 1);
    } else if e1 > k + 11 {
      LongerUserinfo(y, i, k, e, u, e1);
    }
  }

  lemma LongerUserinfo(y: string, i: nat, k: nat, e: nat, u: string, e1: nat)
    requires UserinfoAt(y, i, k, e) && SameTail(y, e, u, k + 11)
    requires k + 11 < e1 <= |u| && Run(UserinfoChars, u, k, e1 - 1) && u[e1 - 1] == '@'
    ensures UserinfoAt(y, i, k, e1 - 11 - k + e)
  {
    assert Run(UserinfoChars, y, e, e1 - 11 - k + e - 1);
  }

  /** Userinfo through a replacement that inserts a space. */
  lemma PullUserinfoSpaced(y: string, i: nat, k: nat, sp: nat, n: nat, u: string, j: nat, k1: nat, e1: nat)
    requires i < k <= sp <= k + 1 && sp < n && SameHead(y, u, k) && Wall(u, sp, n - 1) && u[sp] == ' '
    requires (forall n | i <= n < k :: Wordlike(y[n])) && forall m | k <= m < n :: u[m] != '@'
    requires UserinfoAt(u, j, k1, e1) && j < n
    ensures j < i && e1 <= k && UserinfoAt(y, j, k1, e1)
  {
    NoSchemeInside(u, sp, n - 1, j, k1, e1);
    SchemeStops(u, j, k1, e1, sp);
    assert u[e1 - 1] == '@' && u[k1 - 3] == ':' && u[k1 - 2] == '/' && u[k1 - 1] == '/';
    if k1 <= sp { AuthorityStops(u, j, k1, e1, sp); }
  }

  /** Userinfo through a token replacement: the token may stand inside it. */
  lemma PullUserinfoPrefixed(y: string, i: nat, k: nat, e: nat, u: string, j: nat, k1: nat, e1: nat)
    requires PrefixedAt(y, i, k, e) && SameHead(y, u, k) && SameTail(y, e, u, k + 10)
    requires Wall(u, k, k + 9) && !In(SchemeChars, u[k]) && forall n | k <= n < k + 10 :: u[n] != '@'
    requires UserinfoAt(u, j, k1, e1) && j < k + 10
    ensures j < i && UserinfoAt(y, j, k1, if e1 <= k then e1 else e1 - 10 - k + e)
    ensures e1 > k ==> k1 <= i && k + 10 < e1
  {
    PrefixChars(y, i, k);
    NoSchemeInside(u, k, k + 9, j, k1, e1);
    SchemeStops(u, j, k1, e1, k);
    assert u[e1 - 1] == '@' && u[k1 - 3] == ':' && u[k1 - 2] == '/' && u[k1 - 1] == '/';
    if e1 > k { WiderUserinfo(y, u, j, k1, e1, k, e); }
  }

  lemma WiderUserinfo(y: string, u: string, j: nat, k1: nat, e1: nat, k: nat, e: nat)
    requires UserinfoAt(u, j, k1, e1) && k1 <= k <= e - 8 && k + 10 < e1
    requires SameHead(y, u, k) && Run(TailChars, y, k, e) && SameTail(y, e, u, k + 10)
    ensures UserinfoAt(y, j, k1, e1 - 10 - k + e)
  {
    var e2 := e1 - 10 - k + e;
    forall n | k1 <= n < e2 - 1 ensures In(UserinfoChars, y[n]) {
      if n >= e { assert y[n] == u[n - e + k + 10]; }
    }
  }

  // Labels.

  predicate LabelName(name: string) {
    name == AUTHORIZATION || name == ACCESS_TOKEN
  }

  lemma LabelWordlike(y: string, j: nat, k: nat, name: string, n: nat)
    requires LabelName(name) && LabelAt(y, j, k, name) && j <= n < k
    ensures FoldsToLetter(y[n]) || y[n] == '-'
  {
    LabelChars(y, j, k, name);
  }

  lemma LabelStays(y: string, u: string, n: nat, j: nat, k: nat, name: string)
    requires SameHead(y, u, n) && k <= n && LabelAt(u, j, k, name)
    ensures LabelAt(y, j, k, name)
  {
  }

  /** A label and its separator in front of a replacement were there before it. */
  lemma PullLabelled(y: string, k: nat, u: string, name: string, j: nat, k1: nat, b1: nat, c1: nat, e1: nat)
    requires 0 < k <= |y| && k < |u| && SameHead(y, u, k) && Wordlike(y[k - 1])
    requires !Wordlike(u[k]) && LabelName(name)
    requires LabelAt(u, j, k1, name) && Labelled(u, k1, b1, c1, e1) && j < k
    ensures k1 <= k && LabelAt(y, j, k1, name)
    ensures k1 < k ==> Labelled(y, k1, b1, c1, c1 + 1)
  {
    if k < k1 { LabelWordlike(u, j, k1, name, k); }
    LabelStays(y, u, k, j, k1, name);
    if k1 < k { SeparatorStays(y, k, u, k1, b1, c1, e1); }
  }

  lemma SeparatorStays(y: string, k: nat, u: string, k1: nat, b1: nat, c1: nat, e1: nat)
    requires k1 < k <= |y| && SameHead(y, u, k) && Wordlike(y[k - 1]) && Labelled(u, k1, b1, c1, e1)
    ensures c1 < k && Labelled(y, k1, b1, c1, c1 + 1)
  {
    assert !Space(u[k - 1]) && u[k - 1] != ':' && u[k - 1] != '=';
    assert b1 < k - 1;
    assert c1 <= k - 1;
  }

  /** Something in `y[i..k]` is in no redacted value. */
  ghost predicate Foreign(y: string, i: nat, k: nat) {
    k <= |y| && (forall n | i <= n < k :: Wordlike(y[n])) && exists n | i <= n < k :: y[n] !in ": <redacted>"
  }

  lemma MarkedInside(y: string, k: nat)
    requires Marked(y, k)
    ensures k + 12 <= |y| && y[k] == ':' && forall m | k <= m < k + 12 :: y[m] in ": <redacted>"
  {
    var region := y[k..k + 12];
    assert forall m | k <= m < k + 12 :: y[m] == region[m - k] && y[m] in region;
  }

  lemma MarkedStays(y: string, u: string, i: nat, k: nat, k1: nat)
    requires Marked(y, k1) && k1 < k && SameHead(y, u, k) && Foreign(y, i, k)
    ensures Marked(u, k1)
  {
    MarkedInside(y, k1);
    var n :| i <= n < k && y[n] !in ": <redacted>";
    assert k1 < i;
    assert k1 + 12 < k;
    assert u[k1..k1 + 12] == y[k1..k1 + 12];
  }

  /** No label begins in the inserted text. */
  predicate Unlabelled(u: string, k: nat, n: nat) {
    n <= |u| && forall m | k <= m < n ::
      && u[m] != 'x' && u[m] != 'X' && u[m] != 'A' && u[m] != 'b' && u[m] != 'B'
      && (u[m] == 'a' ==> m + 1 < n && u[m + 1] == 'c')
  }

  lemma NoLabelInside(u: string, k: nat, n: nat, j: nat, k1: nat, name: string)
    requires Unlabelled(u, k, n) && LabelName(name) && LabelAt(u, j, k1, name)
    ensures j < k || n <= j
  {
    assert Folds(u[j + 0], name[0]) && Folds(u[j + 1], name[1]);
  }

  /** A label shorter than what is kept cannot begin inside it. */
  lemma LabelBeforeKept(y: string, i: nat, k: nat, name: string, j: nat, k1: nat)
    requires LabelName(name) && LabelAt(y, j, k1, name) && k1 < k
    requires k - i <= |name| || LabelAt(y, i, k, ACCESS_TOKEN)
    ensures j < i
  {
    if LabelAt(y, i, k, ACCESS_TOKEN) { assert Folds(y[i + 0], ACCESS_TOKEN[0]); }
    assert Folds(y[j + 0], name[0]);
  }

  // Credentials and tokens.

  /** A credential or a token crosses no '<'. */
  lemma CredentialChar(u: string, j: nat, k: nat, b: nat, e: nat, n: nat)
    requires CredentialAt(u, j, k, b, e) && j <= n < e
    ensures u[n] != '<' && (b <= n ==> u[n] != ' ')
  {
    LabelChars(u, j, k, if LabelAt(u, j, k, "basic") then "basic" else "bearer");
  }

  lemma CredentialStart(u: string, j: nat, k: nat, b: nat, e: nat)
    requires CredentialAt(u, j, k, b, e)
    ensures (u[j] == 'b' || u[j] == 'B') && e - j >= 22
  {
    assert LabelAt(u, j, k, "basic") ==> Folds(u[j + 0], "basic"[0]);
    assert LabelAt(u, j, k, "bearer") ==> Folds(u[j + 0], "bearer"[0]);
  }

  lemma PullCredential(y: string, i: nat, k: nat, lt: nat, n: nat, u: string, j: nat, k1: nat, b1: nat, e1: nat)
    requires k <= lt <= k + 1 && lt < n <= |u| && SameHead(y, u, k) && u[lt] == '<' && (lt == k + 1 ==> u[k] == ' ')
    requires Unlabelled(u, k, n) && i < k && k - i < 22
    requires CredentialAt(u, j, k1, b1, e1) && j < n
    ensures j < i && e1 <= k && CredentialAt(y, j, k1, b1, e1)
  {
    CredentialStart(u, j, k1, b1, e1);
    if j <= lt < e1 { CredentialChar(u, j, k1, b1, e1, lt); }
    CredentialChar(u, j, k1, b1, e1, e1 - 1);
  }

  lemma PrefixedChar(u: string, j: nat, k: nat, e: nat, n: nat)
    requires PrefixedAt(u, j, k, e) && j <= n < e
    ensures u[n] != '<' && Wordlike(u[j]) && u[j] in "gxs"
  {
    PrefixChars(u, j, k);
    assert TextAt(u, j, "github_pat_") ==> u[j] == u[j..j + 11][0];
    assert TextAt(u, j, "glpat-") ==> u[j] == u[j..j + 6][0];
    assert TextAt(u, j, "sk-") ==> u[j] == u[j..j + 3][0];
  }

  lemma PullPrefixed(y: string, i: nat, k: nat, n: nat, u: string, j: nat, k1: nat, e1: nat)
    requires PrefixAt(y, i, k) && k < n <= |u| && SameHead(y, u, k) && u[k] == '<'
    requires forall m | k <= m < n :: u[m] !in "gxs"
    requires PrefixedAt(u, j, k1, e1) && j < n
    ensures j < i && e1 <= k && PrefixedAt(y, j, k1, e1)
  {
    PrefixedChar(u, j, k1, e1, j);
    if j <= k < e1 { PrefixedChar(u, j, k1, e1, k); }
    PrefixChars(y, i, k);
    PrefixStays(y, u, k, j, k1);
    ShortPrefix(y, i, k, j, k1);
  }

  lemma PrefixStays(y: string, u: string, n: nat, j: nat, k1: nat)
    requires SameHead(y, u, n) && k1 <= n && PrefixAt(u, j, k1)
    ensures PrefixAt(y, j, k1)
  {
    TextStays(y, u, n, j, "github_pat_");
    TextStays(y, u, n, j, "glpat-");
    TextStays(y, u, n, j, "sk-");
  }

  lemma TextStays(y: string, u: string, n: nat, j: nat, text: string)
    requires SameHead(y, u, n)
    ensures j + |text| <= n && TextAt(u, j, text) ==> TextAt(y, j, text)
  {
    if j + |text| <= n { assert u[j..j + |text|] == y[j..j + |text|]; }
  }

  /** No token fits inside a token prefix. */
  lemma ShortPrefix(y: string, i: nat, k: nat, j: nat, k1: nat)
    requires PrefixAt(y, i, k) && PrefixAt(y, j, k1) && k1 + 8 <= k
    ensures j < i
  {
    PrefixFirst(y, i, k);
    PrefixFirst(y, j, k1);
  }

  lemma PrefixFirst(y: string, i: nat, k: nat)
    requires PrefixAt(y, i, k)
    ensures i + 3 <= k <= i + 11
    ensures k - i == 11 ==> y[i] == 'g'
    ensures k - i == 3 ==> y[i] == 's'
  {
    assert TextAt(y, i, "github_pat_") ==> y[i] == y[i..i + 11][0];
    assert TextAt(y, i, "sk-") ==> y[i] == y[i..i + 3][0];
  }

  // ── One replacement makes nothing for this pass or an earlier one ─

  /** Passes in order. */
  function Order(p: Pattern): nat {
    match p
    case Userinfo => 1
    case Authorization => 2
    case AccessToken => 3
    case Credential => 4
    case Prefixed => 5
  }

  function LastRun(p: Pattern): Class
    requires !p.Userinfo?
  {
    match p
    case Credential => BlobChars
    case Prefixed => TailChars
    case _ => ValueChars
  }

  /** Greedy runs stop only where they must. */
  lemma GreedyStops(q: Pattern, word: char -> bool, y: string, i: nat, k: nat, b: nat, c: nat, e: nat)
    requires !q.Userinfo? && Greedy(q, word, y, i, k, b, c, e)
    ensures e == |y| || !In(LastRun(q), y[e])
  {
    if e < |y| && In(LastRun(q), y[e]) {
      assert Run(LastRun(q), y, c, e + 1);
      assert Parse(q, word, y, i, k, b, c, e + 1);
      assert Later(k, b, c, e, k, b, c, e + 1);
    }
  }

  /** How a match stood before the replacement: left of it, or right of it. */
  ghost predicate WasBad(p: Pattern, word: char -> bool, y: string, i: nat, rest: nat, e: nat, j: nat) {
    (j < i && Bad(p, word, y, j)) || (j >= rest && Bad(p, word, y, j - rest + e))
  }

  /** Right of the replacement nothing has changed. */
  lemma BadUserinfoShifts(word: char -> bool, u: string, rest: nat, y: string, e: nat, j: nat)
    requires SameTail(u, rest, y, e) && j >= rest && Bad(Userinfo, word, u, j)
    ensures Bad(Userinfo, word, y, j - rest + e)
  {
    hide UserinfoAt, Boundary;
    var k1: nat, e1: nat :| Parse(Userinfo, word, u, j, k1, k1, k1, e1) && u[k1..e1] != "<redacted>@";
    ParseShifts(Userinfo, word, u, rest, y, e, j, k1, k1, k1, e1);
    SliceShifts(y, e, u, rest, k1, e1);
  }

  lemma BadShifts(p: Pattern, word: char -> bool, u: string, rest: nat, y: string, e: nat, j: nat)
    requires SameTail(u, rest, y, e) && j >= rest && (j > rest || !LooksBack(p)) && Bad(p, word, u, j)
    ensures Bad(p, word, y, j - rest + e)
  {
    hide UserinfoAt, CredentialAt, PrefixedAt, Labelled, LabelAt, In, Marked;
    if p.Userinfo? {
      BadUserinfoShifts(word, u, rest, y, e, j);
    } else {
      var k1: nat, b1: nat, c1: nat, e1: nat :| Parse(p, word, u, j, k1, b1, c1, e1);
      ParseShifts(p, word, u, rest, y, e, j, k1, b1, c1, e1);
      if HasLabel(p) { MarkedShifts(y, e, u, rest, j - rest + e + |Name(p)|); }
    }
  }

  lemma SliceShifts(y: string, e: nat, u: string, rest: nat, k: nat, n: nat)
    requires SameTail(u, rest, y, e) && rest <= k <= n <= |u|
    ensures y[k - rest + e..n - rest + e] == u[k..n]
  {
  }

  lemma MarkedShifts(y: string, e: nat, u: string, rest: nat, k: nat)
    requires SameTail(y, e, u, rest) && k >= e
    ensures Marked(y, k) ==> Marked(u, k - e + rest)
  {
    if Marked(y, k) { assert u[k - e + rest..k - e + rest + 12] == y[k..k + 12]; }
  }

  lemma InsertedChars(q: Pattern)
    ensures var ins := Inserted(q);
      && |ins| == (if q.Userinfo? || q.Credential? then 11 else if q.Prefixed? then 10 else 12)
      && (forall n | 0 <= n < |ins| :: ins[n] !in "xXAbBgs/" && (ins[n] == 'a' ==> n + 1 < |ins| && ins[n + 1] == 'c'))
      && (forall n | 0 <= n < |ins| :: ins[n] == '@' ==> q.Userinfo? && n == 10)
      && (forall n | 0 <= n < |ins| :: ins[n] == ':' ==> (q.Authorization? || q.AccessToken?) && n == 0)
      && !Wordlike(ins[0])
      && (if q.Userinfo? then ins[9] == '>' && ins[10] == '@' else ins[|ins| - 1] == '>')
      && (q.Credential? ==> ins[0] == ' ' && ins[1] == '<')
      && (q.Prefixed? ==> ins[0] == '<')
      && (q.Authorization? || q.AccessToken? ==> ins[1] == ' ' && ins[2] == '<')
  {
  }

  /** `u` is `y` with a match of `q` replaced. */
  ghost predicate Replaced(q: Pattern, word: char -> bool, y: string, i: nat, k: nat, b: nat, c: nat, e: nat,
                           u: string)
  {
    && Greedy(q, word, y, i, k, b, c, e)
    && SameHead(y, u, k) && SameTail(y, e, u, k + |Inserted(q)|)
    && Placed(q, u, k)
  }

  predicate Placed(q: Pattern, u: string, k: nat) {
    k + |Inserted(q)| <= |u| && forall n | k <= n < k + |Inserted(q)| :: u[n] == Inserted(q)[n - k]
  }

  lemma NotRedacted(y: string, k: nat, e: nat, n: nat)
    requires k <= n < e <= |y| && (y[n] == '_' || y[n] == '-')
    ensures y[k..e] != "<redacted>@"
  {
    assert y[k..e][n - k] == y[n];
  }

  lemma PullPastUserinfo(word: char -> bool, y: string, i: nat, k: nat, e: nat, u: string, j: nat, k1: nat, e1: nat)
    requires Replaced(Userinfo, word, y, i, k, k, k, e, u)
    requires UserinfoAt(u, j, k1, e1) && u[k1..e1] != "<redacted>@" && j < k + 11
    ensures j < i && UserinfoAt(y, j, k1, e1) && y[k1..e1] != "<redacted>@"
  {
    PlacedUserinfo(u, k);
    NoLaterUserinfo(word, y, i, k, e, if e1 > k + 11 then e1 - 11 - k + e else 0);
    hide Inserted, Placed, Wall, Run, In, Greedy;
    PullUserinfoUserinfo(y, i, k, e, u, j, k1, e1);
    if e1 <= k { assert y[k1..e1] == u[k1..e1]; }
  }

  lemma PlacedUserinfo(u: string, k: nat)
    requires Placed(Userinfo, u, k)
    ensures Wall(u, k, k + 9) && u[k + 10] == '@' && u[k..k + 11] == "<redacted>@"
    ensures forall n | k <= n < k + 10 :: u[n] != '@'
  {
    InsertedChars(Userinfo);
    assert u[k..k + 11] == "<redacted>@";
  }

  lemma PullPastSpaced(q: Pattern, word: char -> bool, y: string, i: nat, k: nat, b: nat, c: nat, e: nat,
                      u: string, j: nat, k1: nat, e1: nat)
    requires (q.Authorization? || q.AccessToken? || q.Credential?) && Replaced(q, word, y, i, k, b, c, e, u)
    requires UserinfoAt(u, j, k1, e1) && u[k1..e1] != "<redacted>@" && j < k + |Inserted(q)|
    ensures j < i && UserinfoAt(y, j, k1, e1) && y[k1..e1] != "<redacted>@"
  {
    InsertedChars(q);
    KeptChars(q, word, y, i, k, b, c, e);
    PullUserinfoSpaced(y, i, k, if q.Credential? then k else k + 1, k + |Inserted(q)|, u, j, k1, e1);
    assert y[k1..e1] == u[k1..e1];
  }

  lemma PullPastPrefixed(y: string, i: nat, k: nat, e: nat, u: string, j: nat, k1: nat, e1: nat)
    requires PrefixedAt(y, i, k, e) && SameHead(y, u, k) && SameTail(y, e, u, k + 10) && Placed(Prefixed, u, k)
    requires UserinfoAt(u, j, k1, e1) && u[k1..e1] != "<redacted>@" && j < k + 10
    ensures j < i
    ensures var e2 := if e1 <= k then e1 else e1 - 10 - k + e;
      UserinfoAt(y, j, k1, e2) && y[k1..e2] != "<redacted>@"
  {
    InsertedChars(Prefixed);
    PullUserinfoPrefixed(y, i, k, e, u, j, k1, e1);
    if e1 <= k {
      assert y[k1..e1] == u[k1..e1];
    } else {
      PrefixChars(y, i, k);
      NotRedacted(y, k1, e1 - 10 - k + e, k - 1);
    }
  }

  lemma BadUserinfo(word: char -> bool, y: string, j: nat)
    ensures Bad(Userinfo, word, y, j) <==> exists k: nat, e: nat :: UserinfoAt(y, j, k, e) && y[k..e] != "<redacted>@"
  {
    forall k: nat, e: nat ensures Parse(Userinfo, word, y, j, k, k, k, e) <==> UserinfoAt(y, j, k, e) {}
  }

  lemma PullBadUserinfo(q: Pattern, word: char -> bool, y: string, i: nat, k: nat, b: nat, c: nat, e: nat, u: string,
                        j: nat)
    requires Replaced(q, word, y, i, k, b, c, e, u) && Bad(Userinfo, word, u, j) && j < k + |Inserted(q)|
    ensures j < i && Bad(Userinfo, word, y, j)
  {
    BadUserinfo(word, u, j);
    BadUserinfo(word, y, j);
    var k1: nat, e1: nat :| UserinfoAt(u, j, k1, e1) && u[k1..e1] != "<redacted>@";
    PullUserinfo(q, word, y, i, k, b, c, e, u, j, k1, e1);
  }

  lemma PullUserinfo(q: Pattern, word: char -> bool, y: string, i: nat, k: nat, b: nat, c: nat, e: nat,
                     u: string, j: nat, k1: nat, e1: nat)
    requires Replaced(q, word, y, i, k, b, c, e, u)
    requires UserinfoAt(u, j, k1, e1) && u[k1..e1] != "<redacted>@" && j < k + |Inserted(q)|
    ensures j < i && exists e2: nat :: UserinfoAt(y, j, k1, e2) && y[k1..e2] != "<redacted>@"
  {
    if q.Userinfo? {
      PullPastUserinfo(word, y, i, k, e, u, j, k1, e1);
    } else if q.Prefixed? {
      PullPastPrefixed(y, i, k, e, u, j, k1, e1);
    } else {
      PullPastSpaced(q, word, y, i, k, b, c, e, u, j, k1, e1);
    }
  }

  lemma NoLaterUserinfo(word: char -> bool, y: string, i: nat, k: nat, e: nat, e2: nat)
    requires Greedy(Userinfo, word, y, i, k, k, k, e) && (e2 > e || e2 == 0)
    ensures !UserinfoAt(y, i, k, e2)
  {
    if UserinfoAt(y, i, k, e2) {
      assert Parse(Userinfo, word, y, i, k, k, k, e2);
      assert Later(k, k, k, e, k, k, k, e2);
    }
  }

  predicate HasLabel(p: Pattern) {
    p.Authorization? || p.AccessToken?
  }

  /** Matches of a label pattern, on its own terms. */
  lemma LabelledMatches(p: Pattern, word: char -> bool, y: string, j: nat, k1: nat, b: nat, c: nat, e: nat)
    requires HasLabel(p) && LabelAt(y, j, k1, Name(p)) && Labelled(y, k1, b, c, e)
    ensures Matches(p, word, y, j)
  {
    hide Run, Folds;
    assert Parse(p, word, y, j, k1, b, c, e);
  }

  lemma MatchesLabelled(p: Pattern, word: char -> bool, y: string, j: nat, k1: nat)
    requires HasLabel(p) && k1 == j + |Name(p)| && Matches(p, word, y, j)
    ensures LabelAt(y, j, k1, Name(p)) && exists b: nat, c: nat, e: nat :: Labelled(y, k1, b, c, e)
  {
    hide Run, Folds, Labelled;
    var k: nat, b: nat, c: nat, e: nat :| Parse(p, word, y, j, k, b, c, e);
    assert Labelled(y, k1, b, c, e);
  }

  lemma BadLabelled(p: Pattern, word: char -> bool, y: string, j: nat, k1: nat)
    requires HasLabel(p) && k1 == j + |Name(p)|
    ensures Bad(p, word, y, j) <==>
      !Marked(y, k1) && LabelAt(y, j, k1, Name(p)) && exists b: nat, c: nat, e: nat :: Labelled(y, k1, b, c, e)
  {
    hide Parse, Matches, Labelled, LabelAt, Marked;
    if Matches(p, word, y, j) { MatchesLabelled(p, word, y, j, k1); }
    if b: nat, c: nat, e: nat :| LabelAt(y, j, k1, Name(p)) && Labelled(y, k1, b, c, e) {
      LabelledMatches(p, word, y, j, k1, b, c, e);
    }
  }

  /** What is kept in front of an insertion after a label pass. */
  lemma KeptIsForeign(q: Pattern, word: char -> bool, y: string, i: nat, k: nat, b: nat, c: nat, e: nat)
    requires !q.Userinfo? && Parse(q, word, y, i, k, b, c, e)
    ensures Foreign(y, i, k) && (k - i <= 13 || LabelAt(y, i, k, ACCESS_TOKEN))
  {
    KeptChars(q, word, y, i, k, b, c, e);
    match q
    case Authorization =>
      assert Folds(y[i + 1], AUTHORIZATION[1]);
      assert y[i + 1] !in ": <redacted>";
    case AccessToken =>
      assert Folds(y[i + 1], ACCESS_TOKEN[1]);
      assert y[i + 1] !in ": <redacted>";
    case Credential =>
      CredentialStart(y, i, k, b, e);
      assert y[i] !in ": <redacted>";
    case Prefixed =>
      PrefixChars(y, i, k);
      assert y[k - 1] !in ": <redacted>";
  }

  lemma LabelEnd(p: Pattern, y: string, j: nat, k: nat)
    requires HasLabel(p) && LabelAt(y, j, k, Name(p))
    ensures k > 0 && Folds(y[k - 1], 'n')
  {
    assert p.Authorization? ==> Folds(y[j + 12], AUTHORIZATION[12]);
    assert p.AccessToken? ==> Folds(y[j + 13], ACCESS_TOKEN[13]);
  }

  lemma OwnInsertion(q: Pattern, word: char -> bool, y: string, i: nat, k: nat, b: nat, c: nat, e: nat, u: string)
    requires HasLabel(q) && Replaced(q, word, y, i, k, b, c, e, u)
    ensures Marked(u, k)
  {
    GreedyStops(q, word, y, i, k, b, c, e);
    assert u[k..k + 12] == ": <redacted>";
  }

  /** A label that ends where an insertion begins is that insertion's own. */
  lemma LabelAtCut(p: Pattern, q: Pattern, word: char -> bool, y: string, i: nat, k: nat, b: nat, c: nat, e: nat,
                   u: string, j: nat)
    requires HasLabel(p) && !q.Userinfo? && Replaced(q, word, y, i, k, b, c, e, u)
    requires LabelAt(y, j, k, Name(p))
    ensures Marked(u, k)
  {
    hide UserinfoAt, Labelled, Run, LabelAt, Marked, Placed, SameHead, SameTail;
    LabelEnd(p, y, j, k);
    if q.Credential? {
      CredentialEnd(y, i, k, b, e);
    } else if q.Prefixed? {
      PrefixChars(y, i, k);
    } else {
      OwnInsertion(q, word, y, i, k, b, c, e, u);
    }
  }

  lemma CredentialEnd(y: string, i: nat, k: nat, b: nat, e: nat)
    requires CredentialAt(y, i, k, b, e)
    ensures !Folds(y[k - 1], 'n')
  {
    assert LabelAt(y, i, k, "basic") ==> Folds(y[i + 4], "basic"[4]);
    assert LabelAt(y, i, k, "bearer") ==> Folds(y[i + 5], "bearer"[5]);
  }

  lemma InsertedUnlabelled(q: Pattern, u: string, k: nat)
    requires Placed(q, u, k)
    ensures Unlabelled(u, k, k + |Inserted(q)|) && !Wordlike(u[k])
  {
    InsertedChars(q);
  }

  lemma PullBadLabelled(p: Pattern, q: Pattern, word: char -> bool, y: string, i: nat, k: nat, b: nat, c: nat,
                        e: nat, u: string, j: nat)
    requires HasLabel(p) && !q.Userinfo? && Replaced(q, word, y, i, k, b, c, e, u)
    requires Bad(p, word, u, j) && j < k + |Inserted(q)| && Order(p) <= Order(q)
    ensures j < i && Bad(p, word, y, j)
  {
    var name := Name(p);
    var k1 := j + |name|;
    BadLabelled(p, word, u, j, k1);
    BadLabelled(p, word, y, j, k1);
    var b1: nat, c1: nat, e1: nat :| Labelled(u, k1, b1, c1, e1);
    InsertedUnlabelled(q, u, k);
    NoLabelInside(u, k, k + |Inserted(q)|, j, k1, name);
    KeptChars(q, word, y, i, k, b, c, e);
    KeptIsForeign(q, word, y, i, k, b, c, e);
    PullLabelled(y, k, u, name, j, k1, b1, c1, e1);
    if k1 == k {
      LabelAtCut(p, q, word, y, i, k, b, c, e, u, j);
    } else {
      LabelBeforeKept(y, i, k, name, j, k1);
      if Marked(y, k1) { MarkedStays(y, u, i, k, k1); }
    }
  }

  lemma PullBadCredential(q: Pattern, word: char -> bool, y: string, i: nat, k: nat, b: nat, c: nat, e: nat,
                          u: string, j: nat)
    requires (q.Credential? || q.Prefixed?) && Replaced(q, word, y, i, k, b, c, e, u)
    requires Bad(Credential, word, u, j) && j < k + |Inserted(q)|
    ensures j < i && Bad(Credential, word, y, j)
  {
    InsertedChars(q);
    InsertedUnlabelled(q, u, k);
    KeptIsShort(q, word, y, i, k, b, c, e);
    var k1: nat, b1: nat, c1: nat, e1: nat :| Parse(Credential, word, u, j, k1, b1, c1, e1);
    PullCredential(y, i, k, if q.Credential? then k + 1 else k, k + |Inserted(q)|, u, j, k1, b1, e1);
    assert Parse(Credential, word, y, j, k1, b1, c1, e1);
  }

  lemma KeptIsShort(q: Pattern, word: char -> bool, y: string, i: nat, k: nat, b: nat, c: nat, e: nat)
    requires (q.Credential? || q.Prefixed?) && Parse(q, word, y, i, k, b, c, e)
    ensures k - i <= 11
  {
  }

  lemma PullBadPrefixed(word: char -> bool, y: string, i: nat, k: nat, b: nat, c: nat, e: nat, u: string, j: nat)
    requires Replaced(Prefixed, word, y, i, k, b, c, e, u) && Bad(Prefixed, word, u, j) && j < k + 10
    ensures j < i && Bad(Prefixed, word, y, j)
  {
    InsertedChars(Prefixed);
    var k1: nat, b1: nat, c1: nat, e1: nat :| Parse(Prefixed, word, u, j, k1, b1, c1, e1);
    PullPrefixed(y, i, k, k + 10, u, j, k1, e1);
    assert Parse(Prefixed, word, y, j, k1, b1, c1, e1);
  }

  lemma BadMatches(p: Pattern, word: char -> bool, y: string, j: nat)
    requires Bad(p, word, y, j)
    ensures Matches(p, word, y, j)
  {
    if p.Userinfo? {
      var k: nat, e: nat :| Parse(p, word, y, j, k, k, k, e) && y[k..e] != "<redacted>@";
    }
  }

  lemma PullBadLeft(p: Pattern, q: Pattern, word: char -> bool, y: string, i: nat, k: nat, b: nat, c: nat, e: nat,
                    u: string, j: nat)
    requires Order(p) <= Order(q) && Replaced(q, word, y, i, k, b, c, e, u)
    requires Bad(p, word, u, j) && j < k + |Inserted(q)|
    ensures j < i && Bad(p, word, y, j)
  {
    hide Parse, Bad, Greedy, Matches;
    match p
    case Userinfo => PullBadUserinfo(q, word, y, i, k, b, c, e, u, j);
    case Authorization => PullBadLabelled(p, q, word, y, i, k, b, c, e, u, j);
    case AccessToken => PullBadLabelled(p, q, word, y, i, k, b, c, e, u, j);
    case Credential => PullBadCredential(q, word, y, i, k, b, c, e, u, j);
    case Prefixed => PullBadPrefixed(word, y, i, k, b, c, e, u, j);
  }

  /** What looks back begins with a letter, which a greedy run would have taken. */
  lemma NoneAtRest(p: Pattern, q: Pattern, word: char -> bool, y: string, i: nat, k: nat, b: nat, c: nat, e: nat)
    requires LooksBack(p) && LooksBack(q) && Greedy(q, word, y, i, k, b, c, e)
    ensures e == |y| || !(y[e] in "bBgxs")
    ensures !Matches(p, word, y, e)
  {
    GreedyStops(q, word, y, i, k, b, c, e);
    if Matches(p, word, y, e) { MatchFirst(p, word, y, e); }
  }

  lemma MatchFirst(p: Pattern, word: char -> bool, y: string, j: nat)
    requires LooksBack(p) && Matches(p, word, y, j)
    ensures j < |y| && y[j] in "bBgxs"
  {
    var k: nat, b: nat, c: nat, e: nat :| Parse(p, word, y, j, k, b, c, e);
    if p.Credential? { CredentialStart(y, j, k, b, e); } else { PrefixedChar(y, j, k, e, j); }
  }

  lemma StartsAfter(p: Pattern, q: Pattern, word: char -> bool, y: string, i: nat, k: nat, b: nat, c: nat, e: nat,
                    u: string, j: nat)
    requires LooksBack(p) && LooksBack(q) && Greedy(q, word, y, i, k, b, c, e)
    requires SameTail(y, e, u, k + |Inserted(q)|) && Matches(p, word, u, j)
    ensures j != k + |Inserted(q)|
  {
    NoneAtRest(p, q, word, y, i, k, b, c, e);
    MatchFirst(p, word, u, j);
  }

  lemma PullBadRight(p: Pattern, q: Pattern, word: char -> bool, y: string, i: nat, k: nat, b: nat, c: nat, e: nat,
                     u: string, j: nat)
    requires Order(p) <= Order(q) && Replaced(q, word, y, i, k, b, c, e, u)
    requires Bad(p, word, u, j) && j >= k + |Inserted(q)|
    ensures Bad(p, word, y, j - (k + |Inserted(q)|) + e)
  {
    hide Parse, Bad, Greedy, Matches;
    BadMatches(p, word, u, j);
    if LooksBack(p) { StartsAfter(p, q, word, y, i, k, b, c, e, u, j); }
    BadShifts(p, word, u, k + |Inserted(q)|, y, e, j);
  }

  /** A match left after a replacement was there before it: no pass makes work
      for itself or for an earlier one. */
  lemma PullBad(p: Pattern, q: Pattern, word: char -> bool, y: string, i: nat, k: nat, b: nat, c: nat, e: nat,
                u: string, j: nat)
    requires Order(p) <= Order(q) && Replaced(q, word, y, i, k, b, c, e, u) && Bad(p, word, u, j)
    ensures WasBad(p, word, y, i, k + |Inserted(q)|, e, j)
  {
    hide Parse, Bad, Greedy, Matches;
    if j < k + |Inserted(q)| {
      PullBadLeft(p, q, word, y, i, k, b, c, e, u, j);
    } else {
      PullBadRight(p, q, word, y, i, k, b, c, e, u, j);
    }
  }
}
