/** Redaction removes every match of both patterns, and redacting again changes nothing. */
module RedactionProofs {
  import opened Json
  import opened Redaction

  // ----- A clean string is a fixed point of substitution -----

  lemma {:induction false} CleanIsFixed(p: Pattern, word: bool, t: string)
    requires Clean(p, word, t)
    ensures Sub(p, word, t) == t
    decreases |t|
  {
    if t != "" { CleanIsFixed(p, IsWord(t[0]), t[1..]); }
  }

  lemma {:induction false} CleanSuffix(p: Pattern, word: bool, t: string, n: nat)
    requires Clean(p, word, t) && 0 < n <= |t|
    ensures Clean(p, IsWord(t[n - 1]), t[n..])
    decreases |t|
  {
    if n > 1 {
      CleanSuffix(p, IsWord(t[0]), t[1..], n - 1);
      assert t[1..][n - 1..] == t[n..];
    }
  }

  // ----- Putting a piece of text in front of a clean string -----

  /** No match of the pattern can begin at one of the characters of `u`. */
  predicate Inert(p: Pattern, u: string) {
    forall i | 0 <= i < |u| :: if p == BearerToken then Lower(u[i]) != 'b' else u[i] != 's'
  }

  lemma {:induction false} InertPrefix(p: Pattern, word: bool, u: string, x: string)
    requires u != "" && Inert(p, u)
    requires Clean(p, IsWord(u[|u| - 1]), x)
    ensures Clean(p, word, u + x)
    decreases |u|
  {
    var t := u + x;
    assert t[1..] == u[1..] + x;
    if |u| == 1 {
      assert t[1..] == x;
    } else {
      assert forall i | 0 <= i < |u| - 1 :: u[1..][i] == u[i + 1];
      InertPrefix(p, IsWord(u[0]), u[1..], x);
    }
    if p == ApiKey && |t| >= 3 { assert t[..3][0] == u[0] && "sk-"[0] == 's'; }
  }

  lemma ReplacementLetters()
    ensures Replacement(BearerToken) == ['B'] + ("earer " + REPLACEMENT)
    ensures Inert(BearerToken, "earer " + REPLACEMENT) && ("earer " + REPLACEMENT)[15] == ']'
    ensures ("earer " + REPLACEMENT)[5] == ' ' && ("earer " + REPLACEMENT)[6] == '['
  {
    var head := "earer ";
    assert (head + REPLACEMENT)[5] == head[5] && (head + REPLACEMENT)[6] == REPLACEMENT[0];
  }

  lemma ConsClean(word: bool, c: char, y: string)
    requires !Follows("bearer", [c] + y) && Clean(BearerToken, IsWord(c), y)
    ensures Clean(BearerToken, word, [c] + y)
  {
    assert ([c] + y)[1..] == y;
  }

  lemma ReplacedBearer(word: bool, x: string)
    requires Clean(BearerToken, false, x)
    ensures Clean(BearerToken, word, Replacement(BearerToken) + x)
  {
    ReplacementLetters();
    var rest := "earer " + REPLACEMENT;
    var t := ['B'] + (rest + x);
    InertPrefix(BearerToken, true, rest, x);
    assert t[6] == rest[5] && t[7] == rest[6];
    LettersThen("bearer", t, 6);
    ConsClean(word, 'B', rest + x);
    assert Replacement(BearerToken) + x == t;
  }

  /** Where a match of the letters is impossible: a space must come next and a token after it. */
  lemma {:induction false} LettersThen(word: string, t: string, n: nat)
    requires |word| == n && |t| > n + 1 && t[n] == ' ' && t[n + 1] == '['
    ensures !Follows(word, t)
    decreases n
  {
    if n > 0 { LettersThen(word[1..], t[1..], n - 1); }
  }

  // ----- What substitution can only remove, never create -----

  lemma {:induction false} TokenAfterSpacesKept(p: Pattern, word: bool, u: string)
    requires TokenAfterSpaces(Sub(p, word, u))
    ensures TokenAfterSpaces(u)
    decreases |u|
  {
    if u == "" {
    } else if Matches(p, word, u) {
      assert p.ApiKey? ==> u[0] == u[..3][0];
    } else {
      var y := Sub(p, IsWord(u[0]), u[1..]);
      assert ([u[0]] + y)[1..] == y;
      if !InToken(u[0]) { TokenAfterSpacesKept(p, IsWord(u[0]), u[1..]); }
    }
  }

  lemma {:induction false} FollowsKept(p: Pattern, letters: string, word: bool, u: string)
    requires Follows(letters, Sub(p, word, u))
    requires forall i | 0 <= i < |letters| :: letters[i] != Lower(Replacement(p)[0])
    ensures Follows(letters, u)
    decreases |u|
  {
    if u == "" {
    } else if Matches(p, word, u) {
      assert Sub(p, word, u)[0] == Replacement(p)[0];
    } else {
      var y := Sub(p, IsWord(u[0]), u[1..]);
      assert ([u[0]] + y)[1..] == y;
      if letters == "" {
        TokenAfterSpacesKept(p, IsWord(u[0]), u[1..]);
      } else {
        FollowsKept(p, letters[1..], IsWord(u[0]), u[1..]);
      }
    }
  }

  lemma {:induction false} LongestKeyKept(word: bool, u: string, need: nat)
    requires LongestKey(Sub(ApiKey, word, u), need, word) >= 0
    ensures LongestKey(u, need, word) >= 0
    decreases |u|
  {
    if u == "" {
    } else if !Matches(ApiKey, word, u) {
      var y := Sub(ApiKey, IsWord(u[0]), u[1..]);
      var need' := if need == 0 then 0 else need - 1;
      assert ([u[0]] + y)[1..] == y;
      if InKey(u[0]) && LongestKey(y, need', IsWord(u[0])) >= 0 {
        LongestKeyKept(IsWord(u[0]), u[1..], need');
      }
    }
  }

  // ----- What follows a match -----

  /** A run of word characters always ends on a boundary. */
  lemma {:induction false} WordRunEnds(t: string)
    ensures LongestKey(t, 0, true) >= 0
    decreases |t|
  {
    if WordFirst(t) { WordRunEnds(t[1..]); }
  }

  lemma {:induction false} KeyEndsBeforeNonWord(t: string, need: nat, word: bool)
    requires LongestKey(t, need, word) >= 0
    ensures !WordFirst(t[LongestKey(t, need, word)..])
    decreases |t|
  {
    var need' := if need == 0 then 0 else need - 1;
    if t != "" && InKey(t[0]) && LongestKey(t[1..], need', IsWord(t[0])) >= 0 {
      KeyEndsBeforeNonWord(t[1..], need', IsWord(t[0]));
      assert t[1..][LongestKey(t[1..], need', IsWord(t[0]))..] == t[LongestKey(t, need, word)..];
    } else if WordFirst(t) {
      WordRunEnds(t[1..]);
    }
  }

  lemma MatchEndsBeforeNonWord(p: Pattern, word: bool, t: string)
    requires Matches(p, word, t)
    ensures !WordFirst(t[MatchLength(p, word, t)..])
  {
    match p
    case BearerToken =>
      FollowsLength("bearer", t);
      var start := 6 + SkipSpaces(t[6..]);
      var n := SkipToken(t[start..]);
      assert t[start..][n..] == t[start + n..];
    case ApiKey =>
      KeyEndsBeforeNonWord(t[3..], 6, false);
      assert t[3..][LongestKey(t[3..], 6, false)..] == t[MatchLength(p, word, t)..];
  }

  // ----- Substitution leaves nothing of its own pattern -----

  /** `after` is the left context in the output; it differs from the context in the input only
      where a replaced match came before, and then `t` does not begin with a word character. */
  lemma {:induction false} SubIsClean(p: Pattern, word: bool, after: bool, t: string)
    requires after == word || (!after && !WordFirst(t))
    ensures Clean(p, after, Sub(p, word, t))
    decreases |t|
  {
    if t == "" {
    } else if Matches(p, word, t) {
      var n := MatchLength(p, word, t);
      MatchEndsBeforeNonWord(p, word, t);
      SubIsClean(p, IsWord(t[n - 1]), false, t[n..]);
      var x := Sub(p, IsWord(t[n - 1]), t[n..]);
      match p
      case BearerToken => ReplacedBearer(after, x);
      case ApiKey => InertPrefix(p, after, REPLACEMENT, x);
    } else {
      var y := Sub(p, IsWord(t[0]), t[1..]);
      assert ([t[0]] + y)[1..] == y;
      SubIsClean(p, IsWord(t[0]), IsWord(t[0]), t[1..]);
      if Matches(p, after, [t[0]] + y) { NoNewMatch(p, word, after, t); }
    }
  }

  lemma NoNewMatch(p: Pattern, word: bool, after: bool, t: string)
    requires t != "" && (after == word || (!after && !WordFirst(t)))
    requires !Matches(p, word, t)
    ensures !Matches(p, after, [t[0]] + Sub(p, IsWord(t[0]), t[1..]))
  {
    if Matches(p, after, [t[0]] + Sub(p, IsWord(t[0]), t[1..])) {
      match p
      case BearerToken => BearerWasThere(p, after, t);
      case ApiKey => KeyWasThere(after, t);
    }
  }

  lemma BearerWasThere(p: Pattern, after: bool, t: string)
    requires t != "" && Matches(BearerToken, after, [t[0]] + Sub(p, IsWord(t[0]), t[1..]))
    ensures Matches(BearerToken, after, t) && IsWord(t[0])
  {
    var y := Sub(p, IsWord(t[0]), t[1..]);
    assert ([t[0]] + y)[1..] == y;
    assert "bearer"[1..] == "earer";
    FollowsKept(p, "earer", IsWord(t[0]), t[1..]);
  }

  lemma KeyWasThere(after: bool, t: string)
    requires t != "" && Matches(ApiKey, after, [t[0]] + Sub(ApiKey, IsWord(t[0]), t[1..]))
    ensures Matches(ApiKey, after, t) && IsWord(t[0])
  {
    var y := Sub(ApiKey, IsWord(t[0]), t[1..]);
    var out := [t[0]] + y;
    assert out[..3][0] == t[0] && out[..3][1] == y[0] && out[..3][2] == y[1];
    assert t[0] == 's' && y[0] == 'k' && y[1] == '-';
    TwoCopied(t[1..]);
    assert t[1..][2..] == t[3..] && out[3..] == y[2..];
    LongestKeyKept(false, t[3..], 6);
    assert t[..3] == "sk-";
  }

  /** An output that begins with k and - was copied from there. */
  lemma TwoCopied(u: string)
    requires var y := Sub(ApiKey, true, u); |y| >= 2 && y[0] == 'k' && y[1] == '-'
    ensures |u| >= 2 && u[0] == 'k' && u[1] == '-'
    ensures Sub(ApiKey, true, u)[2..] == Sub(ApiKey, false, u[2..])
  {
    CopiedHead(true, u);
    var z := Sub(ApiKey, true, u[1..]);
    assert Sub(ApiKey, true, u) == ['k'] + z && z[0] == '-';
    CopiedHead(true, u[1..]);
    assert u[1..][1..] == u[2..];
    assert Sub(ApiKey, true, u)[2..] == z[1..] == Sub(ApiKey, false, u[2..]);
  }

  /** An output character other than '[' is a copied one. */
  lemma CopiedHead(word: bool, u: string)
    requires Sub(ApiKey, word, u) != "" && Sub(ApiKey, word, u)[0] != '['
    ensures u != "" && u[0] == Sub(ApiKey, word, u)[0]
    ensures Sub(ApiKey, word, u) == [u[0]] + Sub(ApiKey, IsWord(u[0]), u[1..])
  {
  }

  // ----- The second substitution keeps what the first achieved -----

  lemma {:induction false} KeySubKeepsBearerClean(word: bool, after: bool, t: string)
    requires Clean(BearerToken, word, t)
    requires after == word || (!after && !WordFirst(t))
    ensures Clean(BearerToken, after, Sub(ApiKey, word, t))
    decreases |t|
  {
    if t == "" {
    } else if Matches(ApiKey, word, t) {
      var n := MatchLength(ApiKey, word, t);
      MatchEndsBeforeNonWord(ApiKey, word, t);
      CleanSuffix(BearerToken, word, t, n);
      KeySubKeepsBearerClean(IsWord(t[n - 1]), false, t[n..]);
      InertPrefix(BearerToken, after, REPLACEMENT, Sub(ApiKey, IsWord(t[n - 1]), t[n..]));
    } else {
      KeySubKeepsBearerClean(IsWord(t[0]), IsWord(t[0]), t[1..]);
      CopiedStaysClean(word, after, t);
    }
  }

  lemma CopiedStaysClean(word: bool, after: bool, t: string)
    requires t != "" && !Matches(BearerToken, word, t) && (after == word || (!after && !WordFirst(t)))
    requires Clean(BearerToken, IsWord(t[0]), Sub(ApiKey, IsWord(t[0]), t[1..]))
    ensures Clean(BearerToken, after, [t[0]] + Sub(ApiKey, IsWord(t[0]), t[1..]))
  {
    var y := Sub(ApiKey, IsWord(t[0]), t[1..]);
    assert ([t[0]] + y)[1..] == y;
    if Matches(BearerToken, after, [t[0]] + y) { BearerWasThere(ApiKey, after, t); }
  }

  lemma RedactTextIsClean(s: string)
    ensures CleanText(RedactText(s))
  {
    SubIsClean(BearerToken, false, false, s);
    KeySubKeepsBearerClean(false, false, Sub(BearerToken, false, s));
    SubIsClean(ApiKey, false, false, Sub(BearerToken, false, s));
  }

  /** Exactly the strings without a match are left alone. */
  lemma RedactTextFixed(s: string)
    ensures RedactText(s) == s <==> CleanText(s)
  {
    RedactTextIsClean(s);
    if CleanText(s) {
      CleanIsFixed(BearerToken, false, s);
      CleanIsFixed(ApiKey, false, s);
    }
  }

  /** `Clean` read by position: no index of the string begins a match. */
  lemma {:induction false} CleanByIndex(p: Pattern, word: bool, t: string)
    ensures Clean(p, word, t)
       <==> forall i | 0 <= i < |t| :: !Matches(p, if i == 0 then word else IsWord(t[i - 1]), t[i..])
    decreases |t|
  {
    if t != "" {
      CleanByIndex(p, IsWord(t[0]), t[1..]);
      assert t[0..] == t;
      assert forall i | 0 <= i < |t| - 1 :: t[1..][i..] == t[i + 1..] && t[1..][i] == t[i + 1];
      forall i | 0 <= i < |t| - 1
        ensures Matches(p, if i == 0 then IsWord(t[0]) else IsWord(t[1..][i - 1]), t[1..][i..])
           <==> Matches(p, IsWord(t[i]), t[i + 1..])
      {
      }
    }
  }

  /** No spaces, and no letter k or no hyphen: such a text cannot hold a secret. */
  predicate Plain(t: string) {
    && (forall i | 0 <= i < |t| :: !IsSpace(t[i]))
    && ((forall i | 0 <= i < |t| :: t[i] != 'k') || (forall i | 0 <= i < |t| :: t[i] != '-'))
  }

  lemma {:induction false} PlainIsClean(p: Pattern, word: bool, t: string)
    requires Plain(t)
    ensures Clean(p, word, t)
    decreases |t|
  {
    if t != "" {
      PlainIsClean(p, IsWord(t[0]), t[1..]);
      if p.ApiKey? && |t| >= 3 { assert t[..3][1] == t[1] && t[..3][2] == t[2]; }
      NoSpaceNoToken("bearer", t);
    }
  }

  lemma {:induction false} NoSpaceNoToken(word: string, t: string)
    requires forall i | 0 <= i < |t| :: !IsSpace(t[i])
    ensures !Follows(word, t)
    decreases |word|
  {
    if word != "" && t != "" { NoSpaceNoToken(word[1..], t[1..]); }
  }

  lemma PlainIsFixed(t: string)
    requires Plain(t)
    ensures RedactText(t) == t
  {
    PlainIsClean(BearerToken, false, t);
    PlainIsClean(ApiKey, false, t);
    RedactTextFixed(t);
  }

  lemma {:induction false} SubUnchanged(p: Pattern, word: bool, t: string)
    requires '[' !in Sub(p, word, t)
    ensures Sub(p, word, t) == t
    decreases |t|
  {
    if t != "" && !Matches(p, word, t) {
      SubUnchanged(p, IsWord(t[0]), t[1..]);
    } else {
      assert '[' in Replacement(p);
    }
  }

  /** Whatever redaction rewrites carries a bracket. */
  lemma NoBracketUnchanged(s: string)
    requires '[' !in RedactText(s)
    ensures RedactText(s) == s
  {
    SubUnchanged(ApiKey, false, Sub(BearerToken, false, s));
    SubUnchanged(BearerToken, false, s);
  }

  // ----- Nested values -----

  lemma {:induction false} RedactSanitizes(sensitive: set<string>, v: Value)
    ensures Sanitized(sensitive, Redact(sensitive, v))
  {
    match v
    case Dict(m) =>
      forall k | k in m && !Sensitive(sensitive, k) ensures Sanitized(sensitive, Redact(sensitive, m[k])) {
        RedactSanitizes(sensitive, m[k]);
      }
    case List(xs) =>
      forall i | 0 <= i < |xs| ensures Sanitized(sensitive, Redact(sensitive, xs[i])) {
        RedactSanitizes(sensitive, xs[i]);
      }
    case Tuple(xs) =>
      forall i | 0 <= i < |xs| ensures Sanitized(sensitive, Redact(sensitive, xs[i])) {
        RedactSanitizes(sensitive, xs[i]);
      }
    case Str(s) => RedactTextIsClean(s);
    case _ =>
  }

  lemma {:induction false} SanitizedIsFixed(sensitive: set<string>, v: Value)
    requires Sanitized(sensitive, v)
    ensures Redact(sensitive, v) == v
  {
    match v
    case Dict(m) =>
      forall k | k in m && !Sensitive(sensitive, k) ensures Redact(sensitive, m[k]) == m[k] {
        SanitizedIsFixed(sensitive, m[k]);
      }
      assert Redact(sensitive, v).fields == m;
    case List(xs) =>
      forall i | 0 <= i < |xs| ensures Redact(sensitive, xs[i]) == xs[i] {
        SanitizedIsFixed(sensitive, xs[i]);
      }
    case Tuple(xs) =>
      forall i | 0 <= i < |xs| ensures Redact(sensitive, xs[i]) == xs[i] {
        SanitizedIsFixed(sensitive, xs[i]);
      }
    case Str(s) => RedactTextFixed(s);
    case _ =>
  }

  /** `emit` redacts an event and `_append` redacts it again: the second pass is the identity, and
      the values that redaction leaves alone are exactly the sanitized ones. */
  lemma RedactIdempotent(sensitive: set<string>, v: Value)
    ensures Redact(sensitive, Redact(sensitive, v)) == Redact(sensitive, v)
    ensures Redact(sensitive, v) == v <==> Sanitized(sensitive, v)
  {
    RedactSanitizes(sensitive, v);
    SanitizedIsFixed(sensitive, Redact(sensitive, v));
    if Sanitized(sensitive, v) { SanitizedIsFixed(sensitive, v); }
  }
}
