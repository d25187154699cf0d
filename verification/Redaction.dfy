/**
 Secret redaction (security/redaction.py).

 The two regular expressions are modelled as the left-to-right scans that `re.sub` performs, with
 `\b` decided from the character just consumed. Character classes are the ASCII ones; a character
 outside ASCII belongs to none of them.
 */
module Redaction {
  import opened Json

  const REPLACEMENT := "[REDACTED]"

  // ----- Characters -----

  predicate IsLetter(c: char) { 'a' <= c <= 'z' || 'A' <= c <= 'Z' }

  predicate IsWord(c: char) { IsLetter(c) || '0' <= c <= '9' || c == '_' }

  predicate IsSpace(c: char) { '\t' <= c <= '\r' || (28 as char) <= c <= ' ' }

  /** `[A-Za-z0-9._~+/=-]` */
  predicate InToken(c: char) { IsWord(c) || c in {'.', '~', '+', '/', '=', '-'} }

  /** `[A-Za-z0-9_-]` */
  predicate InKey(c: char) { IsWord(c) || c == '-' }

  function Lower(c: char): char {
    if 'A' <= c <= 'Z' then c - 'A' + 'a' else c
  }

  function Casefold(s: string): string { seq(|s|, i requires 0 <= i < |s| => Lower(s[i])) }

  predicate WordFirst(t: string) { t != "" && IsWord(t[0]) }

  // ----- The pattern for bearer tokens:  (?i)\bBearer\s+[A-Za-z0-9._~+/=-]+ -----

  /** What `\s+[class]+` still accepts once at least one space has been read. */
  predicate TokenAfterSpaces(t: string) {
    t != "" && (InToken(t[0]) || (IsSpace(t[0]) && TokenAfterSpaces(t[1..])))
  }

  /** `t` continues with the letters of `word`, in any case, then spaces and a token. */
  predicate Follows(word: string, t: string)
    decreases |word|
  {
    if word == "" then t != "" && IsSpace(t[0]) && TokenAfterSpaces(t[1..])
    else t != "" && Lower(t[0]) == word[0] && Follows(word[1..], t[1..])
  }

  function SkipToken(t: string): (n: nat)
    ensures n <= |t|
    ensures n < |t| ==> !InToken(t[n])
  {
    if t != "" && InToken(t[0]) then 1 + SkipToken(t[1..]) else 0
  }

  function SkipSpaces(t: string): (n: nat)
    ensures n <= |t|
  {
    if t != "" && IsSpace(t[0]) then 1 + SkipSpaces(t[1..]) else 0
  }

  // ----- The pattern for API keys:  \bsk-[A-Za-z0-9_-]{6,}\b -----

  /** Length of the longest run of at least `need` key characters at the front of `t` that ends on
      a word boundary, as greedy matching with backtracking finds it; -1 when there is none.
      `word` says whether the character before `t` is a word character. */
  function LongestKey(t: string, need: nat, word: bool): (n: int)
    ensures -1 <= n <= |t|
    ensures n >= 0 ==> n >= need
  {
    var longer :=
      if t != "" && InKey(t[0]) then LongestKey(t[1..], if need == 0 then 0 else need - 1, IsWord(t[0]))
      else -1;
    if longer >= 0 then longer + 1
    else if need == 0 && word != WordFirst(t) then 0
    else -1
  }

  // ----- Substitution -----

  datatype Pattern = BearerToken | ApiKey

  function Replacement(p: Pattern): string {
    match p
    case BearerToken => "Bearer " + REPLACEMENT
    case ApiKey => REPLACEMENT
  }

  /** Does the pattern match at the front of `t`, `word` telling whether a word character precedes? */
  predicate Matches(p: Pattern, word: bool, t: string) {
    match p
    case BearerToken => !word && Follows("bearer", t)
    case ApiKey => !word && |t| >= 3 && t[..3] == "sk-" && LongestKey(t[3..], 6, false) >= 0
  }

  /** The number of characters that the match at the front of `t` takes. */
  function MatchLength(p: Pattern, word: bool, t: string): (n: nat)
    requires Matches(p, word, t)
    ensures 0 < n <= |t|
  {
    match p
    case BearerToken =>
      FollowsLength("bearer", t);
      var spaces := SkipSpaces(t[6..]);
      6 + spaces + SkipToken(t[6 + spaces..])
    case ApiKey => 3 + LongestKey(t[3..], 6, false)
  }

  lemma {:induction false} FollowsLength(word: string, t: string)
    requires Follows(word, t)
    ensures |word| < |t|
  {
    if word != "" { FollowsLength(word[1..], t[1..]); }
  }

  /** `pattern.sub(replacement, t)`, read from the left with `word` as the left context. */
  function Sub(p: Pattern, word: bool, t: string): string
    decreases |t|
  {
    if t == "" then ""
    else if Matches(p, word, t) then
      var n := MatchLength(p, word, t);
      Replacement(p) + Sub(p, IsWord(t[n - 1]), t[n..])
    else [t[0]] + Sub(p, IsWord(t[0]), t[1..])
  }

  /** No match of the pattern starts anywhere in `t`. */
  predicate Clean(p: Pattern, word: bool, t: string)
    decreases |t|
  {
    t != "" ==> !Matches(p, word, t) && Clean(p, IsWord(t[0]), t[1..])
  }

  function RedactText(s: string): string {
    Sub(ApiKey, false, Sub(BearerToken, false, s))
  }

  predicate CleanText(s: string) { Clean(BearerToken, false, s) && Clean(ApiKey, false, s) }

  const SECRET_PATTERNS: seq<Pattern> := [BearerToken, ApiKey]

  /** The string case of `redact`: a loop over the patterns. */
  method RedactString(value: string) returns (redacted: string)
    ensures redacted == RedactText(value)
  {
    redacted := value;
    for i := 0 to |SECRET_PATTERNS|
      invariant i == 0 ==> redacted == value
      invariant i == 1 ==> redacted == Sub(BearerToken, false, value)
      invariant i == 2 ==> redacted == RedactText(value)
    {
      redacted := Sub(SECRET_PATTERNS[i], false, redacted);
    }
  }

  // ----- Nested values -----

  const SENSITIVE_KEYS: set<string> :=
    {"authorization", "proxy-authorization", "cookie", "set-cookie", "api_key", "apikey", "access_token",
     "refresh_token", "password", "secret", "client_secret"}

  predicate Sensitive(sensitive: set<string>, key: string) { Casefold(key) in sensitive }

  function Redact(sensitive: set<string>, v: Value): Value {
    match v
    case Dict(m) =>
      Dict(map k | k in m :: if Sensitive(sensitive, k) then Str(REPLACEMENT) else Redact(sensitive, m[k]))
    case List(xs) => List(seq(|xs|, i requires 0 <= i < |xs| => Redact(sensitive, xs[i])))
    case Tuple(xs) => Tuple(seq(|xs|, i requires 0 <= i < |xs| => Redact(sensitive, xs[i])))
    case Str(s) => Str(RedactText(s))
    case _ => v
  }

  /** What redaction promises: a sensitive key holds the replacement, and no other string value
      contains a match of either pattern. */
  predicate Sanitized(sensitive: set<string>, v: Value) {
    match v
    case Dict(m) =>
      forall k | k in m ::
        if Sensitive(sensitive, k) then m[k] == Str(REPLACEMENT) else Sanitized(sensitive, m[k])
    case List(xs) => forall i | 0 <= i < |xs| :: Sanitized(sensitive, xs[i])
    case Tuple(xs) => forall i | 0 <= i < |xs| :: Sanitized(sensitive, xs[i])
    case Str(s) => CleanText(s)
    case _ => true
  }
}
