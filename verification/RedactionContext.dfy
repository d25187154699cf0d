/**
 Redaction of a text is redaction of its parts, if the first part stands apart: it does not end within what
 could still become a secret.
 */
module RedactionContext {
  import opened Json
  import opened Redaction
  import opened RedactionProofs

  // ----- Where a match is still undecided -----

  /** Spaces and then token characters up to the end. */
  predicate AwaitsToken(v: string) {
    (forall i | 0 <= i < |v| :: InToken(v[i])) || (v != "" && IsSpace(v[0]) && AwaitsToken(v[1..]))
  }

  /** The letters of `word`, a space, and nothing that ends the match. */
  predicate Awaits(word: string, t: string)
    decreases |word|
  {
    if word == "" then t != "" && IsSpace(t[0]) && AwaitsToken(t[1..])
    else t != "" && Lower(t[0]) == word[0] && Awaits(word[1..], t[1..])
  }

  /** Whether a match begins at the front of `t`, or how far it goes, depends on what follows `t`. */
  predicate Pending(p: Pattern, word: bool, t: string) {
    match p
    case BearerToken => !word && Awaits("bearer", t)
    case ApiKey => !word && |t| >= 3 && t[..3] == "sk-" && forall i | 3 <= i < |t| :: InKey(t[i])
  }

  /** The substitution reaches the end of `u` without coming to an undecided match. */
  predicate Settled(p: Pattern, word: bool, u: string)
    decreases |u|
  {
    u != "" ==>
      && !Pending(p, word, u)
      && if Matches(p, word, u) then
           var n := MatchLength(p, word, u); Settled(p, IsWord(u[n - 1]), u[n..])
         else Settled(p, IsWord(u[0]), u[1..])
  }

  predicate AllWord(t: string) { forall i | 0 <= i < |t| :: IsWord(t[i]) }

  /** No beginning of a match at the end of `u` is completed by `x`. */
  predicate Blunt(p: Pattern, u: string, x: string) {
    forall i | 0 <= i < |u| && AllWord(u[i..]) :: !Matches(p, false, u[i..] + x)
  }

  lemma BluntSuffix(p: Pattern, u: string, x: string, n: nat)
    requires n <= |u| && Blunt(p, u, x)
    ensures Blunt(p, u[n..], x)
  {
    forall i | 0 <= i < |u| - n && AllWord(u[n..][i..]) ensures !Matches(p, false, u[n..][i..] + x) {
      assert u[n..][i..] == u[n + i..];
    }
  }

  // ----- A decided match does not depend on what follows -----

  lemma {:induction false} SkipSeam(v: string, x: string)
    requires exists i | 0 <= i < |v| :: !InToken(v[i])
    ensures SkipToken(v + x) == SkipToken(v)
    decreases |v|
  {
    if InToken(v[0]) {
      assert (v + x)[1..] == v[1..] + x;
      assert exists i | 0 <= i < |v| - 1 :: !InToken(v[1..][i]);
      SkipSeam(v[1..], x);
    }
  }

  lemma {:induction false} AfterSpacesSeam(v: string, x: string)
    requires !AwaitsToken(v)
    ensures TokenAfterSpaces(v + x) == TokenAfterSpaces(v)
    ensures TokenAfterSpaces(v) ==>
      var n := SkipSpaces(v); SkipSpaces(v + x) == n && SkipToken((v + x)[n..]) == SkipToken(v[n..])
    decreases |v|
  {
    assert v != "" && (v + x)[0] == v[0];
    if IsSpace(v[0]) {
      assert (v + x)[1..] == v[1..] + x;
      AfterSpacesSeam(v[1..], x);
      if TokenAfterSpaces(v) {
        var n := SkipSpaces(v[1..]);
        assert v[1 + n..] == v[1..][n..] && (v + x)[1 + n..] == (v[1..] + x)[n..];
      }
    } else if InToken(v[0]) {
      SkipSeam(v, x);
      assert v[0..] == v && (v + x)[0..] == v + x;
    }
  }

  predicate Letters(word: string) { forall i | 0 <= i < |word| :: 'a' <= word[i] <= 'z' }

  lemma {:induction false} FollowsSeam(word: string, u: string, x: string)
    requires !Awaits(word, u) && !AllWord(u) && Letters(word)
    ensures Follows(word, u + x) == Follows(word, u)
    decreases |word|
  {
    assert u != "" && (u + x)[0] == u[0] && (u + x)[1..] == u[1..] + x;
    if word == "" {
      if IsSpace(u[0]) { AfterSpacesSeam(u[1..], x); }
    } else if Lower(u[0]) == word[0] {
      assert IsWord(u[0]);
      assert u == [u[0]] + u[1..];
      FollowsSeam(word[1..], u[1..], x);
    }
  }

  /** Past the letters: what the match of a token goes on with. */
  lemma {:induction false} LettersTaken(word: string, u: string)
    requires Follows(word, u) && !Awaits(word, u)
    ensures |word| < |u| && !AwaitsToken(u[|word| + 1..]) && IsSpace(u[|word|]) && TokenAfterSpaces(u[|word| + 1..])
    decreases |word|
  {
    if word == "" {
      assert u[0..] == u;
    } else {
      LettersTaken(word[1..], u[1..]);
      assert u[1..][|word|..] == u[|word| + 1..];
    }
  }

  lemma BearerLengthIs(t: string, v: string)
    requires Follows("bearer", t) && |t| > 6 && v == t[6..]
    ensures var n := SkipSpaces(v); MatchLength(BearerToken, false, t) == 6 + n + SkipToken(v[n..])
  {
    assert t[6 + SkipSpaces(v)..] == v[SkipSpaces(v)..];
  }

  lemma OneSpace(c: char, w: string)
    requires IsSpace(c)
    ensures var v := [c] + w; SkipSpaces(v) == 1 + SkipSpaces(w) && v[1 + SkipSpaces(w)..] == w[SkipSpaces(w)..]
  {
    assert ([c] + w)[1..] == w;
  }

  lemma BearerLengthAt(t: string, c: char, w: string)
    requires Follows("bearer", t) && |t| > 6 && t[6..] == [c] + w && IsSpace(c)
    ensures var n := SkipSpaces(w); MatchLength(BearerToken, false, t) == 7 + n + SkipToken(w[n..])
  {
    OneSpace(c, w);
    BearerLengthIs(t, [c] + w);
  }

  lemma SameLength(t: string, u: string, c: char, v: string, w: string)
    requires Follows("bearer", t) && |t| > 6 && t[6..] == [c] + v && IsSpace(c)
    requires Follows("bearer", u) && |u| > 6 && u[6..] == [c] + w
    requires var n := SkipSpaces(w); SkipSpaces(v) == n && SkipToken(v[n..]) == SkipToken(w[n..])
    ensures MatchLength(BearerToken, false, t) == MatchLength(BearerToken, false, u)
  {
    BearerLengthAt(t, c, v);
    BearerLengthAt(u, c, w);
  }

  lemma Behind(u: string, x: string)
    requires |u| > 6
    ensures u[6..] == [u[6]] + u[7..] && (u + x)[6..] == [u[6]] + (u[7..] + x)
  {
  }

  lemma BearerLength(u: string, x: string)
    requires Follows("bearer", u) && Follows("bearer", u + x) && !Awaits("bearer", u)
    ensures MatchLength(BearerToken, false, u + x) == MatchLength(BearerToken, false, u)
  {
    LettersTaken("bearer", u);
    AfterSpacesSeam(u[7..], x);
    Behind(u, x);
    SameLength(u + x, u, u[6], u[7..] + x, u[7..]);
  }

  lemma {:induction false} LongestSeam(v: string, x: string, need: nat, word: bool)
    requires exists i | 0 <= i < |v| :: !InKey(v[i])
    ensures LongestKey(v + x, need, word) == LongestKey(v, need, word)
    decreases |v|
  {
    assert (v + x)[0] == v[0];
    if InKey(v[0]) {
      assert (v + x)[1..] == v[1..] + x;
      assert exists i | 0 <= i < |v| - 1 :: !InKey(v[1..][i]);
      LongestSeam(v[1..], x, if need == 0 then 0 else need - 1, IsWord(v[0]));
    }
  }

  lemma KeyLetters(t: string)
    requires |t| >= 3 && t[..3] == "sk-"
    ensures t[0] == 's' && t[1] == 'k' && t[2] == '-'
  {
    assert t[..3][0] == t[0] && t[..3][1] == t[1] && t[..3][2] == t[2];
  }

  lemma KeySeam(word: bool, u: string, x: string)
    requires !Pending(ApiKey, word, u) && !AllWord(u)
    ensures Matches(ApiKey, word, u + x) == Matches(ApiKey, word, u)
    ensures Matches(ApiKey, word, u) ==> MatchLength(ApiKey, word, u + x) == MatchLength(ApiKey, word, u)
  {
    if |u| >= 3 {
      assert (u + x)[..3] == u[..3] && (u + x)[3..] == u[3..] + x;
      if !word && u[..3] == "sk-" {
        var i :| 3 <= i < |u| && !InKey(u[i]);
        assert !InKey(u[3..][i - 3]);
        LongestSeam(u[3..], x, 6, false);
      }
    } else if |u + x| >= 3 && (u + x)[..3] == "sk-" {
      KeyLetters(u + x);
    }
  }

  lemma BearerSeam(word: bool, u: string, x: string)
    requires !Pending(BearerToken, word, u) && !AllWord(u)
    ensures Matches(BearerToken, word, u + x) == Matches(BearerToken, word, u)
    ensures Matches(BearerToken, word, u) ==> MatchLength(BearerToken, word, u + x) == MatchLength(BearerToken, word, u)
  {
    if !word {
      FollowsSeam("bearer", u, x);
      if Matches(BearerToken, word, u) { BearerLength(u, x); }
    }
  }

  lemma {:induction false} WordsDoNotFollow(word: string, t: string)
    requires AllWord(t)
    ensures !Follows(word, t)
    decreases |word|
  {
    if word != "" && t != "" { WordsDoNotFollow(word[1..], t[1..]); }
  }

  lemma WordsDoNotMatch(p: Pattern, word: bool, t: string)
    requires AllWord(t)
    ensures !Matches(p, word, t)
  {
    match p
    case BearerToken => WordsDoNotFollow("bearer", t);
    case ApiKey => if |t| >= 3 && t[..3] == "sk-" { KeyLetters(t); }
  }

  lemma Seam(p: Pattern, word: bool, u: string, x: string)
    requires u != "" && !Pending(p, word, u) && Blunt(p, u, x)
    ensures Matches(p, word, u + x) == Matches(p, word, u)
    ensures Matches(p, word, u) ==> MatchLength(p, word, u + x) == MatchLength(p, word, u)
  {
    if AllWord(u) {
      WordsDoNotMatch(p, word, u);
      assert u[0..] == u;
    } else {
      match p
      case BearerToken => BearerSeam(word, u, x);
      case ApiKey => KeySeam(word, u, x);
    }
  }

  // ----- Substitution splits -----

  function Context(word: bool, u: string): bool { if u == "" then word else IsWord(u[|u| - 1]) }

  /** How far the scan goes in one step, and what it puts out. */
  function Next(p: Pattern, word: bool, u: string): (n: nat)
    requires u != ""
    ensures 0 < n <= |u|
  {
    if Matches(p, word, u) then MatchLength(p, word, u) else 1
  }

  function Head(p: Pattern, word: bool, u: string): string
    requires u != ""
  {
    if Matches(p, word, u) then Replacement(p) else [u[0]]
  }

  lemma MatchedSub(p: Pattern, word: bool, t: string, n: nat)
    requires Matches(p, word, t) && n == MatchLength(p, word, t)
    ensures Sub(p, word, t) == Replacement(p) + Sub(p, IsWord(t[n - 1]), t[n..])
  {
  }

  lemma CopiedSub(p: Pattern, word: bool, t: string)
    requires t != "" && !Matches(p, word, t)
    ensures Sub(p, word, t) == [t[0]] + Sub(p, IsWord(t[0]), t[1..])
  {
  }

  lemma SubNext(p: Pattern, word: bool, u: string)
    requires u != ""
    ensures var n := Next(p, word, u); Sub(p, word, u) == Head(p, word, u) + Sub(p, IsWord(u[n - 1]), u[n..])
  {
    if Matches(p, word, u) { MatchedSub(p, word, u, MatchLength(p, word, u)); } else { CopiedSub(p, word, u); }
  }

  lemma SettledNext(p: Pattern, word: bool, u: string)
    requires u != "" && !Pending(p, word, u)
    ensures var n := Next(p, word, u); Settled(p, word, u) == Settled(p, IsWord(u[n - 1]), u[n..])
  {
  }

  lemma SeamNext(p: Pattern, word: bool, u: string, x: string)
    requires u != "" && !Pending(p, word, u) && Blunt(p, u, x)
    ensures Next(p, word, u + x) == Next(p, word, u) && Head(p, word, u + x) == Head(p, word, u)
  {
    Seam(p, word, u, x);
  }

  lemma StepBehind(p: Pattern, word: bool, u: string, x: string, n: nat, head: string)
    requires 0 < n <= |u|
    requires Sub(p, word, u + x) == head + Sub(p, IsWord((u + x)[n - 1]), (u + x)[n..])
    ensures Sub(p, word, u + x) == head + Sub(p, IsWord(u[n - 1]), u[n..] + x)
  {
    assert (u + x)[n..] == u[n..] + x;
  }

  /** One step within a text, with another text behind it. */
  lemma SubStep(p: Pattern, word: bool, u: string, x: string)
    requires u != "" && !Pending(p, word, u) && Blunt(p, u, x)
    ensures var n, head := Next(p, word, u), Head(p, word, u);
      && Sub(p, word, u) == head + Sub(p, IsWord(u[n - 1]), u[n..])
      && Sub(p, word, u + x) == head + Sub(p, IsWord(u[n - 1]), u[n..] + x)
  {
    SeamNext(p, word, u, x);
    SubNext(p, word, u);
    SubNext(p, word, u + x);
    StepBehind(p, word, u, x, Next(p, word, u), Head(p, word, u));
  }

  lemma Glue(a: string, b: string, c: string)
    ensures a + (b + c) == a + b + c
  {
  }

  lemma ContextNext(word: bool, u: string, n: nat)
    requires 0 < n <= |u|
    ensures Context(IsWord(u[n - 1]), u[n..]) == Context(word, u)
  {
  }

  /** A settled text is substituted on its own. */
  lemma {:induction false} SubSplits(p: Pattern, word: bool, u: string, x: string)
    requires Settled(p, word, u) && Blunt(p, u, x)
    ensures Sub(p, word, u + x) == Sub(p, word, u) + Sub(p, Context(word, u), x)
    decreases |u|
  {
    if u == "" {
      assert u + x == x;
    } else {
      var n := Next(p, word, u);
      SettledNext(p, word, u);
      SubStep(p, word, u, x);
      BluntSuffix(p, u, x, n);
      SubSplits(p, IsWord(u[n - 1]), u[n..], x);
      ContextNext(word, u, n);
      Glue(Head(p, word, u), Sub(p, IsWord(u[n - 1]), u[n..]), Sub(p, Context(word, u), x));
    }
  }

  /** No match begins at position `i` of `u` with `x` behind it. */
  predicate Silent(p: Pattern, word: bool, u: string, x: string, i: nat)
    requires i < |u|
  {
    !Matches(p, if i == 0 then word else IsWord(u[i - 1]), u[i..] + x)
  }

  lemma SilentTail(p: Pattern, word: bool, u: string, x: string)
    requires u != "" && forall i | 0 <= i < |u| :: Silent(p, word, u, x, i)
    ensures !Matches(p, word, u + x) && forall i | 0 <= i < |u| - 1 :: Silent(p, IsWord(u[0]), u[1..], x, i)
  {
    assert Silent(p, word, u, x, 0) && u[0..] == u;
    forall i | 0 <= i < |u| - 1 ensures Silent(p, IsWord(u[0]), u[1..], x, i) {
      assert Silent(p, word, u, x, i + 1) && u[1..][i..] == u[i + 1..];
    }
  }

  lemma SkipStep(p: Pattern, word: bool, u: string, x: string, y: string)
    requires u != "" && !Matches(p, word, u + x) && Sub(p, IsWord(u[0]), u[1..] + x) == u[1..] + y
    ensures Sub(p, word, u + x) == u + y
  {
    CopiedSub(p, word, u + x);
    Rejoin(u, x, y);
  }

  lemma Rejoin(u: string, x: string, y: string)
    requires u != ""
    ensures (u + x)[1..] == u[1..] + x && [u[0]] + (u[1..] + y) == u + y
  {
  }

  /** Text in which no match begins is copied. */
  lemma {:induction false} SubSkips(p: Pattern, word: bool, u: string, x: string)
    requires forall i | 0 <= i < |u| :: Silent(p, word, u, x, i)
    ensures Sub(p, word, u + x) == u + Sub(p, Context(word, u), x)
    decreases |u|
  {
    if u == "" {
      assert u + x == x;
    } else {
      SilentTail(p, word, u, x);
      SubSkips(p, IsWord(u[0]), u[1..], x);
      ContextNext(word, u, 1);
      SkipStep(p, word, u, x, Sub(p, Context(word, u), x));
    }
  }

  /** No match of the pattern begins with the first character of `t`. */
  predicate CannotBegin(p: Pattern, t: string) {
    t == "" || if p == BearerToken then Lower(t[0]) != 'b' else t[0] != 's'
  }

  lemma NothingBegins(p: Pattern, word: bool, t: string)
    requires CannotBegin(p, t)
    ensures !Matches(p, word, t)
  {
    if p == ApiKey && Matches(p, word, t) { KeyLetters(t); }
  }

  lemma ContextIsIrrelevant(p: Pattern, word: bool, t: string)
    requires CannotBegin(p, t)
    ensures Sub(p, word, t) == Sub(p, false, t)
  {
    NothingBegins(p, word, t);
    NothingBegins(p, false, t);
    if t != "" {
      SubNext(p, word, t);
      SubNext(p, false, t);
    }
  }

  // ----- The last character -----

  predicate EndsIn(s: string, c: char) { s != "" && s[|s| - 1] == c }

  lemma ReplacementEnds(p: Pattern)
    ensures EndsIn(Replacement(p), ']')
  {
    assert REPLACEMENT[|REPLACEMENT| - 1] == ']';
    assert p == BearerToken ==> Replacement(p)[|Replacement(p)| - 1] == REPLACEMENT[|REPLACEMENT| - 1];
  }

  /** The last character of a substituted text: the text's own, or the replacement's bracket. */
  predicate LastKept(u: string, y: string)
    requires u != ""
  {
    EndsIn(y, u[|u| - 1]) || EndsIn(y, ']')
  }

  lemma LastOfRest(u: string, n: nat, head: string, y: string)
    requires 0 < n <= |u| && head != ""
    requires if n < |u| then LastKept(u[n..], y) else y == "" && (EndsIn(head, ']') || head == [u[n - 1]])
    ensures LastKept(u, head + y)
  {
    if n < |u| { assert u[n..][|u| - n - 1] == u[|u| - 1]; }
  }

  lemma HeadLast(p: Pattern, word: bool, u: string)
    requires u != ""
    ensures var head := Head(p, word, u);
      head != "" && (EndsIn(head, ']') || (Next(p, word, u) == 1 && head == [u[0]]))
  {
    ReplacementEnds(p);
  }

  lemma {:induction false} LastOfSub(p: Pattern, word: bool, u: string)
    requires u != ""
    ensures LastKept(u, Sub(p, word, u))
    decreases |u|
  {
    var n := Next(p, word, u);
    SubNext(p, word, u);
    HeadLast(p, word, u);
    if n < |u| { LastOfSub(p, IsWord(u[n - 1]), u[n..]); }
    LastOfRest(u, n, Head(p, word, u), Sub(p, IsWord(u[n - 1]), u[n..]));
  }

  // ----- Which texts stand apart -----

  /** Nothing that comes after the text can change what becomes of it, or the other way round: it does not end
      in a word character, and neither substitution comes to an undecided match in it. */
  predicate Apart(u: string) {
    u != "" ==>
      !IsWord(u[|u| - 1]) && Settled(BearerToken, false, u) && Settled(ApiKey, false, Sub(BearerToken, false, u))
  }

  lemma NoWordAtEnd(p: Pattern, u: string, x: string)
    requires u != "" ==> !IsWord(u[|u| - 1])
    ensures Blunt(p, u, x)
  {
    forall i | 0 <= i < |u| ensures !AllWord(u[i..]) { assert u[i..][|u| - i - 1] == u[|u| - 1]; }
  }

  /** Redaction of a text is redaction of its parts, if the first stands apart. */
  lemma RedactTextSplits(u: string, x: string)
    requires Apart(u)
    ensures RedactText(u + x) == RedactText(u) + RedactText(x)
  {
    if u == "" {
      assert u + x == x;
    } else {
      var y := Sub(BearerToken, false, u);
      LastOfSub(BearerToken, false, u);
      NoWordAtEnd(BearerToken, u, x);
      NoWordAtEnd(ApiKey, y, Sub(BearerToken, false, x));
      SubSplits(BearerToken, false, u, x);
      SubSplits(ApiKey, false, y, Sub(BearerToken, false, x));
    }
  }

  /** The second substitution leaves a replacement of the first alone. */
  lemma KeysAround(r: string, c: string)
    requires EndsIn(r, ']') && Inert(ApiKey, r)
    ensures Sub(ApiKey, false, r + c) == r + Sub(ApiKey, false, c)
  {
    forall i | 0 <= i < |r| ensures Silent(ApiKey, false, r, c, i) {
      assert (r[i..] + c)[0] == r[i];
      NothingBegins(ApiKey, if i == 0 then false else IsWord(r[i - 1]), r[i..] + c);
    }
    SubSkips(ApiKey, false, r, c);
  }
}
