/**
 A secret between two texts is replaced completely, and exactly the texts that stand apart can be redacted on
 their own whatever follows them.
 */
module RedactionSecrets {
  import opened Json
  import opened Redaction
  import opened RedactionProofs
  import opened RedactionContext

  // ----- A bearer token -----

  lemma {:induction false} SpacesTaken(spaces: string, y: string)
    requires (forall i | 0 <= i < |spaces| :: IsSpace(spaces[i])) && y != "" && InToken(y[0])
    ensures SkipSpaces(spaces + y) == |spaces| && TokenAfterSpaces(spaces + y)
    decreases |spaces|
  {
    if spaces == "" {
      assert spaces + y == y;
    } else {
      assert (spaces + y)[1..] == spaces[1..] + y;
      SpacesTaken(spaces[1..], y);
    }
  }

  lemma {:induction false} TokenTaken(token: string, rest: string)
    requires (forall i | 0 <= i < |token| :: InToken(token[i])) && (rest == "" || !InToken(rest[0]))
    ensures SkipToken(token + rest) == |token|
    decreases |token|
  {
    if token == "" {
      assert token + rest == rest;
    } else {
      assert (token + rest)[1..] == token[1..] + rest;
      TokenTaken(token[1..], rest);
    }
  }

  lemma {:induction false} Spells(word: string, letters: string, v: string)
    requires |letters| == |word| && Follows("", v) && forall i | 0 <= i < |word| :: Lower(letters[i]) == word[i]
    ensures Follows(word, letters + v)
    decreases |word|
  {
    if word == "" {
      assert letters + v == v;
    } else {
      assert (letters + v)[1..] == letters[1..] + v;
      Spells(word[1..], letters[1..], v);
    }
  }

  /** The word in any case, spaces, and a token. */
  predicate IsBearer(letters: string, spaces: string, token: string) {
    && |letters| == 6 && (forall i | 0 <= i < 6 :: Lower(letters[i]) == "bearer"[i])
    && spaces != "" && (forall i | 0 <= i < |spaces| :: IsSpace(spaces[i]))
    && token != "" && (forall i | 0 <= i < |token| :: InToken(token[i]))
  }

  lemma BearerTaken(letters: string, spaces: string, token: string, rest: string)
    requires IsBearer(letters, spaces, token) && (rest == "" || !InToken(rest[0]))
    ensures var x := letters + (spaces + (token + rest));
      Matches(BearerToken, false, x) && MatchLength(BearerToken, false, x) == 6 + |spaces| + |token|
  {
    var y := token + rest;
    var v := spaces + y;
    var x := letters + v;
    SpacesTaken(spaces, y);
    SpacesTaken(spaces[1..], y);
    assert v[1..] == spaces[1..] + y;
    TokenTaken(token, rest);
    Spells("bearer", letters, v);
    assert x[6..] == v && v[|spaces|..] == y;
    BearerLengthIs(x, v);
  }

  lemma BearerSub(letters: string, spaces: string, token: string, rest: string)
    requires IsBearer(letters, spaces, token) && (rest == "" || !InToken(rest[0]))
    ensures Sub(BearerToken, false, letters + (spaces + (token + rest)))
         == Replacement(BearerToken) + Sub(BearerToken, false, rest)
  {
    var x := letters + (spaces + (token + rest));
    var n := 6 + |spaces| + |token|;
    BearerTaken(letters, spaces, token, rest);
    MatchedSub(BearerToken, false, x, n);
    assert x[n..] == rest;
    ContextIsIrrelevant(BearerToken, IsWord(x[n - 1]), rest);
  }

  lemma BearerReplacement()
    ensures EndsIn(Replacement(BearerToken), ']') && Inert(ApiKey, Replacement(BearerToken))
  {
    ReplacementEnds(BearerToken);
  }

  lemma TokenReplaced(u: string, letters: string, spaces: string, token: string, rest: string)
    requires Apart(u) && IsBearer(letters, spaces, token) && (rest == "" || !InToken(rest[0]))
    ensures RedactText(u + (letters + (spaces + (token + rest))))
         == RedactText(u) + (Replacement(BearerToken) + RedactText(rest))
  {
    RedactTextSplits(u, letters + (spaces + (token + rest)));
    BearerSub(letters, spaces, token, rest);
    BearerReplacement();
    KeysAround(Replacement(BearerToken), Sub(BearerToken, false, rest));
  }

  /** A bearer token anywhere in a text, in any case and after any spaces, is replaced completely, and the
      text before and after it is redacted as if it stood alone. */
  lemma TokenDisappears(u: string, letters: string, spaces: string, token: string, rest: string)
    requires Apart(u) && IsBearer(letters, spaces, token) && (rest == "" || !InToken(rest[0]))
    ensures RedactText(u + (letters + (spaces + (token + rest))))
         == RedactText(u) + ("Bearer [REDACTED]" + RedactText(rest))
  {
    TokenReplaced(u, letters, spaces, token, rest);
    BearerText();
  }

  lemma BearerText()
    ensures Replacement(BearerToken) == "Bearer [REDACTED]"
  {
  }

  lemma TokenTextRedacted()
    ensures RedactText(TOKEN_TEXT) == Replacement(BearerToken) && EndsIn(RedactText(TOKEN_TEXT), ']')
  {
    TokenReplaced("", "Bearer", " ", "a", "");
    assert "" + ("Bearer" + (" " + ("a" + ""))) == TOKEN_TEXT;
    ReplacementEnds(BearerToken);
  }

  // ----- An API key -----

  /** Key characters, at least six, the last of them a word character. */
  predicate IsKey(key: string) {
    |key| >= 6 && (forall i | 0 <= i < |key| :: InKey(key[i])) && IsWord(key[|key| - 1])
  }

  lemma {:induction false} KeyTaken(key: string, rest: string, need: nat, word: bool)
    requires (forall i | 0 <= i < |key| :: InKey(key[i])) && (rest == "" || !InKey(rest[0])) && need <= |key|
    requires if key == "" then word else IsWord(key[|key| - 1])
    ensures LongestKey(key + rest, need, word) == |key|
    decreases |key|
  {
    if key == "" {
      assert key + rest == rest;
    } else {
      assert (key + rest)[1..] == key[1..] + rest;
      assert |key| > 1 ==> key[1..][|key| - 2] == key[|key| - 1];
      KeyTaken(key[1..], rest, if need == 0 then 0 else need - 1, IsWord(key[0]));
    }
  }

  lemma KeySub(key: string, rest: string)
    requires IsKey(key) && (rest == "" || !InKey(rest[0]))
    ensures Sub(ApiKey, false, "sk-" + key + rest) == REPLACEMENT + Sub(ApiKey, false, rest)
  {
    var x := "sk-" + key + rest;
    assert x[..3] == "sk-" && x[3..] == key + rest;
    KeyTaken(key, rest, 6, false);
    MatchedSub(ApiKey, false, x, 3 + |key|);
    assert x[3 + |key|..] == rest;
    ContextIsIrrelevant(ApiKey, IsWord(x[2 + |key|]), rest);
  }

  /** The letters of the word would have to be the last of the key, the spaces after it. */
  lemma {:induction false} BearerInKey(word: string, v: string, rest: string)
    requires (forall i | 0 <= i < |v| :: InKey(v[i])) && (rest == "" || !InKey(rest[0])) && Letters(word)
    requires Follows(word, v + rest)
    ensures |v| == |word| && forall i | 0 <= i < |v| :: Lower(v[i]) == word[i]
    decreases |word|
  {
    assert v == "" ==> v + rest == rest;
    if word != "" && v != "" {
      assert (v + rest)[1..] == v[1..] + rest;
      BearerInKey(word[1..], v[1..], rest);
    }
  }

  /** The key does not end with the word that announces a token. */
  predicate NoBearerAtEnd(key: string)
    requires |key| >= 6
  {
    exists i | 0 <= i < 6 :: Lower(key[|key| - 6 + i]) != "bearer"[i]
  }

  lemma BearerAtEnd(key: string, k: string, i: nat, rest: string)
    requires IsKey(key) && k == "sk-" + key && (forall j | 0 <= j < |k| :: InKey(k[j])) && i < |k|
    requires (rest == "" || !InKey(rest[0])) && Follows("bearer", k[i..] + rest)
    ensures !NoBearerAtEnd(key)
  {
    BearerInKey("bearer", k[i..], rest);
    assert forall j | 0 <= j < 6 :: k[i..][j] == key[|key| - 6 + j];
  }

  lemma KeyIsQuiet(key: string, rest: string)
    requires IsKey(key) && NoBearerAtEnd(key) && (rest == "" || !InKey(rest[0]))
    ensures Sub(BearerToken, false, "sk-" + key + rest) == "sk-" + key + Sub(BearerToken, false, rest)
  {
    var k := "sk-" + key;
    assert forall i | 0 <= i < |k| :: InKey(k[i]);
    forall i | 0 <= i < |k| ensures Silent(BearerToken, false, k, rest, i) {
      if Follows("bearer", k[i..] + rest) { BearerAtEnd(key, k, i, rest); }
    }
    SubSkips(BearerToken, false, k, rest);
    ContextIsIrrelevant(BearerToken, Context(false, k), rest);
  }

  /** An API key anywhere in a text is replaced completely, hyphens included, and the text before and after
      it is redacted as if it stood alone. */
  lemma KeyDisappears(u: string, key: string, rest: string)
    requires Apart(u) && IsKey(key) && NoBearerAtEnd(key) && (rest == "" || !InKey(rest[0]))
    ensures RedactText(u + ("sk-" + key + rest)) == RedactText(u) + ("[REDACTED]" + RedactText(rest))
  {
    assert Replacement(ApiKey) == "[REDACTED]";
    RedactTextSplits(u, "sk-" + key + rest);
    KeyIsQuiet(key, rest);
    ContextIsIrrelevant(BearerToken, false, rest);
    KeySub(key, Sub(BearerToken, false, rest));
  }

  // ----- Texts that do not stand apart -----

  /** What completes an undecided match. */
  function Completion(p: Pattern): string { if p == BearerToken then "a" else "aaaaaa" }

  lemma {:induction false} AllTokenSkip(t: string)
    requires forall i | 0 <= i < |t| :: InToken(t[i])
    ensures SkipToken(t) == |t|
  {
    if t != "" { AllTokenSkip(t[1..]); }
  }

  lemma {:induction false} TokenTakes(v: string)
    requires AwaitsToken(v)
    ensures var t := v + "a"; TokenAfterSpaces(t) && SkipSpaces(t) + SkipToken(t[SkipSpaces(t)..]) == |t|
    decreases |v|
  {
    var t := v + "a";
    if forall i | 0 <= i < |v| :: InToken(v[i]) {
      assert InToken(t[0]) && t[0..] == t;
      AllTokenSkip(t);
    } else {
      assert t[1..] == v[1..] + "a";
      TokenTakes(v[1..]);
      assert t[1 + SkipSpaces(t[1..])..] == t[1..][SkipSpaces(t[1..])..];
    }
  }

  lemma {:induction false} AwaitsLetters(word: string, u: string)
    requires Awaits(word, u)
    ensures |word| < |u| && IsSpace(u[|word|]) && AwaitsToken(u[|word| + 1..])
    ensures Follows(word, u + "a")
    decreases |word|
  {
    assert (u + "a")[1..] == u[1..] + "a";
    if word == "" {
      TokenTakes(u[1..]);
    } else {
      AwaitsLetters(word[1..], u[1..]);
      assert u[1..][|word|..] == u[|word| + 1..];
    }
  }

  lemma BearerTakesAll(u: string)
    requires Follows("bearer", u + "a") && |u| > 6 && IsSpace(u[6]) && AwaitsToken(u[7..])
    ensures MatchLength(BearerToken, false, u + "a") == |u| + 1
  {
    var w := u[7..] + "a";
    TokenTakes(u[7..]);
    BearerLengthAt(u + "a", u[6], w);
  }

  lemma BearerTakes(u: string)
    requires Awaits("bearer", u)
    ensures Matches(BearerToken, false, u + "a") && MatchLength(BearerToken, false, u + "a") == |u| + 1
  {
    AwaitsLetters("bearer", u);
    BearerTakesAll(u);
  }

  lemma KeyTakes(u: string)
    requires Pending(ApiKey, false, u)
    ensures Matches(ApiKey, false, u + "aaaaaa") && MatchLength(ApiKey, false, u + "aaaaaa") == |u| + 6
  {
    var t := u + "aaaaaa";
    assert t[..3] == u[..3] && t[3..] == u[3..] + "aaaaaa" && t[3..] + "" == t[3..];
    KeyTaken(t[3..], "", 6, false);
  }

  lemma BluntWords(p: Pattern, u: string, x: string)
    requires AllWord(x)
    ensures Blunt(p, u, x)
  {
    forall i | 0 <= i < |u| && AllWord(u[i..]) ensures !Matches(p, false, u[i..] + x) {
      WordsDoNotMatch(p, false, u[i..] + x);
    }
  }

  lemma AppendEnds(head: string, y: string, c: char)
    requires EndsIn(y, c)
    ensures EndsIn(head + y, c)
  {
  }

  lemma PendingTakes(p: Pattern, word: bool, u: string)
    requires Pending(p, word, u)
    ensures EndsIn(Sub(p, word, u + Completion(p)), ']')
  {
    var t := u + Completion(p);
    if p == BearerToken { BearerTakes(u); } else { KeyTakes(u); }
    SubNext(p, word, t);
    assert t[|t|..] == "";
    ReplacementEnds(p);
  }

  lemma {:induction false} UnsettledTakes(p: Pattern, word: bool, u: string)
    requires !Settled(p, word, u)
    ensures EndsIn(Sub(p, word, u + Completion(p)), ']')
    decreases |u|
  {
    if Pending(p, word, u) {
      PendingTakes(p, word, u);
    } else {
      var n := Next(p, word, u);
      SettledNext(p, word, u);
      BluntWords(p, u, Completion(p));
      SubStep(p, word, u, Completion(p));
      UnsettledTakes(p, IsWord(u[n - 1]), u[n..]);
      AppendEnds(Head(p, word, u), Sub(p, IsWord(u[n - 1]), u[n..] + Completion(p)), ']');
    }
  }

  lemma WordsAreCopied(p: Pattern, word: bool, x: string)
    requires AllWord(x)
    ensures Sub(p, word, x) == x && RedactText(x) == x
  {
    assert Plain(x);
    PlainIsClean(p, word, x);
    CleanIsFixed(p, word, x);
    PlainIsFixed(x);
  }

  /** `x` shows that `u` does not split. */
  predicate Sticks(u: string, x: string) { RedactText(u + x) != RedactText(u) + RedactText(x) }

  lemma DifferentEnds(u: string, x: string, c: char, d: char)
    requires EndsIn(RedactText(u + x), c) && EndsIn(RedactText(x), d) && c != d
    ensures Sticks(u, x)
  {
    AppendEnds(RedactText(u), RedactText(x), d);
  }

  lemma OpenToken(u: string)
    requires !Settled(BearerToken, false, u)
    ensures Sticks(u, "a")
  {
    UnsettledTakes(BearerToken, false, u);
    LastOfSub(ApiKey, false, Sub(BearerToken, false, u + "a"));
    WordsAreCopied(ApiKey, false, "a");
    DifferentEnds(u, "a", ']', 'a');
  }

  lemma OpenKey(u: string)
    requires Settled(BearerToken, false, u) && !Settled(ApiKey, false, Sub(BearerToken, false, u))
    ensures Sticks(u, "aaaaaa")
  {
    var x := "aaaaaa";
    BluntWords(BearerToken, u, x);
    SubSplits(BearerToken, false, u, x);
    WordsAreCopied(BearerToken, Context(false, u), x);
    UnsettledTakes(ApiKey, false, Sub(BearerToken, false, u));
    DifferentEnds(u, x, ']', 'a');
  }

  const TOKEN_TEXT := "Bearer a"

  lemma {:induction false} FollowsAt(word: string, s: string)
    requires Follows(word, s)
    ensures |s| > |word| && IsSpace(s[|word|]) && forall i | 0 <= i < |word| :: Lower(s[i]) == word[i]
    decreases |word|
  {
    if word != "" {
      FollowsAt(word[1..], s[1..]);
      assert forall i | 1 <= i < |word| :: s[i] == s[1..][i - 1] && word[i] == word[1..][i - 1];
    }
  }

  lemma WordThenBearer(t: string)
    requires t != "" && AllWord(t)
    ensures !Follows("bearer", t + TOKEN_TEXT)
  {
    var s := t + TOKEN_TEXT;
    assert s[|t|] == 'B' && forall i | 0 <= i < |t| :: s[i] == t[i];
    if Follows("bearer", s) { FollowsAt("bearer", s); }
  }

  lemma WordThenToken(p: Pattern, t: string)
    requires t != "" && AllWord(t)
    ensures !Matches(p, false, t + TOKEN_TEXT)
  {
    var s := t + TOKEN_TEXT;
    match p
    case BearerToken => WordThenBearer(t);
    case ApiKey =>
      assert s[|t|] == 'B' && forall i | 0 <= i < |t| :: s[i] == t[i];
      if s[..3] == "sk-" { KeyLetters(s); }
  }

  lemma BluntToken(p: Pattern, u: string)
    ensures Blunt(p, u, TOKEN_TEXT)
  {
    forall i | 0 <= i < |u| && AllWord(u[i..]) ensures !Matches(p, false, u[i..] + TOKEN_TEXT) {
      WordThenToken(p, u[i..]);
    }
  }

  /** After a word character the announcement of a token is not one. */
  lemma TokenTextCopied(p: Pattern, word: bool)
    requires p == BearerToken ==> word
    ensures Sub(p, word, TOKEN_TEXT) == TOKEN_TEXT
  {
    var x := TOKEN_TEXT;
    forall i | 0 <= i < |x| ensures Silent(p, word, x, "", i) {
      assert (x[i..] + "")[0] == x[i];
      if i > 0 || p == ApiKey { NothingBegins(p, if i == 0 then word else IsWord(x[i - 1]), x[i..] + ""); }
    }
    SubSkips(p, word, x, "");
    assert x + "" == x;
  }

  lemma WordAtEnd(u: string)
    requires u != "" && IsWord(u[|u| - 1])
    requires Settled(BearerToken, false, u) && Settled(ApiKey, false, Sub(BearerToken, false, u))
    ensures Sticks(u, TOKEN_TEXT)
  {
    var x, y := TOKEN_TEXT, Sub(BearerToken, false, u);
    BluntToken(BearerToken, u);
    SubSplits(BearerToken, false, u, x);
    TokenTextCopied(BearerToken, true);
    BluntToken(ApiKey, y);
    SubSplits(ApiKey, false, y, x);
    TokenTextCopied(ApiKey, Context(false, y));
    AppendEnds(Sub(ApiKey, false, y), x, 'a');
    TokenTextRedacted();
    DifferentEnds(u, x, 'a', ']');
  }

  ghost predicate SplitsAlways(u: string) { forall x :: RedactText(u + x) == RedactText(u) + RedactText(x) }

  /** Exactly the texts that stand apart can be redacted on their own whatever follows them. */
  lemma RedactTextSplitsExactly(u: string)
    ensures Apart(u) <==> SplitsAlways(u)
  {
    if Apart(u) {
      forall x ensures RedactText(u + x) == RedactText(u) + RedactText(x) { RedactTextSplits(u, x); }
    } else if !Settled(BearerToken, false, u) {
      OpenToken(u);
      assert RedactText(u + "a") != RedactText(u) + RedactText("a");
    } else if !Settled(ApiKey, false, Sub(BearerToken, false, u)) {
      OpenKey(u);
      assert RedactText(u + "aaaaaa") != RedactText(u) + RedactText("aaaaaa");
    } else {
      WordAtEnd(u);
      assert RedactText(u + TOKEN_TEXT) != RedactText(u) + RedactText(TOKEN_TEXT);
    }
  }
}
