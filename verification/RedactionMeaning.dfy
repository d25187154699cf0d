/**
 What redaction means for a reader of the stored data: which keys are hidden, at any depth and in any letter
 case, what stays of everything else, and which characters the two patterns are made of.
 */
module RedactionMeaning {
  import opened Json
  import opened Redaction
  import opened RedactionProofs
  import opened RedactionContext
  import opened RedactionSecrets

  // ----- Sensitive keys -----

  const LISTED: set<string> :=
    {"cookie", "set-cookie", "authorization", "proxy-authorization", "apikey", "api_key", "access_token",
     "refresh_token", "secret", "client_secret", "password"}

  /** `k` is `s`, which has no capital letters, in any mixture of letter cases. */
  predicate SameLetters(k: string, s: string) {
    && |k| == |s|
    && forall i | 0 <= i < |k| :: k[i] == s[i] || ('a' <= s[i] <= 'z' && k[i] as int + 32 == s[i] as int)
  }

  predicate NamesSecret(k: string) { exists s | s in LISTED :: SameLetters(k, s) }

  predicate NoCapitals(s: string) { forall i | 0 <= i < |s| :: !('A' <= s[i] <= 'Z') }

  lemma FoldedIs(k: string, s: string)
    requires NoCapitals(s)
    ensures Casefold(k) == s <==> SameLetters(k, s)
  {
    if SameLetters(k, s) {
      assert forall i | 0 <= i < |k| :: Lower(k[i]) == s[i];
    } else if Casefold(k) == s {
      forall i | 0 <= i < |k| ensures k[i] == s[i] || ('a' <= s[i] <= 'z' && k[i] as int + 32 == s[i] as int) {
        assert Casefold(k)[i] == Lower(k[i]);
      }
    }
  }

  lemma ListedAreLower()
    ensures LISTED == SENSITIVE_KEYS && forall s | s in LISTED :: NoCapitals(s)
  {
  }

  lemma SensitiveExactly(k: string)
    ensures Sensitive(SENSITIVE_KEYS, k) <==> NamesSecret(k)
  {
    ListedAreLower();
    forall s | s in LISTED ensures Casefold(k) == s <==> SameLetters(k, s) { FoldedIs(k, s); }
  }

  // ----- Redaction at the end of a path -----

  datatype Hop = Field(key: string) | Item(index: nat)

  /** The value at the end of a path, if there is one. */
  function At(v: Value, path: seq<Hop>): Option<Value>
    decreases |path|
  {
    if path == [] then Some(v)
    else
      match path[0]
      case Field(k) => if v.Dict? && k in v.fields then At(v.fields[k], path[1..]) else None
      case Item(i) =>
        if v.List? && i < |v.items| then At(v.items[i], path[1..])
        else if v.Tuple? && i < |v.items| then At(v.items[i], path[1..])
        else None
  }

  /** No key on the path names a secret. */
  predicate Open(path: seq<Hop>) { forall i | 0 <= i < |path| :: path[i].Field? ==> !NamesSecret(path[i].key) }

  lemma OpenTail(path: seq<Hop>)
    requires path != [] && Open(path)
    ensures Open(path[1..]) && (path[0].Field? ==> !NamesSecret(path[0].key))
  {
  }

  /** Along an open path redaction reaches the value and nothing else happens to it; no path is lost and none
      appears. */
  lemma {:induction false} OpenPathsStay(v: Value, path: seq<Hop>)
    requires Open(path)
    ensures At(Redact(SENSITIVE_KEYS, v), path)
         == match At(v, path) case None => None case Some(x) => Some(Redact(SENSITIVE_KEYS, x))
    decreases |path|
  {
    if path != [] {
      OpenTail(path);
      match path[0]
      case Field(k) =>
        SensitiveExactly(k);
        if v.Dict? && k in v.fields { OpenPathsStay(v.fields[k], path[1..]); }
      case Item(i) =>
        if v.List? && i < |v.items| { OpenPathsStay(v.items[i], path[1..]); }
        if v.Tuple? && i < |v.items| { OpenPathsStay(v.items[i], path[1..]); }
    }
  }

  lemma {:induction false} AtConcat(v: Value, path: seq<Hop>, more: seq<Hop>)
    requires At(v, path).Some?
    ensures At(v, path + more) == At(At(v, path).value, more)
    decreases |path|
  {
    if path == [] {
      assert path + more == more;
    } else {
      assert (path + more)[1..] == path[1..] + more;
      match path[0]
      case Field(k) => AtConcat(v.fields[k], path[1..], more);
      case Item(i) => AtConcat(v.items[i], path[1..], more);
    }
  }

  lemma OneField(v: Value, k: string)
    requires v.Dict? && k in v.fields
    ensures At(v, [Field(k)]) == Some(v.fields[k])
  {
    assert [Field(k)][1..] == [];
  }

  lemma BeforeField(v: Value, path: seq<Hop>, k: string)
    requires At(v, path + [Field(k)]).Some?
    ensures At(v, path).Some? && At(v, path).value.Dict? && k in At(v, path).value.fields
    decreases |path|
  {
    if path == [] {
      assert path + [Field(k)] == [Field(k)];
    } else {
      assert (path + [Field(k)])[1..] == path[1..] + [Field(k)];
      match path[0]
      case Field(x) => BeforeField(v.fields[x], path[1..], k);
      case Item(i) => BeforeField(v.items[i], path[1..], k);
    }
  }

  /** At any depth, a key that spells a listed one in any letter case holds the replacement and nothing of its
      value, and any other key holds its own value redacted. */
  lemma KeysAreHidden(v: Value, path: seq<Hop>, k: string)
    requires Open(path) && At(v, path + [Field(k)]).Some?
    ensures At(Redact(SENSITIVE_KEYS, v), path + [Field(k)])
         == Some(if NamesSecret(k) then Str("[REDACTED]")
                 else Redact(SENSITIVE_KEYS, At(v, path + [Field(k)]).value))
  {
    BeforeField(v, path, k);
    OpenPathsStay(v, path);
    var inner := At(v, path).value;
    AtConcat(v, path, [Field(k)]);
    AtConcat(Redact(SENSITIVE_KEYS, v), path, [Field(k)]);
    SensitiveExactly(k);
    OneField(inner, k);
    OneField(Redact(SENSITIVE_KEYS, inner), k);
  }

  /** What is left of one value: texts are redacted, collections keep their shape, all else stays. */
  lemma ShapesStay(v: Value)
    ensures var w := Redact(SENSITIVE_KEYS, v);
      match v
      case Str(s) => w == Str(RedactText(s))
      case Dict(m) => w.Dict? && w.fields.Keys == m.Keys
      case List(xs) => w.List? && |w.items| == |xs|
      case Tuple(xs) => w.Tuple? && |w.items| == |xs|
      case _ => w == v
  {
  }

  // ----- The characters of the patterns -----

  /** ASCII codes of 0-9, A-Z and a-z. */
  predicate Alphanumeric(code: int) { 48 <= code <= 57 || 65 <= code <= 90 || 97 <= code <= 122 }

  /** The classes by ASCII code: the underscore is 95; a token also has + - . / = ~, a key also has - */
  lemma CharacterClasses(c: char)
    ensures var code := c as int;
      && (IsWord(c) <==> Alphanumeric(code) || code == 95)
      && (InToken(c) <==> Alphanumeric(code) || code in {43, 45, 46, 47, 61, 95, 126})
      && (InKey(c) <==> Alphanumeric(code) || code in {45, 95})
      && (IsSpace(c) <==> code in {9, 10, 11, 12, 13, 28, 29, 30, 31, 32})
  {
    var marks := ['+', '-', '.', '/', '=', '_', '~'];
    forall i | 0 <= i < |marks| ensures c as int == marks[i] as int ==> c == marks[i] {}
    assert marks[0] == '+' && marks[1] == '-' && marks[2] == '.' && marks[3] == '/' && marks[4] == '=';
    assert marks[5] == '_' && marks[6] == '~';
  }

  // ----- What is no key, and how much of a key there is -----

  predicate KeyText(t: string) { forall i | 0 <= i < |t| :: InKey(t[i]) }

  predicate KeyMatches(t: string) { Matches(ApiKey, false, t) }

  /** A match needs six characters after the prefix. */
  lemma ShortIsNoMatch(t: string)
    requires |t| < 9
    ensures !KeyMatches(t)
  {
  }

  lemma NoSpaceIsBearerClean(t: string)
    requires KeyText(t)
    ensures Clean(BearerToken, false, t)
  {
    CleanByIndex(BearerToken, false, t);
    forall i | 0 <= i < |t|
      ensures !Matches(BearerToken, if i == 0 then false else IsWord(t[i - 1]), t[i..])
    {
      NoSpaceNoMatch(if i == 0 then false else IsWord(t[i - 1]), t[i..]);
    }
  }

  lemma NoSpaceNoMatch(word: bool, t: string)
    requires KeyText(t)
    ensures !Matches(BearerToken, word, t)
  {
    NoSpaceNoToken("bearer", t);
  }

  /** Fewer than six characters after the prefix are not redacted. */
  lemma ShortKeysStay(key: string)
    requires KeyText(key) && |key| < 6
    ensures RedactText("sk-" + key) == "sk-" + key
  {
    var t := "sk-" + key;
    NoSpaceIsBearerClean(t);
    CleanByIndex(ApiKey, false, t);
    forall i | 0 <= i < |t| ensures !Matches(ApiKey, if i == 0 then false else IsWord(t[i - 1]), t[i..]) {
      ShortIsNoMatch(t[i..]);
    }
    RedactTextFixed(t);
  }

  lemma OneHyphen(w: string, key: string, i: nat)
    requires AllWord(w) && AllWord(key) && i < |w + "sk-" + key|
    ensures var t := w + "sk-" + key; |t[i..]| >= 3 && t[i..][..3] == "sk-" ==> i == |w|
  {
    var t := w + "sk-" + key;
    if |t[i..]| >= 3 && t[i..][..3] == "sk-" {
      KeyLetters(t[i..]);
      assert t[i..][2] == t[i + 2] && t[|w| + 2] == '-';
      assert forall j | 0 <= j < |t| && j != |w| + 2 :: IsWord(t[j]);
    }
  }

  /** A prefix that continues a word begins no key. */
  lemma AttachedKeysStay(w: string, key: string)
    requires w != "" && AllWord(w) && AllWord(key)
    ensures RedactText(w + "sk-" + key) == w + "sk-" + key
  {
    var t := w + "sk-" + key;
    NoSpaceIsBearerClean(t);
    CleanByIndex(ApiKey, false, t);
    forall i | 0 <= i < |t| ensures !Matches(ApiKey, if i == 0 then false else IsWord(t[i - 1]), t[i..]) {
      OneHyphen(w, key, i);
      assert t[|w| - 1] == w[|w| - 1];
    }
    RedactTextFixed(t);
  }

  function Hyphens(n: nat): string { seq(n, _ => '-') }

  lemma {:induction false} NoBoundaryInHyphens(n: nat)
    ensures LongestKey(Hyphens(n), 0, false) == -1
  {
    if n > 0 {
      assert Hyphens(n)[1..] == Hyphens(n - 1) && Hyphens(n)[0] == '-';
      NoBoundaryInHyphens(n - 1);
    }
  }

  lemma {:induction false} KeyBeforeHyphens(key: string, n: nat, need: nat, word: bool)
    requires KeyText(key) && need <= |key| && (if key == "" then word else IsWord(key[|key| - 1]))
    ensures LongestKey(key + Hyphens(n), need, word) == |key|
    decreases |key|
  {
    var t := key + Hyphens(n);
    if key == "" {
      assert t == Hyphens(n);
      if n > 0 {
        assert Hyphens(n)[1..] == Hyphens(n - 1) && Hyphens(n)[0] == '-';
        NoBoundaryInHyphens(n - 1);
      }
    } else {
      assert t[0] == key[0] && t[1..] == key[1..] + Hyphens(n);
      assert |key| > 1 ==> key[1..][|key| - 2] == key[|key| - 1];
      KeyBeforeHyphens(key[1..], n, if need == 0 then 0 else need - 1, IsWord(key[0]));
    }
  }

  lemma {:induction false} HyphensCopied(n: nat, word: bool)
    ensures Sub(ApiKey, word, Hyphens(n)) == Hyphens(n)
  {
    if n > 0 {
      assert Hyphens(n)[1..] == Hyphens(n - 1) && Hyphens(n)[0] == '-';
      NothingBegins(ApiKey, word, Hyphens(n));
      HyphensCopied(n - 1, false);
      assert [Hyphens(n)[0]] + Hyphens(n - 1) == Hyphens(n);
    }
  }

  /** A key ends with a word character: hyphens behind it stay. */
  lemma HyphensStay(key: string, n: nat)
    requires IsKey(key)
    ensures RedactText("sk-" + key + Hyphens(n)) == "[REDACTED]" + Hyphens(n)
  {
    var t := "sk-" + key + Hyphens(n);
    NoSpaceIsBearerClean(t);
    CleanIsFixed(BearerToken, false, t);
    assert t[..3] == "sk-" && t[3..] == key + Hyphens(n);
    KeyBeforeHyphens(key, n, 6, false);
    MatchedSub(ApiKey, false, t, 3 + |key|);
    assert t[3 + |key|..] == Hyphens(n);
    HyphensCopied(n, IsWord(t[2 + |key|]));
  }
}
