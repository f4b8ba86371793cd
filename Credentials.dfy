/** Credentials of the deployed endpoint (functions/api/chat.ts): the five
    API keys from the environment, the session cookie that remembers which
    key last worked, and the test that tells a rate-limit error apart. */
module Credentials {
  import opened Wrappers
  import opened JsText
  import opened Upstream

  /** The environment variables `GROQ_API_KEY` and `GROQ_API_KEY_1` through
      `GROQ_API_KEY_5`; `None` is an unset variable. */
  datatype Env = Env(
    groqApiKey: Option<string>,
    key1: Option<string>, key2: Option<string>, key3: Option<string>,
    key4: Option<string>, key5: Option<string>)

  /** A key as the endpoint uses it: trimmed, or empty when unset. */
  function KeyText(key: Option<string>): string {
    match key
    case Some(s) => Trim(s)
    case None => ""
  }

  /** `a ?? b`: the first when it is set. */
  function Coalesce(a: Option<string>, b: Option<string>): Option<string> {
    if a.Some? then a else b
  }

  /** `resolveApiKeys`: always five keys, the first falling back to
      `GROQ_API_KEY` when `GROQ_API_KEY_1` is unset. */
  function ResolveApiKeys(env: Env): (keys: seq<string>)
    ensures |keys| == 5
  {
    [KeyText(Coalesce(env.key1, env.groqApiKey)), KeyText(env.key2), KeyText(env.key3), KeyText(env.key4), KeyText(env.key5)]
  }

  /** `apiKeys.some((key) => key.length === 0)`. */
  predicate SomeKeyMissing(keys: seq<string>) {
    exists k :: 0 <= k < |keys| && keys[k] == []
  }

  /** A key is usable exactly when the variable is set and not blank. */
  lemma KeyTextEmptyIff(key: Option<string>)
    ensures KeyText(key) == [] <==> key.None? || AllWhitespace(key.value)
  {
    if key.Some? {
      TrimEmptyIff(key.value);
    }
  }

  /** The endpoint has all its keys exactly when `GROQ_API_KEY_2` to `_5`
      are set and not blank, and so is `GROQ_API_KEY_1`, or, only when
      `GROQ_API_KEY_1` is unset (not when it is blank), `GROQ_API_KEY`. */
  lemma ApiKeysPresentIff(env: Env)
    ensures !SomeKeyMissing(ResolveApiKeys(env)) <==>
      (if env.key1.Some? then !AllWhitespace(env.key1.value)
       else env.groqApiKey.Some? && !AllWhitespace(env.groqApiKey.value)) &&
      env.key2.Some? && !AllWhitespace(env.key2.value) &&
      env.key3.Some? && !AllWhitespace(env.key3.value) &&
      env.key4.Some? && !AllWhitespace(env.key4.value) &&
      env.key5.Some? && !AllWhitespace(env.key5.value)
  {
    var keys := ResolveApiKeys(env);
    KeyTextEmptyIff(Coalesce(env.key1, env.groqApiKey));
    KeyTextEmptyIff(env.key2);
    KeyTextEmptyIff(env.key3);
    KeyTextEmptyIff(env.key4);
    KeyTextEmptyIff(env.key5);
    if !SomeKeyMissing(keys) {
      assert keys[0] != [] && keys[1] != [] && keys[2] != [] && keys[3] != [] && keys[4] != [];
    }
  }

  const ApiKeyCookieName: string := "groq_api_key_index"

  /** The name of one `;`-separated part of a cookie header: what precedes
      the first `=` of the trimmed part. */
  function CookieName(part: string): string {
    Split(Trim(part), '=')[0]
  }

  /** Its value: `rest.join("=")`, everything after the first `=`. */
  function CookieValue(part: string): string {
    Join(Split(Trim(part), '=')[1..], '=')
  }

  /** The name is what precedes the first `=` and the value all that
      follows it, further `=` signs included. */
  lemma CookieAtFirstEquals(part: string, j: nat)
    requires j < |Trim(part)| && Trim(part)[j] == '=' && '=' !in Trim(part)[..j]
    ensures CookieName(part) == Trim(part)[..j]
    ensures CookieValue(part) == Trim(part)[j + 1..]
  {
    var t := Trim(part);
    assert t == t[..j] + ['='] + t[j + 1..];
    SplitAppend(t[..j], t[j + 1..], '=');
    SplitNoSeparator(t[..j], '=');
    var pieces := Split(t, '=');
    assert pieces == [t[..j]] + Split(t[j + 1..], '=');
    assert pieces[1..] == Split(t[j + 1..], '=');
    JoinSplit(t[j + 1..], '=');
  }

  /** A part without `=` is all name and has the empty value. */
  lemma CookieWithoutEquals(part: string)
    requires '=' !in Trim(part)
    ensures CookieName(part) == Trim(part) && CookieValue(part) == []
  {
    SplitNoSeparator(Trim(part), '=');
  }

  /** A part of the header as a name and a value. */
  datatype CookieEntry = CookieEntry(name: string, value: string)

  function Entries(parts: seq<string>): (r: seq<CookieEntry>)
    ensures |r| == |parts|
    ensures forall k :: 0 <= k < |parts| ==> r[k] == CookieEntry(CookieName(parts[k]), CookieValue(parts[k]))
  {
    seq(|parts|, k requires 0 <= k < |parts| => CookieEntry(CookieName(parts[k]), CookieValue(parts[k])))
  }

  /** The dictionary after reading the entries in order: an entry with an
      empty name is skipped, any other sets its name, replacing an earlier
      value. */
  function CookieFold(entries: seq<CookieEntry>): map<string, string> {
    if entries == [] then map[]
    else
      var cookies := CookieFold(entries[..|entries| - 1]);
      var e := entries[|entries| - 1];
      if e.name == [] then cookies else cookies[e.name := e.value]
  }

  /** `parseCookies`: an absent or empty header has no cookies. */
  function Cookies(header: Option<string>): map<string, string> {
    if header.None? || header.value == [] then map[] else CookieFold(Entries(Split(header.value, ';')))
  }

  /** The names present are exactly the non-empty names of the entries. */
  lemma {:induction false} CookieFoldKeys(entries: seq<CookieEntry>, name: string)
    ensures name in CookieFold(entries) <==>
      name != [] && exists k :: 0 <= k < |entries| && entries[k].name == name
  {
    if entries != [] {
      var p := entries[..|entries| - 1];
      CookieFoldKeys(p, name);
      assert forall k :: 0 <= k < |p| ==> p[k] == entries[k];
      if name in CookieFold(p) {
        var k :| 0 <= k < |p| && p[k].name == name;
        assert entries[k].name == name;
      }
    }
  }

  /** A later entry with the same name overwrites an earlier one: the value
      is that of the last entry carrying the name. */
  lemma {:induction false} CookieFoldLastWins(entries: seq<CookieEntry>, k: nat)
    requires k < |entries| && entries[k].name != []
    requires forall j :: k < j < |entries| ==> entries[j].name != entries[k].name
    ensures entries[k].name in CookieFold(entries)
    ensures CookieFold(entries)[entries[k].name] == entries[k].value
  {
    if k < |entries| - 1 {
      var p := entries[..|entries| - 1];
      assert p[k] == entries[k];
      CookieFoldLastWins(p, k);
    }
  }

  /** `parseCookies` filling the dictionary part by part. */
  method ParseCookies(header: Option<string>) returns (cookies: map<string, string>)
    ensures cookies == Cookies(header)
  {
    cookies := map[];
    if header.None? || header.value == [] {
      return;
    }
    var parts := Split(header.value, ';');
    ghost var entries := Entries(parts);
    for i := 0 to |parts|
      invariant cookies == CookieFold(entries[..i])
    {
      assert entries[..i + 1][..i] == entries[..i];
      var pieces := Split(Trim(parts[i]), '=');
      var name := pieces[0];
      if name == [] {
        continue;
      }
      cookies := cookies[name := Join(pieces[1..], '=')];
    }
    assert entries[..|parts|] == entries;
  }

  /** The index `getApiKeyIndexFromRequest` reads from the cookie header:
      the parsed cookie value when it is a number in `1..maxKeys`, else 1. */
  function SessionKeyIndex(header: Option<string>, maxKeys: nat): (index: nat)
    ensures 1 <= index
    ensures maxKeys >= 1 ==> index <= maxKeys
  {
    var cookies := Cookies(header);
    var raw := if ApiKeyCookieName in cookies then cookies[ApiKeyCookieName] else "";
    match ParseInt(raw)
    case None => 1
    case Some(i) => if i < 1 || i > maxKeys then 1 else i
  }

  /** Any index other than the default comes from a cookie whose value
      parses to it; an absent cookie, a value without digits and a number
      out of range all give 1. */
  lemma SessionKeyIndexSource(header: Option<string>, maxKeys: nat)
    ensures var cookies := Cookies(header);
      SessionKeyIndex(header, maxKeys) != 1 ==>
        ApiKeyCookieName in cookies && ParseInt(cookies[ApiKeyCookieName]) == Some(SessionKeyIndex(header, maxKeys))
    ensures ApiKeyCookieName !in Cookies(header) ==> SessionKeyIndex(header, maxKeys) == 1
  {
    assert ParseInt("") == None by {
      assert LeadingDigits(SignStripped(TrimStart(""))) == [];
    }
  }

  /** `getApiKeyIndexFromRequest`. */
  method GetApiKeyIndexFromRequest(header: Option<string>, maxKeys: nat) returns (index: nat)
    ensures index == SessionKeyIndex(header, maxKeys)
  {
    var cookies := ParseCookies(header);
    var raw := if ApiKeyCookieName in cookies then cookies[ApiKeyCookieName] else "";
    var parsed := ParseInt(raw);
    if parsed.None? || parsed.value < 1 || parsed.value > maxKeys {
      return 1;
    }
    return parsed.value;
  }

  /** The `name=value` pair of the session cookie for an index. */
  function CookiePair(index: nat): string {
    ApiKeyCookieName + "=" + DecimalString(index)
  }

  /** `buildApiKeyCookie`: the pair and the cookie's attributes. */
  function BuildApiKeyCookie(index: nat): string {
    CookiePair(index) + [';'] + CookieAttributes
  }

  const CookieAttributes: string := " Path=/; HttpOnly; SameSite=Lax"

  /** A `name=value` pair with a plain name and a value that ends in a
      visible character reads back as that name and value. */
  lemma NameValueShape(name: string, value: string)
    requires name != [] && !IsWhitespace(name[0]) && '=' !in name && ';' !in name
    requires value != [] && !IsWhitespace(value[|value| - 1]) && ';' !in value
    ensures ';' !in name + "=" + value
    ensures CookieName(name + "=" + value) == name
    ensures CookieValue(name + "=" + value) == value
  {
    var pair := name + "=" + value;
    assert pair[0] == name[0] && pair[|pair| - 1] == value[|value| - 1];
    TrimNoOp(pair);
    assert pair[..|name|] == name;
    assert pair[|name| + 1..] == value;
    CookieAtFirstEquals(pair, |name|);
  }

  lemma CookiePairShape(index: nat)
    ensures ';' !in CookiePair(index)
    ensures CookieName(CookiePair(index)) == ApiKeyCookieName
    ensures CookieValue(CookiePair(index)) == DecimalString(index)
  {
    var digits := DecimalString(index);
    assert forall k :: 0 <= k < |digits| ==> digits[k] != ';';
    assert !IsWhitespace(digits[|digits| - 1]);
    assert '=' !in ApiKeyCookieName && ';' !in ApiKeyCookieName;
    NameValueShape(ApiKeyCookieName, digits);
  }

  /** The first `;`-separated part of the `Set-Cookie` value is the pair,
      which is what the browser sends back in later requests. */
  lemma BuildApiKeyCookiePair(index: nat)
    ensures Split(BuildApiKeyCookie(index), ';')[0] == CookiePair(index)
  {
    CookiePairShape(index);
    SplitFirst(CookiePair(index), CookieAttributes, ';');
  }

  lemma SplitFirst(a: string, b: string, sep: char)
    requires sep !in a
    ensures Split(a + [sep] + b, sep)[0] == a
  {
    SplitAppend(a, b, sep);
    SplitNoSeparator(a, sep);
  }

  /** A header whose last part is a cookie without `;` gives that cookie's
      value, whatever came before it. */
  lemma CookiesLastPart(others: string, pair: string)
    requires ';' !in pair && CookieName(pair) != []
    ensures CookieName(pair) in Cookies(Some(others + [';'] + pair))
    ensures Cookies(Some(others + [';'] + pair))[CookieName(pair)] == CookieValue(pair)
  {
    var parts := Split(others, ';') + [pair];
    assert Split(others + [';'] + pair, ';') == parts by {
      SplitNoSeparator(pair, ';');
      SplitAppend(others, pair, ';');
    }
    var entries := Entries(parts);
    assert entries[|entries| - 1] == CookieEntry(CookieName(pair), CookieValue(pair));
    CookieFoldLastWins(entries, |entries| - 1);
  }

  /** A header holding one cookie gives that cookie's value. */
  lemma CookiesSinglePart(pair: string)
    requires ';' !in pair && CookieName(pair) != []
    ensures CookieName(pair) in Cookies(Some(pair))
    ensures Cookies(Some(pair))[CookieName(pair)] == CookieValue(pair)
  {
    SplitNoSeparator(pair, ';');
    CookieFoldLastWins(Entries([pair]), 0);
  }

  /** The cookie round trip: a header whose last part is the pair written
      for index `i` in `1..maxKeys`, after any other cookies or alone, reads
      back `i`. */
  lemma SessionKeyIndexRoundTrip(others: string, i: nat, maxKeys: nat)
    requires 1 <= i <= maxKeys
    ensures SessionKeyIndex(Some(others + [';'] + CookiePair(i)), maxKeys) == i
    ensures SessionKeyIndex(Some(CookiePair(i)), maxKeys) == i
  {
    CookiePairShape(i);
    ParseIntDecimal(i);
    CookiesLastPart(others, CookiePair(i));
    CookiesSinglePart(CookiePair(i));
  }

  /** `isRateLimitError`: an object whose `message`, lower-cased, contains
      `rate limit`. */
  predicate IsRateLimitError(error: ErrorValue) {
    error.ErrorObject? && Contains(Lower(error.message.GetOr("")), "rate limit")
  }

  /** A rate-limit error is exactly an object with a message in which
      `rate limit` occurs in any letter case; a non-object or an object
      without a message never is. */
  lemma IsRateLimitErrorIff(error: ErrorValue)
    ensures IsRateLimitError(error) <==>
      error.ErrorObject? && error.message.Some? && exists i :: OccursAt(Lower(error.message.value), "rate limit", i)
  {
    if error.ErrorObject? {
      ContainsIff(Lower(error.message.GetOr("")), "rate limit");
      if error.message.None? {
        assert Lower("") == [];
      }
    }
  }

  /** "Rate limit reached for all available API keys.", kept in two parts
      so that its leading "Rate limit" is visible to proofs. */
  const RateLimitExhaustedMessage: string := "Rate limit" + " reached for all available API keys."

  /** The error thrown when every key is rate-limited is itself a
      rate-limit error. */
  lemma ExhaustedIsRateLimit()
    ensures IsRateLimitError(Error(RateLimitExhaustedMessage))
  {
    var lower := Lower(RateLimitExhaustedMessage);
    assert |RateLimitExhaustedMessage| >= 10 && RateLimitExhaustedMessage[..10] == "Rate limit";
    assert Lower("Rate limit") == "rate limit";
    assert lower[..10] == Lower(RateLimitExhaustedMessage[..10]);
    ContainsIff(lower, "rate limit");
    assert OccursAt(lower, "rate limit", 0);
  }
}
