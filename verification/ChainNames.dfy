/** Canonical names of blockchain networks, so that venues with different names can be compared. */
module ChainNames {

  predicate Alnum(c: char) {
    'a' <= c <= 'z' || 'A' <= c <= 'Z' || '0' <= c <= '9'
  }

  function Upper(c: char): char {
    if 'a' <= c <= 'z' then 'A' + (c - 'a') else c
  }

  /** Letters and digits in upper case, everything else dropped. */
  function Clean(raw: string): string {
    if |raw| == 0 then ""
    else (if Alnum(raw[0]) then [Upper(raw[0])] else []) + Clean(raw[1..])
  }

  predicate Canonical(c: char) {
    'A' <= c <= 'Z' || '0' <= c <= '9'
  }

  predicate AllCanonical(s: string) {
    forall i: nat :: i < |s| ==> Canonical(s[i])
  }

  lemma {:induction false} CleanIsCanonical(raw: string)
    ensures AllCanonical(Clean(raw))
  {
    if |raw| > 0 { CleanIsCanonical(raw[1..]); }
  }

  lemma {:induction false} CleanKeepsCanonical(s: string)
    requires AllCanonical(s)
    ensures Clean(s) == s
  {
    if |s| > 0 {
      CleanKeepsCanonical(s[1..]);
      assert Canonical(s[0]);
    }
  }

  /** The alias table in three parts: the names of up to six characters, and the longer ones. */
  const SHORT_ALIASES := map[
    "POL" := "MATIC", "BSC" := "BEP20", "TRON" := "TRX", "NEAR" := "NEAR", "SOLANA" := "SOL", "COSMOS" := "ATOM",
    "RIPPLE" := "XRP"]

  const LONG_ALIASES := map[
    "BITCOIN" := "BTC", "ETHEREUM" := "ETH", "POLYGON" := "MATIC", "LITECOIN" := "LTC", "DOGECOIN" := "DOGE",
    "AVALANCHE" := "AVAXC", "AVALANCHECCHAIN" := "AVAXC", "STELLAR" := "XLM"]

  const LONGER_ALIASES := map[
    "POLKADOT" := "DOT", "CARDANO" := "ADA", "ALGORAND" := "ALGO", "ARBITRUMONE" := "ARBONE",
    "BNBSMARTCHAIN" := "BEP20", "OPTIMISM" := "OP"]

  const ALIASES := SHORT_ALIASES + LONG_ALIASES + LONGER_ALIASES

  function Lookup(table: map<string, string>, s: string): string {
    if s in table then table[s] else s
  }

  /** The table as tests on the name. */
  function Alias(s: string): string {
    if |s| <= 6 then ShortAlias(s) else LongAlias(s)
  }

  function ShortAlias(s: string): string {
    if s == "POL" then "MATIC"
    else if s == "BSC" then "BEP20"
    else if s == "TRON" then "TRX"
    else if s == "NEAR" then "NEAR"
    else if s == "SOLANA" then "SOL"
    else if s == "COSMOS" then "ATOM"
    else if s == "RIPPLE" then "XRP"
    else s
  }

  function LongAlias(s: string): string {
    if s == "BITCOIN" then "BTC"
    else if s == "ETHEREUM" then "ETH"
    else if s == "POLYGON" then "MATIC"
    else if s == "LITECOIN" then "LTC"
    else if s == "DOGECOIN" then "DOGE"
    else if s == "AVALANCHE" || s == "AVALANCHECCHAIN" then "AVAXC"
    else if s == "STELLAR" then "XLM"
    else LongerAlias(s)
  }

  function LongerAlias(s: string): string {
    if s == "POLKADOT" then "DOT"
    else if s == "CARDANO" then "ADA"
    else if s == "ALGORAND" then "ALGO"
    else if s == "ARBITRUMONE" then "ARBONE"
    else if s == "BNBSMARTCHAIN" then "BEP20"
    else if s == "OPTIMISM" then "OP"
    else s
  }

  /** `normalize_chain` */
  function Normalize(raw: string): string {
    Alias(Clean(raw))
  }

  lemma ShortIsLookup(s: string)
    ensures ShortAlias(s) == Lookup(SHORT_ALIASES, s)
    ensures s in SHORT_ALIASES ==> |s| <= 6
  {
  }

  lemma LongIsLookup(s: string)
    ensures LongAlias(s) == if s in LONG_ALIASES then LONG_ALIASES[s] else LongerAlias(s)
    ensures s in LONG_ALIASES ==> |s| > 6
  {
    hide LongerAlias;
  }

  lemma LongerIsLookup(s: string)
    ensures LongerAlias(s) == Lookup(LONGER_ALIASES, s)
    ensures s in LONGER_ALIASES ==> |s| > 6 && s !in LONG_ALIASES
  {
  }

  /** Every entry of the table maps to its canonical name, and every other name to itself. */
  lemma AliasIsLookup(s: string)
    ensures Alias(s) == Lookup(ALIASES, s)
  {
    hide ShortAlias, LongAlias, LongerAlias;
    ShortIsLookup(s);
    LongIsLookup(s);
    LongerIsLookup(s);
  }

  /** What an alias stands for: a short name in capitals and digits that is no alias itself. */
  predicate Settled(name: string) {
    AllCanonical(name) && |name| <= 6 && ShortAlias(name) == name
  }

  lemma ShortSettles(s: string)
    ensures ShortAlias(s) == s || Settled(ShortAlias(s))
  {
  }

  lemma LongSettles(s: string)
    ensures LongAlias(s) == LongerAlias(s) || Settled(LongAlias(s))
  {
    hide LongerAlias;
  }

  lemma LongerSettles(s: string)
    ensures LongerAlias(s) == s || Settled(LongerAlias(s))
  {
  }

  lemma AliasSettles(s: string)
    ensures Alias(s) == s || Settled(Alias(s))
  {
    hide ShortAlias, LongAlias, LongerAlias, Settled;
    ShortSettles(s);
    LongSettles(s);
    LongerSettles(s);
  }

  /** Normalising twice is normalising once. */
  lemma NormalizeIdempotent(raw: string)
    ensures Normalize(Normalize(raw)) == Normalize(raw)
  {
    hide ShortAlias, LongAlias, AllCanonical, Clean;
    CleanIsCanonical(raw);
    AliasSettles(Clean(raw));
    CleanKeepsCanonical(Normalize(raw));
  }

  lemma {:induction false} CleanSnoc(s: string, c: char)
    ensures Clean(s + [c]) == Clean(s) + if Alnum(c) then [Upper(c)] else []
  {
    hide Alnum, Upper, Lookup, Alias, Normalize;
    if |s| == 0 {
      assert s + [c] == [c] && [c][1..] == "";
    } else {
      var head: string := if Alnum(s[0]) then [Upper(s[0])] else [];
      assert Clean(s + [c]) == head + Clean((s + [c])[1..]) && Clean(s) == head + Clean(s[1..]);
      assert (s + [c])[1..] == s[1..] + [c];
      CleanSnoc(s[1..], c);
    }
  }

  // ---------------------------------------------------------------------------------------
  // What cleaning keeps
  // ---------------------------------------------------------------------------------------

  /** Cleaning works character by character, so letters and digits stay in their order. */
  lemma {:induction false} CleanJoins(a: string, b: string)
    ensures Clean(a + b) == Clean(a) + Clean(b)
    decreases |b|
  {
    if |b| == 0 {
      assert a + b == a;
    } else {
      var n := |b| - 1;
      assert a + b == (a + b[..n]) + [b[n]];
      assert b == b[..n] + [b[n]];
      CleanJoins(a, b[..n]);
      CleanSnoc(a + b[..n], b[n]);
      CleanSnoc(b[..n], b[n]);
      hide Clean;
    }
  }

  /** A capital or a digit stays, a small letter becomes the capital 32 below it, anything else goes. */
  lemma CleanOne(c: char)
    ensures Clean([c]) ==
      if 65 <= c as int <= 90 || 48 <= c as int <= 57 then [c]
      else if 97 <= c as int <= 122 then [(c as int - 32) as char]
      else ""
  {
    assert [c][1..] == "";
  }

  /** The same character up to case. */
  predicate SameLetter(c: char, d: char) {
    || c == d
    || (97 <= c as int <= 122 && d as int == c as int - 32)
    || (97 <= d as int <= 122 && c as int == d as int - 32)
  }

  /** Names that differ only in case have one normal form. */
  lemma {:induction false} CaseBlind(a: string, b: string)
    requires |a| == |b| && forall i: nat :: i < |a| ==> SameLetter(a[i], b[i])
    ensures Clean(a) == Clean(b) && Normalize(a) == Normalize(b)
    decreases |a|
  {
    if |a| > 0 {
      CaseBlind(a[1..], b[1..]);
      assert SameLetter(a[0], b[0]);
    }
    hide Alias;
  }

  /** So have names that differ in a character that is no letter or digit. */
  lemma OtherCharacterBlind(a: string, c: char, b: string)
    requires Clean([c]) == ""
    ensures Normalize(a + [c] + b) == Normalize(a + b)
  {
    CleanJoins(a + [c], b);
    CleanJoins(a, [c]);
    CleanJoins(a, b);
    assert Clean(a) + "" == Clean(a);
    hide Clean, Alias;
  }

  /** The loop over the characters, and the table lookup. */
  method NormalizeChain(raw: string) returns (name: string)
    ensures name == Normalize(raw)
  {
    var out := "";
    for i := 0 to |raw|
      invariant out == Clean(raw[..i])
    {
      assert raw[..i + 1] == raw[..i] + [raw[i]];
      CleanSnoc(raw[..i], raw[i]);
      if Alnum(raw[i]) {
        out := out + [Upper(raw[i])];
      }
    }
    assert raw[..|raw|] == raw;
    name := Alias(out);
  }
}
