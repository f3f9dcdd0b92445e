/** Subdomain generation, and the prefix test that decides which tunnel owns an id. */
module Subdomains {
  import opened Basics

  const ADJ_1: seq<string> := [
    "able", "bold", "calm", "dark", "easy", "fair", "glad", "good", "happy", "jolly",
    "keen", "kind", "lively", "lucky", "merry", "neat", "nice", "noble", "odd", "open"
  ]
  const ADJ_2: seq<string> := [
    "plain", "proud", "quick", "quiet", "rapid", "ready", "rich", "round", "safe", "sharp",
    "short", "simple", "slim", "smart", "smooth", "soft", "solid", "sound", "spare", "square"
  ]
  const ADJ_3: seq<string> := [
    "steady", "steep", "stiff", "still", "straight", "strange", "strict", "strong", "sudden", "sunny",
    "super", "sure", "sweet", "swift", "tall", "thick", "thin", "tight", "tiny", "tough"
  ]
  const ADJ_4: seq<string> := [
    "true", "vast", "warm", "weak", "wide", "wild", "wise", "young", "agile", "alert",
    "ample", "azure", "basic", "blank", "blunt", "brave", "brisk", "brown", "cheap", "chief"
  ]
  const ADJ_5: seq<string> := [
    "civil", "clean", "clear", "close", "cold", "cool", "coral", "crisp", "crude", "cruel",
    "damp", "dear", "deep", "dense", "dirty", "dizzy", "dry", "dull", "dusty", "eager"
  ]
  const ADJECTIVES := ADJ_1 + ADJ_2 + ADJ_3 + ADJ_4 + ADJ_5

  const NOUN_1: seq<string> := [
    "ant", "ape", "bat", "bear", "bee", "bird", "boar", "bug", "bull", "cat",
    "claw", "cod", "cow", "crab", "crow", "deer", "dog", "dove", "duck", "eagle"
  ]
  const NOUN_2: seq<string> := [
    "eel", "elk", "emu", "fawn", "fish", "fly", "fox", "frog", "goat", "goose",
    "gull", "hare", "hawk", "hen", "horse", "jay", "kite", "lark", "lion", "lynx"
  ]
  const NOUN_3: seq<string> := [
    "mole", "moth", "mouse", "mule", "newt", "owl", "ox", "panda", "pig", "pike",
    "pony", "pug", "ram", "rat", "ray", "seal", "shark", "sheep", "slug", "snail"
  ]
  const NOUN_4: seq<string> := [
    "snake", "swan", "tiger", "toad", "trout", "vole", "wasp", "whale", "wolf", "worm",
    "wren", "yak", "zebra", "bass", "bison", "crane", "coral", "dingo", "finch", "gecko"
  ]
  const NOUN_5: seq<string> := [
    "hippo", "hyena", "koala", "lemur", "llama", "macaw", "moose", "otter", "perch", "quail",
    "raven", "robin", "salmon", "sloth", "squid", "stork", "tapir", "viper", "walrus", "ferret"
  ]
  const NOUNS := NOUN_1 + NOUN_2 + NOUN_3 + NOUN_4 + NOUN_5

  const RESERVED: set<string> := {
    "www", "api", "app", "admin", "dashboard", "tunnel", "connect", "auth", "login",
    "signup", "register", "account", "billing", "support", "help", "docs", "blog", "status",
    "health", "mail", "email", "smtp", "ftp", "ssh", "cdn", "static", "assets",
    "media", "images", "files", "download", "upload", "ws", "wss", "socket", "websocket"
  }

  predicate LabelChar(c: char) {
    'a' <= c <= 'z' || '0' <= c <= '9' || c == '-'
  }

  predicate IsLabel(s: string) {
    forall c | c in s :: LabelChar(c)
  }

  lemma LabelsAdj1()
    ensures forall w | w in ADJ_1 :: IsLabel(w)
  {
  }

  lemma LabelsAdj2()
    ensures forall w | w in ADJ_2 :: IsLabel(w)
  {
  }

  lemma LabelsAdj3()
    ensures forall w | w in ADJ_3 :: IsLabel(w)
  {
  }

  lemma LabelsAdj4()
    ensures forall w | w in ADJ_4 :: IsLabel(w)
  {
  }

  lemma LabelsAdj5()
    ensures forall w | w in ADJ_5 :: IsLabel(w)
  {
  }

  lemma LabelsNoun1()
    ensures forall w | w in NOUN_1 :: IsLabel(w)
  {
  }

  lemma LabelsNoun2()
    ensures forall w | w in NOUN_2 :: IsLabel(w)
  {
  }

  lemma LabelsNoun3()
    ensures forall w | w in NOUN_3 :: IsLabel(w)
  {
  }

  lemma LabelsNoun4()
    ensures forall w | w in NOUN_4 :: IsLabel(w)
  {
  }

  lemma LabelsNoun5()
    ensures forall w | w in NOUN_5 :: IsLabel(w)
  {
  }

  lemma WordsAreLabels()
    ensures forall w | w in ADJECTIVES || w in NOUNS :: IsLabel(w)
  {
    LabelsAdj1(); LabelsAdj2(); LabelsAdj3(); LabelsAdj4(); LabelsAdj5();
    LabelsNoun1(); LabelsNoun2(); LabelsNoun3(); LabelsNoun4(); LabelsNoun5();
  }

  /** JavaScript `toLowerCase` followed by replacing everything outside `[a-z0-9]` by "0". */
  function HexChar(c: char): char {
    if 'A' <= c <= 'Z' then c - 'A' + 'a'
    else if 'a' <= c <= 'z' || '0' <= c <= '9' then c
    else '0'
  }

  /** `raw` stands for the result of `nanoid(4)`. */
  function RandomHex(raw: string): string {
    var hex := seq(|raw|, i requires 0 <= i < |raw| => HexChar(raw[i]));
    if |hex| <= 4 then hex else hex[..4]
  }

  lemma WordIsLabel(words: seq<string>, i: nat)
    requires (words == ADJECTIVES || words == NOUNS) && i < |words|
    ensures IsLabel(words[i])
  {
    WordsAreLabels();
  }

  function Hyphenated(a: string, b: string, c: string): (s: string)
    requires IsLabel(a) && IsLabel(b) && IsLabel(c)
    ensures IsLabel(s) && ':' !in s
  {
    a + "-" + b + "-" + c
  }

  /** The two random picks and the `nanoid` text are inputs. */
  function GenerateSubdomain(adjective: nat, noun: nat, raw: string): (s: string)
    requires adjective < |ADJECTIVES| && noun < |NOUNS|
    ensures IsLabel(s) && ':' !in s
  {
    WordIsLabel(ADJECTIVES, adjective);
    WordIsLabel(NOUNS, noun);
    Hyphenated(ADJECTIVES[adjective], NOUNS[noun], RandomHex(raw))
  }

  /** `toLowerCase` on the letters A to Z. */
  function Lowered(s: string): string {
    seq(|s|, i requires 0 <= i < |s| => if 'A' <= s[i] <= 'Z' then s[i] - 'A' + 'a' else s[i])
  }

  /** Neither in use nor reserved, whatever its case. */
  predicate Acceptable(name: string, existing: set<string>) {
    name !in existing && Lowered(name) !in RESERVED
  }

  /**
   * The bounded retry loop over five generated names: the first acceptable one, or nothing when
   * every one collides or is reserved.
   */
  method GenerateUniqueSubdomain(existing: set<string>, generated: seq<string>) returns (r: Option<string>)
    requires |generated| == 5
    ensures r.None? <==> forall name | name in generated :: !Acceptable(name, existing)
    ensures r.Some? ==> exists i :: 0 <= i < 5 && generated[i] == r.value && Acceptable(r.value, existing)
                                    && forall j :: 0 <= j < i ==> !Acceptable(generated[j], existing)
  {
    for i := 0 to 5
      invariant forall j :: 0 <= j < i ==> !Acceptable(generated[j], existing)
    {
      if Acceptable(generated[i], existing) {
        return Some(generated[i]);
      }
    }
    r := None;
  }

  // ---------------------------------------------------------------------------
  // Ownership of request and socket ids
  // ---------------------------------------------------------------------------

  /** `id.startsWith(`${subdomain}:`)` */
  predicate OwnedBy(id: string, subdomain: string) {
    subdomain + ":" <= id
  }

  function RequestId(subdomain: string, nano: string): string {
    subdomain + ":" + nano
  }

  function WsId(subdomain: string, nano: string): string {
    subdomain + ":ws:" + nano
  }

  /**
   * Because no subdomain contains a colon, the prefix test names exactly the tunnel an id was made
   * for: no other subdomain, not even one that is a prefix of it, passes the test.
   */
  lemma PrefixTestIsOwnership(subdomain: string, other: string, nano: string)
    requires ':' !in subdomain && ':' !in other
    ensures OwnedBy(RequestId(subdomain, nano), other) <==> subdomain == other
    ensures OwnedBy(WsId(subdomain, nano), other) <==> subdomain == other
  {
    assert WsId(subdomain, nano) == RequestId(subdomain, "ws:" + nano);
    PrefixTest(subdomain, other, nano);
    PrefixTest(subdomain, other, "ws:" + nano);
  }

  lemma PrefixTest(subdomain: string, other: string, rest: string)
    requires ':' !in subdomain && ':' !in other
    ensures OwnedBy(subdomain + ":" + rest, other) <==> subdomain == other
  {
    var id := subdomain + ":" + rest;
    if OwnedBy(id, other) {
      assert id[|other|] == (other + ":")[|other|] == ':';
      assert id[|subdomain|] == ':';
      assert |other| == |subdomain|;
      assert subdomain == id[..|subdomain|] == other;
    }
  }

  /** An id has at most one colon-free owner. */
  lemma OneOwner(id: string, a: string, b: string)
    requires ':' !in a && ':' !in b
    requires OwnedBy(id, a) && OwnedBy(id, b)
    ensures a == b
  {
    assert id == a + ":" + id[|a| + 1..];
    PrefixTest(a, b, id[|a| + 1..]);
  }

  // ---------------------------------------------------------------------------
  // Routing a public host name
  // ---------------------------------------------------------------------------

  function UpTo(s: string, c: char): string {
    if s == [] || s[0] == c then [] else [s[0]] + UpTo(s[1..], c)
  }

  predicate EndsWith(s: string, suffix: string) {
    |suffix| <= |s| && s[|s| - |suffix|..] == suffix
  }

  /** The tunnel name in a Host header, if it is one label in front of the base domain. */
  function ExtractSubdomain(host: string, baseDomain: string): Option<string> {
    var name := UpTo(host, ':');
    if !EndsWith(name, "." + baseDomain) then None
    else
      var sub := name[..|name| - |baseDomain| - 1];
      if sub == [] || '.' in sub then None else Some(sub)
  }

  lemma {:induction false} UpToIs(a: string, c: char, rest: string)
    requires c !in a && (rest == [] || rest[0] == c)
    ensures UpTo(a + rest, c) == a
  {
    if a == [] {
      assert a + rest == rest;
    } else {
      assert (a + rest)[1..] == a[1..] + rest;
      UpToIs(a[1..], c, rest);
    }
  }

  lemma {:induction false} UpToHasNone(s: string, c: char)
    ensures c !in UpTo(s, c) && UpTo(s, c) <= s
  {
    if s != [] && s[0] != c {
      UpToHasNone(s[1..], c);
    }
  }

  /**
   * The host name handed out for a tunnel, with or without a port, leads back to it; and whatever a Host
   * header says, an extracted name is a label without colon, so the prefix test applies to it.
   */
  lemma RoutesBack(sub: string, baseDomain: string, port: string)
    requires sub != [] && '.' !in sub && ':' !in sub && ':' !in baseDomain
    requires port == [] || port[0] == ':'
    ensures ExtractSubdomain(sub + "." + baseDomain + port, baseDomain) == Some(sub)
  {
    var name := sub + "." + baseDomain;
    UpToIs(name, ':', port);
    assert name[|sub|..] == "." + baseDomain;
    assert name[..|sub|] == sub;
  }

  lemma ExtractedIsALabel(host: string, baseDomain: string)
    requires ExtractSubdomain(host, baseDomain).Some?
    ensures var sub := ExtractSubdomain(host, baseDomain).value;
            sub != [] && ':' !in sub && '.' !in sub && sub + "." + baseDomain <= host
  {
    UpToHasNone(host, ':');
    SplitOff(UpTo(host, ':'), "." + baseDomain);
    assert ExtractSubdomain(host, baseDomain).value + "." + baseDomain == UpTo(host, ':');
  }

  lemma SplitOff(s: string, suffix: string)
    requires EndsWith(s, suffix)
    ensures s == s[..|s| - |suffix|] + suffix
  {
  }
}
