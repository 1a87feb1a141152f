/**
 * The session cookie: the two response headers that set and clear it, what a browser keeps of them
 * (sections 5.2 and 5.3 of RFC 6265), and the parser of the request header.
 */
module SessionCookie {
  import opened Options
  import opened Text

  const DEVELOPMENT_NAME := "callassist_session"
  const PRODUCTION_NAME := "__Host-callassist_session"

  function CookieName(secure: bool): string {
    if secure then PRODUCTION_NAME else DEVELOPMENT_NAME
  }

  // ---------------------------------------------------------------- the request header

  /** `name` and the rest of a part, as destructuring the split at "=" and rejoining gives them. */
  function NameAndValue(part: string): (string, string) {
    var pieces := Split(Trim(part), '=');
    (pieces[0], if |pieces| == 1 then "" else Join(pieces[1..], '='))
  }

  function Nonempty(value: string): Option<string> {
    if value == "" then None else Some(value)
  }

  /** The first part with the name decides, also when its value is empty. */
  function FirstNamed(parts: seq<string>, name: string): Option<string> {
    if parts == [] then None
    else if NameAndValue(parts[0]).0 == name then Nonempty(NameAndValue(parts[0]).1)
    else FirstNamed(parts[1..], name)
  }

  function SessionToken(cookie: Option<string>, secure: bool): Option<string> {
    if cookie == None || cookie == Some("") then None
    else FirstNamed(Split(cookie.value, ';'), CookieName(secure))
  }

  method SessionTokenFromHeaders(cookie: Option<string>, secure: bool) returns (token: Option<string>)
    ensures token == SessionToken(cookie, secure)
  {
    if cookie == None || cookie == Some("") { return None; }
    var parts := Split(cookie.value, ';');
    for i := 0 to |parts|
      invariant FirstNamed(parts, CookieName(secure)) == FirstNamed(parts[i..], CookieName(secure))
    {
      var (name, value) := NameAndValue(parts[i]);
      if name == CookieName(secure) {
        return if value != "" then Some(value) else None;
      }
      assert parts[i..][1..] == parts[i + 1..];
    }
    return None;
  }

  // ---------------------------------------------------------------- the response headers

  const EPOCH := "Thu, 01 Jan 1970 00:00:00 GMT"

  /** The parts with "; " between them. */
  function Joined(parts: seq<string>): string
    requires parts != []
  {
    if |parts| == 1 then parts[0] else parts[0] + ";" + (" " + Joined(parts[1..]))
  }

  function Attributes(maxAge: nat, expires: string, secure: bool): seq<string> {
    ["Path=/", "HttpOnly", "SameSite=Lax", "Priority=High", "Max-Age=" + Decimal(maxAge), "Expires=" + expires]
    + (if secure then ["Secure"] else [])
  }

  /** `maxAge` is the time left in whole seconds, or 0 once the session has expired. */
  function SetSessionCookie(token: string, maxAge: nat, expires: string, secure: bool): string {
    Joined([CookieName(secure) + "=" + token] + Attributes(maxAge, expires, secure))
  }

  function ClearSessionCookie(secure: bool): string {
    Joined([CookieName(secure) + "="] + Attributes(0, EPOCH, secure))
  }

  // ---------------------------------------------------------------- the browser

  type Jar = map<string, string>

  /** Nothing may come with the name prefix unless it is secure and for the whole site. */
  predicate Storable(name: string, attributes: seq<string>) {
    "__Host-" <= name ==> "Secure" in attributes && "Path=/" in attributes
  }

  /** What is before the first "=" and after it; a string without one is a value without a name. */
  function PairOf(s: string): (string, string) {
    var pieces := Split(s, '=');
    if |pieces| == 1 then ("", Trim(s)) else (Trim(pieces[0]), Trim(Join(pieces[1..], '=')))
  }

  /** The pair ends at the first ";"; an age of 0 removes what is stored under the name. */
  function Receive(jar: Jar, header: string): Jar {
    var segments := Split(header, ';');
    var (name, value) := PairOf(segments[0]);
    var attributes := seq(|segments| - 1, k requires 0 <= k < |segments| - 1 => Trim(segments[k + 1]));
    if !Storable(name, attributes) then jar
    else if "Max-Age=0" in attributes then jar - {name}
    else jar[name := value]
  }

  /** The names and values that a browser can hold: they are trimmed and cut at separators. */
  predicate Clean(name: string, value: string) {
    ';' !in name && '=' !in name && Trimmed(name) && ';' !in value && Trimmed(value)
  }

  ghost predicate CleanJar(jar: Jar) {
    forall n :: n in jar ==> Clean(n, jar[n])
  }

  /** A listing of the jar in any order. */
  ghost predicate Lists(pairs: seq<(string, string)>, jar: Jar) {
    && (forall p :: p in pairs ==> p.0 in jar && jar[p.0] == p.1)
    && (forall n :: n in jar ==> (n, jar[n]) in pairs)
  }

  function Pairs(pairs: seq<(string, string)>): seq<string> {
    seq(|pairs|, k requires 0 <= k < |pairs| => pairs[k].0 + "=" + pairs[k].1)
  }

  /** The form of section 4.2.1 of RFC 6265; without cookies there is no header. */
  function CookieHeader(pairs: seq<(string, string)>): Option<string> {
    if pairs == [] then None else Some(Joined(Pairs(pairs)))
  }

  // ---------------------------------------------------------------- parsing what was joined

  function Spaced(parts: seq<string>): seq<string> {
    seq(|parts|, k requires 0 <= k < |parts| => if k == 0 then parts[0] else " " + parts[k])
  }

  lemma SpacedTail(parts: seq<string>)
    requires |parts| > 1
    ensures var spaced := Spaced(parts[1..]);
      spaced != [] && Spaced(parts) == [parts[0]] + ([" " + spaced[0]] + spaced[1..])
  {
  }

  lemma {:induction false} SplitJoined(parts: seq<string>)
    requires parts != [] && forall k :: 0 <= k < |parts| ==> ';' !in parts[k]
    ensures Split(Joined(parts), ';') == Spaced(parts)
    decreases |parts|
  {
    if |parts| == 1 {
      SplitWord(parts[0], ';');
      assert Spaced(parts) == [parts[0]];
    } else {
      hide Spaced;
      var rest := Joined(parts[1..]);
      SplitJoined(parts[1..]);
      SplitFirst(parts[0], " " + rest, ';');
      SplitPrefix(" ", rest, ';');
      SpacedTail(parts);
    }
  }

  /** A clean pair is read back, with or without a space in front. */
  lemma PairRead(name: string, value: string)
    requires Clean(name, value)
    ensures NameAndValue(name + "=" + value) == (name, value)
    ensures NameAndValue(" " + (name + "=" + value)) == (name, value)
    ensures PairOf(name + "=" + value) == (name, value)
  {
    var part := name + "=" + value;
    assert Trimmed(part);
    TrimIsTrimmed(part);
    TrimIsTrimmed(name);
    TrimIsTrimmed(value);
    assert part == name + ['='] + value;
    SplitFirst(name, value, '=');
    JoinSplit(value, '=');
    assert ([name] + Split(value, '='))[1..] == Split(value, '=');
  }

  /** The value of the first pair with the name. */
  function Lookup(pairs: seq<(string, string)>, name: string): Option<string> {
    if pairs == [] then None else if pairs[0].0 == name then Nonempty(pairs[0].1) else Lookup(pairs[1..], name)
  }

  lemma {:induction false} NamedIsLookup(parts: seq<string>, pairs: seq<(string, string)>, name: string)
    requires |parts| == |pairs|
    requires forall k :: 0 <= k < |pairs| ==> NameAndValue(parts[k]) == pairs[k]
    ensures FirstNamed(parts, name) == Lookup(pairs, name)
    decreases |pairs|
  {
    if pairs != [] {
      NamedIsLookup(parts[1..], pairs[1..], name);
    }
  }

  /** On any header of clean pairs the parser returns what the first pair with the session's name holds. */
  lemma ParserLooksUp(pairs: seq<(string, string)>, secure: bool)
    requires forall p :: p in pairs ==> Clean(p.0, p.1)
    ensures SessionToken(CookieHeader(pairs), secure) == Lookup(pairs, CookieName(secure))
  {
    if pairs != [] {
      var parts := Pairs(pairs);
      forall k | 0 <= k < |pairs|
        ensures ';' !in parts[k] && NameAndValue(Spaced(parts)[k]) == pairs[k]
      {
        assert pairs[k] in pairs;
        PairRead(pairs[k].0, pairs[k].1);
      }
      SplitJoined(parts);
      assert Joined(parts) != "" by {
        assert '=' in parts[0];
      }
      NamedIsLookup(Spaced(parts), pairs, CookieName(secure));
    }
  }

  lemma {:induction false} LookupListed(pairs: seq<(string, string)>, name: string, value: string)
    requires forall p :: p in pairs && p.0 == name ==> p.1 == value
    ensures Lookup(pairs, name) == if (name, value) in pairs then Nonempty(value) else None
    decreases |pairs|
  {
    if pairs != [] {
      LookupListed(pairs[1..], name, value);
      assert pairs == [pairs[0]] + pairs[1..];
    }
  }

  /** Whatever the order of the browser's cookies: the server sees the session that the browser holds. */
  lemma ServerSeesJar(jar: Jar, pairs: seq<(string, string)>, secure: bool)
    requires CleanJar(jar) && Lists(pairs, jar)
    ensures var n := CookieName(secure);
      SessionToken(CookieHeader(pairs), secure) == if n in jar then Nonempty(jar[n]) else None
  {
    var n := CookieName(secure);
    ParserLooksUp(pairs, secure);
    LookupListed(pairs, n, if n in jar then jar[n] else "");
  }

  // ---------------------------------------------------------------- round trip

  lemma AttributesSafe(maxAge: nat, expires: string, secure: bool)
    requires ';' !in expires && Trimmed("Expires=" + expires)
    ensures forall a :: a in Attributes(maxAge, expires, secure) ==> ';' !in a && Trimmed(a)
  {
    hide Decimal;
    hide Trimmed;
    assert Trimmed("Max-Age=" + Decimal(maxAge)) by { DigitsEnd("Max-Age=", Decimal(maxAge)); }
    TrimmedWord("Path=/");
    TrimmedWord("HttpOnly");
    TrimmedWord("SameSite=Lax");
    TrimmedWord("Priority=High");
    TrimmedWord("Secure");
  }

  lemma TrimmedWord(s: string)
    requires s != [] && !IsBlank(s[0]) && !IsBlank(s[|s| - 1])
    ensures Trimmed(s)
  {
  }

  lemma DigitsEnd(prefix: string, digits: string)
    requires prefix != [] && !IsBlank(prefix[0]) && digits != [] && forall c :: c in digits ==> '0' <= c <= '9'
    ensures Trimmed(prefix + digits)
  {
    assert digits[|digits| - 1] in digits;
  }

  /** Every session cookie is out of reach of scripts and other sites, belongs to the whole site, and is kept
      to secure connections exactly in production. */
  lemma AttributesOfMode(maxAge: nat, expires: string, secure: bool)
    ensures var attributes := Attributes(maxAge, expires, secure);
      && "HttpOnly" in attributes && "SameSite=Lax" in attributes && "Path=/" in attributes
      && ("Secure" in attributes <==> secure)
  {
    var attributes := Attributes(maxAge, expires, secure);
    assert attributes[0] == "Path=/" && attributes[1] == "HttpOnly" && attributes[2] == "SameSite=Lax";
    assert secure ==> attributes[6] == "Secure";
    assert attributes[4][0] == 'M' && attributes[5][0] == 'E';
    if "Secure" in attributes {
      var k :| 0 <= k < |attributes| && attributes[k] == "Secure";
      assert attributes[k][0] == 'S' && attributes[k][1] == 'e' && attributes[2][1] == 'a';
    }
  }

  /** The prefix of the production name is enforced: without the attribute the browser keeps nothing. */
  lemma PrefixIsEnforced(jar: Jar, value: string)
    requires Clean(PRODUCTION_NAME, value)
    ensures Receive(jar, PRODUCTION_NAME + "=" + value) == jar
  {
    var pair := PRODUCTION_NAME + "=" + value;
    PairRead(PRODUCTION_NAME, value);
    assert ';' !in pair;
    SplitWord(pair, ';');
    assert Split(pair, ';') == [pair];
    hide PairOf;
  }

  /** A cookie with these attributes may be stored under the name of its mode. */
  lemma AttributesStorable(maxAge: nat, expires: string, secure: bool)
    ensures Storable(CookieName(secure), Attributes(maxAge, expires, secure))
  {
    var attributes := Attributes(maxAge, expires, secure);
    assert attributes[0] == "Path=/";
    assert secure ==> attributes[6] == "Secure";
    assert !secure ==> DEVELOPMENT_NAME[0] != "__Host-"[0];
  }

  lemma AttributesRead(attributes: seq<string>, pair: string)
    requires forall a :: a in attributes ==> Trimmed(a)
    ensures var spaced := Spaced([pair] + attributes);
      |spaced| == |attributes| + 1 && spaced[0] == pair
      && seq(|spaced| - 1, k requires 0 <= k < |spaced| - 1 => Trim(spaced[k + 1])) == attributes
  {
    var spaced := Spaced([pair] + attributes);
    forall k | 0 <= k < |attributes| ensures Trim(spaced[k + 1]) == attributes[k] {
      assert spaced[k + 1] == " " + attributes[k];
      TrimIsTrimmed(attributes[k]);
    }
  }

  lemma AgeIsZero(maxAge: nat, expires: string, secure: bool)
    ensures "Max-Age=0" in Attributes(maxAge, expires, secure) <==> maxAge == 0
  {
    var attributes := Attributes(maxAge, expires, secure);
    var zero := "Max-Age=0";
    assert attributes[4] == "Max-Age=" + Decimal(maxAge);
    assert Decimal(0) == "0" && "Max-Age=" + "0" == zero;
    if zero in attributes {
      var k :| 0 <= k < |attributes| && attributes[k] == zero;
      assert attributes[k][0] == 'M';
      assert k == 4;
      assert attributes[4][8..] == Decimal(maxAge) && zero[8..] == "0";
      DecimalInjective(maxAge, 0);
    }
  }

  /** What a browser does with a header of this server for a clean value. */
  lemma Received(jar: Jar, value: string, maxAge: nat, expires: string, secure: bool)
    requires Clean(CookieName(secure), value) && ';' !in expires && Trimmed("Expires=" + expires)
    ensures var n := CookieName(secure);
      Receive(jar, SetSessionCookie(value, maxAge, expires, secure)) ==
        if maxAge == 0 then jar - {n} else jar[n := value]
  {
    hide Attributes;
    hide Storable;
    hide Spaced;
    hide Trim;
    hide PairOf;
    var n, attributes := CookieName(secure), Attributes(maxAge, expires, secure);
    var pair := n + "=" + value;
    AttributesSafe(maxAge, expires, secure);
    AttributesStorable(maxAge, expires, secure);
    AgeIsZero(maxAge, expires, secure);
    PairRead(n, value);
    PartsSafe(pair, attributes);
    SplitJoined([pair] + attributes);
    AttributesRead(attributes, pair);
  }

  lemma PartsSafe(pair: string, attributes: seq<string>)
    requires ';' !in pair && forall a :: a in attributes ==> ';' !in a
    ensures forall k :: 0 <= k < |attributes| + 1 ==> ';' !in ([pair] + attributes)[k]
  {
  }

  lemma NamesClean(value: string, secure: bool)
    requires ';' !in value && Trimmed(value)
    ensures Clean(CookieName(secure), value)
  {
  }

  /**
   * Round trip: the browser stores the cookie, sends it among any others in any order, and the
   * server reads back the token that it set.
   */
  lemma TokenRoundTrip(jar: Jar, token: string, maxAge: nat, expires: string, secure: bool,
      pairs: seq<(string, string)>)
    requires CleanJar(jar) && ';' !in expires && Trimmed("Expires=" + expires)
    requires token != "" && ';' !in token && Trimmed(token) && maxAge > 0
    requires Lists(pairs, Receive(jar, SetSessionCookie(token, maxAge, expires, secure)))
    ensures SessionToken(CookieHeader(pairs), secure) == Some(token)
  {
    NamesClean(token, secure);
    Received(jar, token, maxAge, expires, secure);
    ServerSeesJar(jar[CookieName(secure) := token], pairs, secure);
  }

  lemma ClearingIsSetting(secure: bool)
    ensures ClearSessionCookie(secure) == SetSessionCookie("", 0, EPOCH, secure)
  {
    assert CookieName(secure) + "=" + "" == CookieName(secure) + "=";
  }

  lemma EpochIsSafe()
    ensures ';' !in EPOCH && Trimmed("Expires=" + EPOCH)
  {
  }

  /** After the session ended, by a clearing header or by one with no time left, no token is read. */
  lemma NoTokenAfterwards(jar: Jar, token: string, secure: bool, expires: string, pairs: seq<(string, string)>)
    requires CleanJar(jar) && ';' !in expires && Trimmed("Expires=" + expires)
    requires ';' !in token && Trimmed(token)
    requires || Lists(pairs, Receive(jar, ClearSessionCookie(secure)))
             || Lists(pairs, Receive(jar, SetSessionCookie(token, 0, expires, secure)))
    ensures SessionToken(CookieHeader(pairs), secure) == None
  {
    hide CookieName;
    hide Joined;
    hide Attributes;
    hide Pairs;
    EpochIsSafe();
    NamesClean("", secure);
    NamesClean(token, secure);
    ClearingIsSetting(secure);
    hide Trimmed;
    hide SetSessionCookie;
    hide ClearSessionCookie;
    hide Receive;
    Received(jar, "", 0, EPOCH, secure);
    Received(jar, token, 0, expires, secure);
    ServerSeesJar(jar - {CookieName(secure)}, pairs, secure);
  }

  /** The two modes do not see each other's cookies: setting or clearing one leaves the other as it was. */
  lemma ModesAreSeparate(jar: Jar, token: string, maxAge: nat, expires: string, secure: bool,
      pairs: seq<(string, string)>)
    requires CleanJar(jar) && ';' !in expires && Trimmed("Expires=" + expires) && ';' !in token && Trimmed(token)
    requires Lists(pairs, Receive(jar, SetSessionCookie(token, maxAge, expires, secure)))
    ensures var other := CookieName(!secure);
      SessionToken(CookieHeader(pairs), !secure) == if other in jar then Nonempty(jar[other]) else None
  {
    NamesClean(token, secure);
    Received(jar, token, maxAge, expires, secure);
    var n := CookieName(secure);
    assert DEVELOPMENT_NAME[0] != PRODUCTION_NAME[0];
    ServerSeesJar(if maxAge == 0 then jar - {n} else jar[n := token], pairs, !secure);
  }
}
