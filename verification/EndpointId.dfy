/** Endpoint ids: how they are made, printed into host names, and read back from a connection attempt. */
module EndpointIds {
  import opened Model
  import opened Texts

  // ---- Making ids ----

  newtype byte = x: int | 0 <= x < 256
  newtype sextet = x: int | 0 <= x < 64

  /** The URL and filename safe alphabet of section 5 of RFC 4648. */
  function Letter(s: sextet): char {
    var n := s as int;
    if n < 26 then (n + 'A' as int) as char
    else if n < 52 then (n - 26 + 'a' as int) as char
    else if n < 62 then (n - 52 + '0' as int) as char
    else if n == 62 then '-' else '_'
  }

  function Sextets(a: byte, b: byte, c: byte): seq<sextet> {
    var (a, b, c) := (a as int, b as int, c as int);
    [(a / 4) as sextet, (a % 4 * 16 + b / 16) as sextet, (b % 16 * 4 + c / 64) as sextet, (c % 64) as sextet]
  }

  /** Whole groups of three bytes need no padding. */
  function Base64Url(bytes: seq<byte>): (text: string)
    requires |bytes| % 3 == 0
    ensures |text| == |bytes| / 3 * 4
  {
    if bytes == [] then ""
    else
      var g := Sextets(bytes[0], bytes[1], bytes[2]);
      [Letter(g[0]), Letter(g[1]), Letter(g[2]), Letter(g[3])] + Base64Url(bytes[3..])
  }

  function TrimRight(s: string, c: char): string {
    if s != "" && s[|s| - 1] == c then TrimRight(s[..|s| - 1], c) else s
  }

  const ID_BYTES: int := 9

  function NewId(prefix: string, bytes: seq<byte>): Id
    requires |bytes| == ID_BYTES
  {
    prefix + "_" + TrimRight(Base64Url(bytes), '=')
  }

  /** The ids newID can return for a prefix. */
  ghost predicate IsNewId(prefix: string, id: Id) {
    exists bytes: seq<byte> :: |bytes| == ID_BYTES && id == NewId(prefix, bytes)
  }

  /** Free of everything the host, options and password forms use as a separator. */
  predicate Plain(s: string) {
    forall c :: c in s ==> c != '.' && c != ';' && c != '=' && c != ' ' && c != ','
  }

  /** The table of section 5 of RFC 4648. */
  lemma LetterTable(s: sextet)
    ensures 0 <= s < 26 <==> 'A' <= Letter(s) <= 'Z'
    ensures 26 <= s < 52 <==> 'a' <= Letter(s) <= 'z'
    ensures 52 <= s < 62 <==> '0' <= Letter(s) <= '9'
    ensures s == 62 <==> Letter(s) == '-'
    ensures s == 63 <==> Letter(s) == '_'
    ensures s < 26 ==> Letter(s) as int - 'A' as int == s as int
    ensures 26 <= s < 52 ==> Letter(s) as int - 'a' as int == s as int - 26
    ensures 52 <= s < 62 ==> Letter(s) as int - '0' as int == s as int - 52
  {
  }

  /** The four sextets hold the bits of the three bytes, in order. */
  lemma SextetsValue(a: byte, b: byte, c: byte)
    ensures var s := Sextets(a, b, c);
      |s| == 4 && ((s[0] as int * 64 + s[1] as int) * 64 + s[2] as int) * 64 + s[3] as int == (a as int * 256 + b as int) * 256 + c as int
  {
  }

  lemma LetterInjective(s: sextet, t: sextet)
    requires Letter(s) == Letter(t)
    ensures s == t
  {
  }

  lemma SextetsInjective(a: byte, b: byte, c: byte, x: byte, y: byte, z: byte)
    requires Sextets(a, b, c) == Sextets(x, y, z)
    ensures a == x && b == y && c == z
  {
    var s, t := Sextets(a, b, c), Sextets(x, y, z);
    assert s[0] == t[0] && s[1] == t[1] && s[2] == t[2] && s[3] == t[3];
  }

  lemma {:induction false} Base64UrlInjective(a: seq<byte>, b: seq<byte>)
    requires |a| % 3 == 0 && |b| % 3 == 0
    requires Base64Url(a) == Base64Url(b)
    ensures a == b
  {
    assert |a| == |b|;
    if a != [] {
      var g, h := Sextets(a[0], a[1], a[2]), Sextets(b[0], b[1], b[2]);
      var s, t := Base64Url(a), Base64Url(b);
      assert s[0] == t[0] && s[1] == t[1] && s[2] == t[2] && s[3] == t[3];
      LetterInjective(g[0], h[0]);
      LetterInjective(g[1], h[1]);
      LetterInjective(g[2], h[2]);
      LetterInjective(g[3], h[3]);
      assert g == h;
      SextetsInjective(a[0], a[1], a[2], b[0], b[1], b[2]);
      assert s[4..] == Base64Url(a[3..]) && t[4..] == Base64Url(b[3..]);
      Base64UrlInjective(a[3..], b[3..]);
      assert a == a[..3] + a[3..] && b == b[..3] + b[3..];
    }
  }

  lemma {:induction false} Base64UrlPlain(bytes: seq<byte>)
    requires |bytes| % 3 == 0
    ensures Plain(Base64Url(bytes))
  {
    if bytes != [] {
      Base64UrlPlain(bytes[3..]);
    }
  }

  /** The trimming of padding never removes anything from an id, so no two byte strings share an id. */
  lemma NewIdInjective(prefix: string, a: seq<byte>, b: seq<byte>)
    requires |a| == ID_BYTES && |b| == ID_BYTES
    requires NewId(prefix, a) == NewId(prefix, b)
    ensures a == b
  {
    NewIdShape(prefix, a);
    NewIdShape(prefix, b);
    var n := |prefix + "_"|;
    assert NewId(prefix, a)[n..] == Base64Url(a) && NewId(prefix, b)[n..] == Base64Url(b);
    Base64UrlInjective(a, b);
  }

  lemma NewIdShape(prefix: string, bytes: seq<byte>)
    requires |bytes| == ID_BYTES
    ensures NewId(prefix, bytes) == prefix + "_" + Base64Url(bytes) && |Base64Url(bytes)| == 12
    ensures Plain(prefix) ==> Plain(NewId(prefix, bytes))
  {
    Base64UrlPlain(bytes);
    var text := Base64Url(bytes);
    assert text[|text| - 1] in text;
  }

  // ---- Printing ----

  /** The logical host of an endpoint: its id is the first label. */
  function Host(id: Id, suffix: string, region: string): string {
    id + suffix + "." + region + ".internal"
  }

  const POOLER := "-pooler"

  // ---- Parsing ----

  datatype ConnAttempt = ConnAttempt(sni: string, options: string, password: string)

  datatype Form = BySni | ByOptions | ByPassword

  datatype Resolved = Resolved(id: Id, password: string, form: Form)

  function IndexByte(s: string, c: char): (i: int)
    ensures -1 <= i < |s|
    ensures i >= 0 ==> s[i] == c && c !in s[..i]
    ensures i < 0 ==> c !in s
  {
    if s == "" then -1
    else if s[0] == c then 0
    else
      var i := IndexByte(s[1..], c);
      assert i >= 0 ==> s[..i + 1] == [s[0]] + s[1..][..i];
      if i < 0 then -1 else i + 1
  }

  function TrimSuffix(s: string, t: string): string {
    if HasSuffix(s, t) then s[..|s| - |t|] else s
  }

  /** The first label of the server name without a pooler suffix; "" if there is none. */
  function SniLabel(sni: string): string {
    var i := IndexByte(sni, '.');
    TrimSuffix(if i >= 0 then sni[..i] else sni, POOLER)
  }

  const KEY := "endpoint"
  const PASSWORD_PREFIX := "endpoint="

  /** Server name first, then options, then the password prefix. */
  function ResolveEndpointId(a: ConnAttempt): Option<Resolved> {
    if a.sni != "" && SniLabel(a.sni) != "" then Some(Resolved(SniLabel(a.sni), a.password, BySni))
    else if ParseKV(a.options, KEY) != "" then Some(Resolved(ParseKV(a.options, KEY), a.password, ByOptions))
    else if HasPrefix(a.password, PASSWORD_PREFIX) then
      var rest := a.password[|PASSWORD_PREFIX|..];
      var i := IndexByte(rest, ';');
      if i >= 0 then Some(Resolved(rest[..i], rest[i + 1..], ByPassword)) else None
    else None
  }

  predicate IsSep(c: char) {
    c == ' ' || c == ','
  }

  function WordLength(s: string): (n: nat)
    ensures n <= |s|
  {
    if s == "" || IsSep(s[0]) then 0 else 1 + WordLength(s[1..])
  }

  /** The maximal runs of non-separators. */
  function Fields(s: string): seq<string>
    decreases |s|
  {
    if s == "" then []
    else if IsSep(s[0]) then Fields(s[1..])
    else [s[..WordLength(s)]] + Fields(s[WordLength(s)..])
  }

  /** The value of the first field of the form key=value, cut at its first '='. */
  function FirstValue(fields: seq<string>, key: string): string {
    if fields == [] then ""
    else
      var i := IndexByte(fields[0], '=');
      if i >= 0 && fields[0][..i] == key then fields[0][i + 1..]
      else FirstValue(fields[1..], key)
  }

  function ParseKV(s: string, key: string): string {
    FirstValue(Fields(s), key)
  }

  // ---- Host names round trip ----

  lemma {:induction false} FirstByte(before: string, c: char, after: string)
    requires c !in before
    ensures IndexByte(before + [c] + after, c) == |before|
  {
    var s := before + [c] + after;
    if before != "" {
      assert s[0] == before[0] && s[1..] == before[1..] + [c] + after;
      FirstByte(before[1..], c, after);
    }
  }

  lemma FirstLabel(host: string, rest: string)
    requires '.' !in host
    ensures SniLabel(host + "." + rest) == TrimSuffix(host, POOLER)
  {
    FirstByte(host, '.', rest);
    assert (host + "." + rest)[..|host|] == host;
  }

  /** The pooled host always leads back to its endpoint. */
  lemma PooledHostResolves(id: Id, region: string, options: string, password: string)
    requires id != "" && '.' !in id
    ensures Host(id, POOLER, region) == id + "-pooler." + region + ".internal"
    ensures ResolveEndpointId(ConnAttempt(Host(id, POOLER, region), options, password)) == Some(Resolved(id, password, BySni))
  {
    assert POOLER + "." == "-pooler.";
    FirstLabel(id + POOLER, region + ".internal");
    assert id + POOLER + "." + region + ".internal" == (id + POOLER) + "." + (region + ".internal");
    assert (id + POOLER)[|id|..] == POOLER;
    assert (id + POOLER)[..|id|] == id;
  }

  lemma SniForm(sni: string, options: string, password: string, id: Id)
    requires sni != "" && id != ""
    ensures ResolveEndpointId(ConnAttempt(sni, options, password)) == Some(Resolved(id, password, BySni)) <==> SniLabel(sni) == id
  {
  }

  /** The direct host leads back to its endpoint exactly when the id does not itself end in "-pooler". */
  lemma DirectHostResolves(id: Id, region: string, options: string, password: string)
    requires id != "" && '.' !in id
    ensures Host(id, "", region) == id + "." + region + ".internal"
    ensures ResolveEndpointId(ConnAttempt(Host(id, "", region), options, password)) == Some(Resolved(id, password, BySni))
       <==> !HasSuffix(id, "-pooler")
  {
    FirstLabel(id, region + ".internal");
    assert id + "" + "." + region + ".internal" == id + "." + (region + ".internal");
    SniForm(Host(id, "", region), options, password, id);
  }

  /** newID can return such an id: the alphabet contains '-', and twelve letters leave room for the suffix. */
  lemma PoolerLookalike() returns (id: Id)
    ensures IsNewId("ep", id) && HasSuffix(id, "-pooler")
    ensures forall region, options, password ::
      ResolveEndpointId(ConnAttempt(Host(id, "", region), options, password)) == Some(Resolved("ep_AAAAA", password, BySni))
  {
    var bytes: seq<byte> := [0, 0, 0, 3, 234, 104, 162, 87, 171];
    id := NewId("ep", bytes);
    NewIdShape("ep", bytes);
    LookalikeText(bytes);
    assert id == "ep_AAAAA" + POOLER;
    forall region, options, password
      ensures ResolveEndpointId(ConnAttempt(Host(id, "", region), options, password)) == Some(Resolved("ep_AAAAA", password, BySni))
    {
      LookalikeHost("ep_AAAAA", id, region);
      SniForm(Host(id, "", region), options, password, "ep_AAAAA");
    }
  }

  lemma LookalikeHost(front: string, id: Id, region: string)
    requires '.' !in id && id == front + POOLER
    ensures SniLabel(Host(id, "", region)) == front && Host(id, "", region) != ""
  {
    FirstLabel(id, region + ".internal");
    assert Host(id, "", region) == id + "." + (region + ".internal");
    assert id[|id| - |POOLER|..] == POOLER && id[..|id| - |POOLER|] == front;
  }

  lemma LookalikeText(bytes: seq<byte>)
    requires bytes == [0, 0, 0, 3, 234, 104, 162, 87, 171]
    ensures Base64Url(bytes) == "AAAAA-pooler"
  {
    assert bytes[3..] == [3, 234, 104, 162, 87, 171];
    assert bytes[3..][3..] == [162, 87, 171];
    assert bytes[3..][3..][3..] == [];
    assert Base64Url(bytes[3..][3..]) == "oler";
    assert Base64Url(bytes[3..]) == "A-po" + "oler";
  }

  /** Ids made by newID meet the premises of both host forms. */
  lemma NewIdHosts(id: Id, region: string, options: string, password: string)
    requires IsNewId("ep", id)
    ensures ResolveEndpointId(ConnAttempt(Host(id, POOLER, region), options, password)) == Some(Resolved(id, password, BySni))
    ensures ResolveEndpointId(ConnAttempt(Host(id, "", region), options, password)) == Some(Resolved(id, password, BySni))
       <==> !HasSuffix(id, "-pooler")
  {
    var bytes: seq<byte> :| |bytes| == ID_BYTES && id == NewId("ep", bytes);
    NewIdShape("ep", bytes);
    PooledHostResolves(id, region, options, password);
    DirectHostResolves(id, region, options, password);
  }

  // ---- The options form ----

  datatype Pair = Pair(key: string, value: string)

  predicate Free(s: string) {
    forall c :: c in s ==> c != ' ' && c != ','
  }

  predicate Blank(s: string) {
    forall c :: c in s ==> c == ' ' || c == ','
  }

  predicate GoodPair(p: Pair) {
    Free(p.key) && '=' !in p.key && Free(p.value)
  }

  function Token(p: Pair): string {
    p.key + "=" + p.value
  }

  /** Pairs each followed by its run of separators. */
  function Render(pairs: seq<Pair>, seps: seq<string>): string
    requires |seps| == |pairs|
  {
    if pairs == [] then "" else Token(pairs[0]) + seps[0] + Render(pairs[1..], seps[1..])
  }

  /** Every run but the last is nonempty. */
  predicate GoodSeps(seps: seq<string>) {
    (forall s :: s in seps ==> Blank(s)) && (forall i :: 0 <= i < |seps| - 1 ==> seps[i] != "")
  }

  function Lookup(pairs: seq<Pair>, key: string): string {
    if pairs == [] then "" else if pairs[0].key == key then pairs[0].value else Lookup(pairs[1..], key)
  }

  lemma {:induction false} SkipBlank(blank: string, rest: string)
    requires Blank(blank)
    ensures Fields(blank + rest) == Fields(rest)
  {
    if blank == "" {
      assert blank + rest == rest;
    } else {
      assert (blank + rest)[1..] == blank[1..] + rest;
      assert blank[0] in blank && forall c :: c in blank[1..] ==> c in blank;
      SkipBlank(blank[1..], rest);
    }
  }

  lemma {:induction false} WordEnds(word: string, rest: string)
    requires Free(word) && (rest == "" || IsSep(rest[0]))
    ensures WordLength(word + rest) == |word|
  {
    if word == "" {
      assert word + rest == rest;
    } else {
      assert word[0] in word && forall c :: c in word[1..] ==> c in word;
      assert (word + rest)[1..] == word[1..] + rest;
      WordEnds(word[1..], rest);
    }
  }

  lemma TokenField(p: Pair, rest: string)
    requires GoodPair(p) && (rest == "" || IsSep(rest[0]))
    ensures Fields(Token(p) + rest) == [Token(p)] + Fields(rest)
    ensures IndexByte(Token(p), '=') == |p.key|
  {
    var t := Token(p);
    WordEnds(t, rest);
    assert t[0] in t && (t + rest)[0] == t[0];
    assert (t + rest)[..|t|] == t && (t + rest)[|t|..] == rest;
    FirstByte(p.key, '=', p.value);
  }

  /** parseKV is first-match lookup, whatever mix of spaces and commas joins the pairs. */
  lemma {:induction false} ParseKVIsLookup(lead: string, pairs: seq<Pair>, seps: seq<string>, key: string)
    requires |seps| == |pairs| && GoodSeps(seps) && Blank(lead)
    requires forall p :: p in pairs ==> GoodPair(p)
    ensures ParseKV(lead + Render(pairs, seps), key) == Lookup(pairs, key)
    decreases pairs
  {
    SkipBlank(lead, Render(pairs, seps));
    if pairs != [] {
      var p := pairs[0];
      var rest := seps[0] + Render(pairs[1..], seps[1..]);
      assert rest == "" || IsSep(rest[0]) by {
        assert Blank(seps[0]);
        if seps[0] == "" {
          assert rest == Render(pairs[1..], seps[1..]) == "";
        } else {
          assert rest[0] in seps[0];
        }
      }
      assert Render(pairs, seps) == Token(p) + rest;
      TokenField(p, rest);
      assert Token(p)[..|p.key|] == p.key && Token(p)[|p.key| + 1..] == p.value;
      ParseKVIsLookup(seps[0], pairs[1..], seps[1..], key);
    }
  }

  /** The options form leads back to the id when the server name gives none. */
  lemma OptionsResolve(id: Id, sni: string, pairs: seq<Pair>, seps: seq<string>, lead: string, password: string)
    requires SniLabel(sni) == "" && id != ""
    requires |seps| == |pairs| && GoodSeps(seps) && Blank(lead)
    requires forall p :: p in pairs ==> GoodPair(p)
    requires Lookup(pairs, "endpoint") == id
    ensures ResolveEndpointId(ConnAttempt(sni, lead + Render(pairs, seps), password)) == Some(Resolved(id, password, ByOptions))
  {
    ParseKVIsLookup(lead, pairs, seps, KEY);
  }

  /** In plain words: without a server name, "endpoint=<id>" leads back to every nonempty id without blanks and commas. */
  lemma PlainOptionsResolve(id: Id, password: string)
    requires id != "" && ' ' !in id && ',' !in id
    ensures ResolveEndpointId(ConnAttempt("", "endpoint=" + id, password)) == Some(Resolved(id, password, ByOptions))
  {
    var p := Pair(KEY, id);
    assert Render([p][1..], [""][1..]) == "";
    assert "" + Render([p], [""]) == Token(p) == "endpoint=" + id;
    OptionsResolve(id, "", [p], [""], "", password);
  }

  // ---- The password form ----

  /** The password form returns the id and the whole real password, ';' included. */
  lemma PasswordResolves(id: Id, secret: string, sni: string, options: string)
    requires SniLabel(sni) == "" && ParseKV(options, "endpoint") == ""
    requires ';' !in id
    ensures ResolveEndpointId(ConnAttempt(sni, options, "endpoint=" + id + ";" + secret)) == Some(Resolved(id, secret, ByPassword))
  {
    var password := PASSWORD_PREFIX + id + ";" + secret;
    var rest := password[|PASSWORD_PREFIX|..];
    assert rest == id + ";" + secret;
    assert password[..|PASSWORD_PREFIX|] == PASSWORD_PREFIX;
    FirstByte(id, ';', secret);
    assert rest[..|id|] == id && rest[|id| + 1..] == secret;
  }

  /** In plain words: without a server name and options. */
  lemma PlainPasswordResolves(id: Id, secret: string)
    requires ';' !in id
    ensures ResolveEndpointId(ConnAttempt("", "", "endpoint=" + id + ";" + secret)) == Some(Resolved(id, secret, ByPassword))
  {
    PasswordResolves(id, secret, "", "");
  }

  /** The caller gets an empty endpoint id and no error exactly when the first two forms give none and the
      password begins with "endpoint=;". */
  lemma EmptyIdExactly(a: ConnAttempt)
    ensures (ResolveEndpointId(a).Some? && ResolveEndpointId(a).value.id == "") <==>
      SniLabel(a.sni) == "" && ParseKV(a.options, "endpoint") == "" && exists rest :: a.password == "endpoint=;" + rest
  {
    var n := |PASSWORD_PREFIX|;
    if HasPrefix(a.password, PASSWORD_PREFIX) && |a.password| > n && a.password[n] == ';' {
      assert a.password == "endpoint=;" + a.password[n + 1..];
    }
    if rest :| a.password == "endpoint=;" + rest {
      assert a.password[..n] == PASSWORD_PREFIX && a.password[n] == ';';
      assert a.password[n..][0] == ';';
    }
  }

  /** Nothing found: the attempt is refused exactly when none of the three forms is present. */
  lemma RefusedExactlyWhenAbsent(a: ConnAttempt)
    ensures ResolveEndpointId(a) == None <==>
      SniLabel(a.sni) == "" && ParseKV(a.options, "endpoint") == "" &&
      !(exists id: string, secret: string :: ';' !in id && a.password == "endpoint=" + id + ";" + secret)
  {
    if id: string, secret: string :| ';' !in id && a.password == PASSWORD_PREFIX + id + ";" + secret {
      if SniLabel(a.sni) == "" && ParseKV(a.options, KEY) == "" {
        PasswordResolves(id, secret, a.sni, a.options);
      }
    } else if HasPrefix(a.password, PASSWORD_PREFIX) {
      var rest := a.password[|PASSWORD_PREFIX|..];
      var i := IndexByte(rest, ';');
      if i >= 0 {
        assert a.password == PASSWORD_PREFIX + rest[..i] + ";" + rest[i + 1..];
      }
    }
  }
}
