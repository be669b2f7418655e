/**
 Deep links: values placed into a fixed URL under three nested escapings, KQL
 inside rison inside percent-encoding, and read back by undoing each in turn.
 Text is a string of UTF-8 code units, so every character is below 256.
 */
module DeepLink {
  import opened Wrappers

  predicate Encoded(s: string) {
    forall c | c in s :: c as int < 256
  }

  // ---- percent-encoding (sections 2.1 to 2.3 of RFC 3986) ------------------

  predicate Unreserved(c: char) {
    'a' <= c <= 'z' || 'A' <= c <= 'Z' || '0' <= c <= '9' || c == '_' || c == '.' || c == '-' || c == '~'
  }

  function Hex(n: nat): char
    requires n < 16
  {
    if n < 10 then '0' + n as char else 'A' + (n - 10) as char
  }

  function HexValue(c: char): Option<nat> {
    if '0' <= c <= '9' then Some(c as int - '0' as int)
    else if 'A' <= c <= 'F' then Some(c as int - 'A' as int + 10)
    else if 'a' <= c <= 'f' then Some(c as int - 'a' as int + 10)
    else None
  }

  function QuoteChar(c: char, safe: set<char>): string {
    if Unreserved(c) || c in safe then [c] else ['%', Hex(c as int / 16 % 16), Hex(c as int % 16)]
  }

  function Quote(s: string, safe: set<char>): string {
    if s == [] then [] else QuoteChar(s[0], safe) + Quote(s[1..], safe)
  }

  function Unquote(s: string): string {
    if s == [] then []
    else if s[0] == '%' && |s| >= 3 && HexValue(s[1]).Some? && HexValue(s[2]).Some? then
      [(HexValue(s[1]).value * 16 + HexValue(s[2]).value) as char] + Unquote(s[3..])
    else [s[0]] + Unquote(s[1..])
  }

  lemma UnquoteChar(c: char, safe: set<char>, rest: string)
    requires '%' !in safe && c as int < 256
    ensures Unquote(QuoteChar(c, safe) + rest) == [c] + Unquote(rest)
  {
    var q := QuoteChar(c, safe);
    if |q| == 1 {
      assert (q + rest)[1..] == rest;
    } else {
      assert (q + rest)[3..] == rest;
      assert c as int / 16 % 16 * 16 + c as int % 16 == c as int;
    }
  }

  /** Letters, digits and `_.-~` stand for themselves, as do the safe characters;
      every other one is a percent sign and two hexadecimal digits, high one first. */
  lemma QuoteCharIs(c: char, safe: set<char>)
    requires c as int < 256
    ensures var q := QuoteChar(c, safe);
            var plain := 'a' <= c <= 'z' || 'A' <= c <= 'Z' || '0' <= c <= '9' || c in ['_', '.', '-', '~'] || c in safe;
            && (plain ==> q == [c])
            && (!plain ==> |q| == 3 && q[0] == '%' && q[1] == "0123456789ABCDEF"[c as int / 16]
                           && q[2] == "0123456789ABCDEF"[c as int % 16])
  {
    HexIs(c as int / 16);
    HexIs(c as int % 16);
  }

  lemma HexIs(n: nat)
    requires n < 16
    ensures Hex(n) == "0123456789ABCDEF"[n]
    ensures HexValue("0123456789ABCDEF"[n]) == HexValue("0123456789abcdef"[n]) == Some(n)
  {
  }

  lemma EncodedParts(s: string)
    requires s != [] && Encoded(s)
    ensures s[0] as int < 256 && Encoded(s[1..])
  {
    assert s[0] in s;
    assert forall c | c in s[1..] :: c in s;
  }

  lemma Assoc(a: string, b: string, c: string)
    ensures a + b + c == a + (b + c)
  {
  }

  /** Percent-decoding undoes the encoding, whatever follows. */
  lemma {:induction false} UnquoteQuoted(s: string, safe: set<char>, rest: string)
    requires '%' !in safe && Encoded(s)
    ensures Unquote(Quote(s, safe) + rest) == s + Unquote(rest)
  {
    if s == [] {
      assert [] + rest == rest && s + Unquote(rest) == Unquote(rest);
    } else {
      EncodedParts(s);
      UnquoteQuoted(s[1..], safe, rest);
      UnquoteChar(s[0], safe, Quote(s[1..], safe) + rest);
      Assoc(QuoteChar(s[0], safe), Quote(s[1..], safe), rest);
      Assoc([s[0]], s[1..], Unquote(rest));
      assert [s[0]] + s[1..] == s;
    }
  }

  lemma {:induction false} UnquoteLiteral(l: string, rest: string)
    requires '%' !in l
    ensures Unquote(l + rest) == l + Unquote(rest)
  {
    if l == [] {
      assert l + rest == rest && l + Unquote(rest) == Unquote(rest);
    } else {
      assert l[0] in l && forall c | c in l[1..] :: c in l;
      UnquoteLiteral(l[1..], rest);
      assert (l + rest)[1..] == l[1..] + rest;
      Assoc([l[0]], l[1..], Unquote(rest));
      assert [l[0]] + l[1..] == l;
    }
  }

  /** An encoded value holds no character that could end it. */
  lemma {:induction false} QuotedIsPlain(s: string)
    ensures forall c | c in Quote(s, {}) :: InValue(c)
  {
    if s != [] {
      QuotedIsPlain(s[1..]);
      assert forall c | c in QuoteChar(s[0], {}) :: InValue(c);
    }
  }

  predicate InValue(c: char) {
    Unreserved(c) || c == '%'
  }

  // ---- rison and KQL -----------------------------------------------------

  function RisonChar(c: char): string {
    if c == '!' || c == '\'' then ['!', c] else [c]
  }

  function Rison(v: string): string {
    if v == [] then [] else RisonChar(v[0]) + Rison(v[1..])
  }

  /** A rison string read from after its opening quote, up to its closing one. */
  function ReadRison(s: string): Option<(string, string)> {
    if s == [] then None
    else if s[0] == '\'' then Some(([], s))
    else if s[0] == '!' && (|s| < 2 || (s[1] != '!' && s[1] != '\'')) then None
    else
      var (c, next) := if s[0] == '!' then (s[1], s[2..]) else (s[0], s[1..]);
      match ReadRison(next)
      case None => None
      case Some(r) => Some(([c] + r.0, r.1))
  }

  lemma RisonCharReads(c: char, next: string)
    ensures ReadRison(RisonChar(c) + next) ==
              if ReadRison(next).None? then None
              else Some(([c] + ReadRison(next).value.0, ReadRison(next).value.1))
  {
    if |RisonChar(c)| == 2 {
      assert (RisonChar(c) + next)[2..] == next;
    } else {
      assert (RisonChar(c) + next)[1..] == next;
    }
  }

  /** The reader gets the value back, and stops at the quote that follows it. */
  lemma {:induction false} RisonReads(v: string, rest: string)
    requires rest != [] && rest[0] == '\''
    ensures ReadRison(Rison(v) + rest) == Some((v, rest))
  {
    if v == [] {
      assert Rison(v) + rest == rest;
    } else {
      RisonReads(v[1..], rest);
      RisonCharReads(v[0], Rison(v[1..]) + rest);
      Assoc(RisonChar(v[0]), Rison(v[1..]), rest);
      assert [v[0]] + v[1..] == v;
    }
  }

  function KqlChar(c: char): string {
    if c == '\\' || c == '"' then ['\\', c] else [c]
  }

  function KqlBody(v: string): string {
    if v == [] then [] else KqlChar(v[0]) + KqlBody(v[1..])
  }

  function Kql(v: string): string {
    ['"'] + KqlBody(v) + ['"']
  }

  /** A KQL literal read from after its opening quote, past its closing one. */
  function ReadKqlBody(s: string): Option<(string, string)> {
    if s == [] then None
    else if s[0] == '"' then Some(([], s[1..]))
    else if s[0] == '\\' && (|s| < 2 || (s[1] != '\\' && s[1] != '"')) then None
    else
      var (c, next) := if s[0] == '\\' then (s[1], s[2..]) else (s[0], s[1..]);
      match ReadKqlBody(next)
      case None => None
      case Some(r) => Some(([c] + r.0, r.1))
  }

  function ReadKql(s: string): Option<(string, string)> {
    if s == [] || s[0] != '"' then None else ReadKqlBody(s[1..])
  }

  lemma KqlCharReads(c: char, next: string)
    ensures ReadKqlBody(KqlChar(c) + next) ==
              if ReadKqlBody(next).None? then None
              else Some(([c] + ReadKqlBody(next).value.0, ReadKqlBody(next).value.1))
  {
    if |KqlChar(c)| == 2 {
      assert (KqlChar(c) + next)[2..] == next;
    } else {
      assert (KqlChar(c) + next)[1..] == next;
    }
  }

  lemma {:induction false} KqlBodyReads(v: string, rest: string)
    ensures ReadKqlBody(KqlBody(v) + (['"'] + rest)) == Some((v, rest))
  {
    if v == [] {
      assert KqlBody(v) + (['"'] + rest) == ['"'] + rest;
      assert (['"'] + rest)[1..] == rest;
    } else {
      KqlBodyReads(v[1..], rest);
      KqlCharReads(v[0], KqlBody(v[1..]) + (['"'] + rest));
      Assoc(KqlChar(v[0]), KqlBody(v[1..]), ['"'] + rest);
      assert [v[0]] + v[1..] == v;
    }
  }

  lemma KqlReads(v: string, rest: string)
    ensures ReadKql(Kql(v) + rest) == Some((v, rest))
  {
    KqlBodyReads(v, rest);
    assert (Kql(v) + rest)[1..] == KqlBody(v) + (['"'] + rest);
  }

  // ---- templates ---------------------------------------------------------

  /** A URL with holes, from left to right. */
  datatype Url = End | Lit(text: string, rest: Url) | Hole(name: string, rest: Url)

  /** A destination: the URL, which begins with the base, the names it may hold,
      and those of them that stand in a rison string. */
  datatype Template = Template(url: Url, placeholders: set<string>, rison: set<string>)

  /** The end that both state links share, from inside the index string on. */
  const STATE := Hole("data_view", Lit("',query:(language:kuery,query:'", Hole("query", Lit("'))", End))))

  const ORACLE := Template(
    Hole("base", Lit("/app/discover#/?_g=(time:(from:'", Hole("from", Lit("',to:'", Hole("to",
    Lit("'))&_a=(index:'", STATE)))))),
    {"base", "data_view", "query", "from", "to"}, {"data_view", "query", "from", "to"})

  const DOC := Template(
    Hole("base", Lit("/app/discover#/doc/", Hole("data_view", Lit("/", Hole("index",
    Lit("?id=", Hole("id", End))))))),
    {"base", "data_view", "index", "id"}, {})

  const RUN := Template(
    Hole("base", Lit("/app/discover#/?_a=(index:'", STATE)),
    {"base", "data_view", "query"}, {"data_view", "query"})

  const SESSION := Template(
    Hole("base", Lit("/project/", Hole("project", Lit("/sessions/", Hole("session_id", End))))),
    {"base", "project", "session_id"}, {})

  const TRACE := Template(
    Hole("base", Lit("/project/", Hole("project", Lit("/traces/", Hole("trace_id", End))))),
    {"base", "project", "trace_id"}, {})

  const TEMPLATES := [ORACLE, DOC, RUN, SESSION, TRACE]

  function Named(u: Url): set<string> {
    match u
    case End => {}
    case Lit(_, rest) => Named(rest)
    case Hole(name, rest) => {name} + Named(rest)
  }

  /** What the import-time check demands of a row. */
  predicate Checked(t: Template) {
    Named(t.url) == t.placeholders && t.rison <= t.placeholders
  }

  function Stripped(base: string): string {
    if base != [] && base[|base| - 1] == '/' then Stripped(base[..|base| - 1]) else base
  }

  /** The base without the slashes at its end. */
  lemma {:induction false} StrippedIs(base: string)
    ensures var n := |Stripped(base)|;
            && n <= |base| && Stripped(base) == base[..n]
            && (forall i | n <= i < |base| :: base[i] == '/')
            && (n > 0 ==> base[n - 1] != '/')
  {
    if base != [] && base[|base| - 1] == '/' {
      var shorter := base[..|base| - 1];
      StrippedIs(shorter);
      assert forall i | 0 <= i < |shorter| :: shorter[i] == base[i];
    }
  }

  function Escaped(t: Template, name: string, value: string): string {
    if name in t.rison then Rison(value) else value
  }

  /** What each name stands for, before percent-encoding. */
  function Plain(t: Template, base: string, values: map<string, string>): map<string, string> {
    (map name | name in values :: Escaped(t, name, values[name]))["base" := Stripped(base)]
  }

  function SafeIn(name: string): set<char> {
    if name == "base" then {':', '/'} else {}
  }

  function Format(u: Url, plain: map<string, string>): Result<string> {
    match u
    case End => Ok([])
    case Lit(l, rest) => Prefixed(l, Format(rest, plain))
    case Hole(name, rest) =>
      if name !in plain then Err("KeyError: " + name)
      else Prefixed(Quote(plain[name], SafeIn(name)), Format(rest, plain))
  }

  function Prefixed(s: string, r: Result<string>): Result<string> {
    match r
    case Ok(rest) => Ok(s + rest)
    case Err(e) => Err(e)
  }

  function Fill(t: Template, base: string, values: map<string, string>): Result<string> {
    if !(values.Keys <= t.placeholders) then Err("KeyError: not allowlisted by the template")
    else Format(t.url, Plain(t, base, values))
  }

  lemma {:induction false} FormatNeeds(u: Url, plain: map<string, string>)
    ensures Format(u, plain).Ok? <==> Named(u) <= plain.Keys
  {
    if !u.End? {
      FormatNeeds(u.rest, plain);
    }
  }

  /** A checked row is filled exactly when it is given every name it lists, the
      base aside, and no other. */
  lemma FillTakesExactly(t: Template, base: string, values: map<string, string>)
    requires Checked(t)
    ensures Fill(t, base, values).Ok? <==> values.Keys <= t.placeholders && t.placeholders <= values.Keys + {"base"}
  {
    FormatNeeds(t.url, Plain(t, base, values));
    assert Plain(t, base, values).Keys == values.Keys + {"base"};
  }

  // ---- what the browser makes of the URL ---------------------------------

  predicate PlainLiterals(u: Url) {
    match u
    case End => true
    case Lit(l, rest) => '%' !in l && PlainLiterals(rest)
    case Hole(_, rest) => PlainLiterals(rest)
  }

  predicate EncodedValues(m: map<string, string>) {
    forall name | name in m :: Encoded(m[name])
  }

  function Render(u: Url, plain: map<string, string>): string
    requires Named(u) <= plain.Keys
  {
    match u
    case End => []
    case Lit(l, rest) => l + Render(rest, plain)
    case Hole(name, rest) => plain[name] + Render(rest, plain)
  }

  /** The URL percent-decoded is the template with the values themselves in it. */
  lemma {:induction false} FormatDecodes(u: Url, plain: map<string, string>)
    requires PlainLiterals(u) && EncodedValues(plain) && Named(u) <= plain.Keys
    ensures Format(u, plain).Ok? && Unquote(Format(u, plain).value) == Render(u, plain)
  {
    match u
    case End =>
    case Lit(l, rest) =>
      FormatDecodes(rest, plain);
      UnquoteLiteral(l, Format(rest, plain).value);
    case Hole(name, rest) =>
      FormatDecodes(rest, plain);
      UnquoteQuoted(plain[name], SafeIn(name), Format(rest, plain).value);
  }

  /** Every hole is followed by a character no encoded value holds, or ends the
      URL. */
  predicate Delimited(u: Url) {
    match u
    case End => true
    case Lit(_, rest) => Delimited(rest)
    case Hole(_, rest) =>
      Delimited(rest) && (rest.End? || (rest.Lit? && rest.text != [] && !InValue(rest.text[0])))
  }

  /** The characters a value may hold, and what is left. */
  function Token(s: string): (r: (string, string))
    ensures s == r.0 + r.1
  {
    if s == [] || !InValue(s[0]) then ([], s)
    else
      var (t, rest) := Token(s[1..]);
      ([s[0]] + t, rest)
  }

  lemma {:induction false} TokenStops(v: string, rest: string)
    requires forall c | c in v :: InValue(c)
    requires rest == [] || !InValue(rest[0])
    ensures Token(v + rest) == (v, rest)
  {
    if v == [] {
      assert v + rest == rest;
    } else {
      assert v[0] in v;
      assert (v + rest)[1..] == v[1..] + rest;
      TokenStops(v[1..], rest);
      assert [v[0]] + v[1..] == v;
    }
  }

  /** A URL matched against a template, each hole read up to the first reserved
      character and decoded. */
  function Extract(u: Url, url: string): Option<seq<string>> {
    match u
    case End => if url == [] then Some([]) else None
    case Lit(l, rest) => if l <= url then Extract(rest, url[|l|..]) else None
    case Hole(_, rest) =>
      var (raw, left) := Token(url);
      Consed(Unquote(raw), Extract(rest, left))
  }

  function Consed(v: string, more: Option<seq<string>>): Option<seq<string>> {
    match more
    case None => None
    case Some(vs) => Some([v] + vs)
  }

  /** The values in the order of their holes. */
  function Values(u: Url, plain: map<string, string>): seq<string>
    requires Named(u) <= plain.Keys
  {
    match u
    case End => []
    case Lit(_, rest) => Values(rest, plain)
    case Hole(name, rest) => [plain[name]] + Values(rest, plain)
  }

  lemma HoleReads(v: string, rest: string)
    requires Encoded(v) && (rest == [] || !InValue(rest[0]))
    ensures Token(Quote(v, {}) + rest).1 == rest && Unquote(Token(Quote(v, {}) + rest).0) == v
  {
    QuotedIsPlain(v);
    TokenStops(Quote(v, {}), rest);
    UnquoteQuoted(v, {}, []);
    assert Quote(v, {}) + [] == Quote(v, {}) && v + [] == v;
  }

  lemma Prefix(l: string, rest: string)
    ensures l <= l + rest && (l + rest)[|l|..] == rest
  {
  }

  /** No value can add a parameter, a segment or a fragment: read with only the
      template in hand, the URL gives back exactly the values put in. */
  lemma {:induction false} ExtractsValues(u: Url, plain: map<string, string>)
    requires Delimited(u) && EncodedValues(plain) && Named(u) <= plain.Keys && "base" !in Named(u)
    ensures Format(u, plain).Ok?
    ensures Extract(u, Format(u, plain).value) == Some(Values(u, plain))
  {
    match u
    case End =>
    case Lit(l, rest) =>
      ExtractsValues(rest, plain);
      Prefix(l, Format(rest, plain).value);
    case Hole(name, rest) =>
      ExtractsValues(rest, plain);
      HoleReads(plain[name], Format(rest, plain).value);
  }

  // ---- what Kibana makes of it -------------------------------------------

  /** Every hole is a rison string: its closing quote begins the next literal. */
  predicate RisonHoles(u: Url) {
    match u
    case End => true
    case Lit(_, rest) => RisonHoles(rest)
    case Hole(_, rest) => RisonHoles(rest) && rest.Lit? && rest.text != [] && rest.text[0] == '\''
  }

  /** Decoded text matched against a template, each hole read as a rison string
      that must end where the template's own closing quote stands. */
  function ReadState(u: Url, text: string): Option<seq<string>> {
    match u
    case End => if text == [] then Some([]) else None
    case Lit(l, rest) => if l <= text then ReadState(rest, text[|l|..]) else None
    case Hole(_, rest) =>
      match ReadRison(text)
      case None => None
      case Some(r) => Consed(r.0, ReadState(rest, r.1))
  }

  function Risons(values: map<string, string>): map<string, string> {
    map name | name in values :: Rison(values[name])
  }

  lemma {:induction false} StateReads(u: Url, values: map<string, string>)
    requires RisonHoles(u) && Named(u) <= values.Keys
    ensures ReadState(u, Render(u, Risons(values))) == Some(Values(u, values))
  {
    match u
    case End =>
    case Lit(l, rest) =>
      StateReads(rest, values);
      Prefix(l, Render(rest, Risons(values)));
    case Hole(name, rest) =>
      StateReads(rest, values);
      RisonReads(values[name], Render(rest, Risons(values)));
  }

  // ---- the logs query ----------------------------------------------------

  function LogsQuery(entity: string, signature: string): string {
    Kql(entity) + (" and " + Kql(signature))
  }

  function LogsValues(view: string, entity: string, signature: string, from: string, to: string): map<string, string> {
    map["data_view" := view, "query" := LogsQuery(entity, signature), "from" := from, "to" := to]
  }

  /** The query, read as two quoted literals joined by `and`, and nothing else. */
  function ReadQuery(q: string): Option<(string, string)> {
    match ReadKql(q)
    case None => None
    case Some(a) =>
      if !(" and " <= a.1) then None
      else
        match ReadKql(a.1[5..])
        case None => None
        case Some(b) => if b.1 == [] then Some((a.0, b.0)) else None
  }

  lemma QueryReads(entity: string, signature: string)
    ensures ReadQuery(LogsQuery(entity, signature)) == Some((entity, signature))
  {
    KqlReads(entity, " and " + Kql(signature));
    Prefix(" and ", Kql(signature));
    KqlReads(signature, []);
    assert Kql(signature) + [] == Kql(signature);
  }

  // ---- the table ---------------------------------------------------------

  /** What every row has: the base first and only there, literals without a
      percent sign, and holes that end where a literal begins. */
  predicate Sound(t: Template) {
    && t.url.Hole? && t.url.name == "base" && "base" !in Named(t.url.rest)
    && PlainLiterals(t.url) && Delimited(t.url.rest)
  }

  lemma StateNames()
    ensures Named(STATE) == {"data_view", "query"}
  {
  }

  lemma StateRow()
    ensures PlainLiterals(STATE)
  {
    var query := STATE.rest.rest;
    assert PlainLiterals(query.rest);
    assert PlainLiterals(query);
  }

  lemma StateEnds()
    ensures Delimited(STATE) && RisonHoles(STATE)
  {
  }

  lemma OracleChecked()
    ensures Checked(ORACLE) && "base" !in Named(ORACLE.url.rest)
  {
    StateNames();
  }

  lemma OraclePlain()
    ensures PlainLiterals(ORACLE.url)
  {
    StateRow();
  }

  lemma OracleEnds()
    ensures Delimited(ORACLE.url.rest) && RisonHoles(ORACLE.url.rest)
  {
    StateEnds();
  }

  lemma OracleRow()
    ensures Checked(ORACLE) && Sound(ORACLE) && RisonHoles(ORACLE.url.rest)
  {
    OracleChecked();
    OraclePlain();
    OracleEnds();
  }

  lemma DocRow()
    ensures Checked(DOC) && Sound(DOC)
  {
  }

  lemma RunRow()
    ensures Checked(RUN) && Sound(RUN) && RisonHoles(RUN.url.rest)
  {
    StateNames();
    StateRow();
    StateEnds();
  }

  lemma SessionRow()
    ensures Checked(SESSION) && Sound(SESSION)
  {
  }

  lemma TraceRow()
    ensures Checked(TRACE) && Sound(TRACE)
  {
  }

  /** Every row of the table passes the import-time check and is sound. */
  lemma TableSound()
    ensures forall t | t in TEMPLATES :: Checked(t) && Sound(t)
  {
    OracleRow();
    DocRow();
    RunRow();
    SessionRow();
    TraceRow();
  }

  // ---- filled rows -------------------------------------------------------

  lemma {:induction false} RisonEncoded(v: string)
    requires Encoded(v)
    ensures Encoded(Rison(v))
  {
    if v != [] {
      EncodedParts(v);
      RisonEncoded(v[1..]);
    }
  }

  lemma {:induction false} StrippedEncoded(base: string)
    requires Encoded(base)
    ensures Encoded(Stripped(base))
  {
    if base != [] && base[|base| - 1] == '/' {
      var shorter := base[..|base| - 1];
      assert forall c | c in shorter :: c in base;
      StrippedEncoded(shorter);
    }
  }

  lemma PlainEncoded(t: Template, base: string, values: map<string, string>)
    requires Encoded(base) && EncodedValues(values)
    ensures EncodedValues(Plain(t, base, values))
  {
    StrippedEncoded(base);
    forall name | name in values ensures Encoded(Escaped(t, name, values[name])) {
      RisonEncoded(values[name]);
    }
  }

  /** Any row, filled: after the encoded base the URL is read back, hole by hole,
      to the values; and decoded as a whole it is the template with them in it. */
  lemma FillReads(t: Template, base: string, values: map<string, string>) returns (rest: string)
    requires Checked(t) && Sound(t) && Encoded(base) && EncodedValues(values)
    requires values.Keys <= t.placeholders && t.placeholders <= values.Keys + {"base"}
    ensures Named(t.url.rest) <= Plain(t, base, values).Keys
    ensures Fill(t, base, values) == Ok(Quote(Stripped(base), {':', '/'}) + rest)
    ensures Extract(t.url.rest, rest) == Some(Values(t.url.rest, Plain(t, base, values)))
    ensures Unquote(Fill(t, base, values).value) == Stripped(base) + Render(t.url.rest, Plain(t, base, values))
  {
    var plain := Plain(t, base, values);
    PlainEncoded(t, base, values);
    assert plain.Keys == values.Keys + {"base"};
    assert Named(t.url) == {"base"} + Named(t.url.rest);
    ExtractsValues(t.url.rest, plain);
    FormatDecodes(t.url, plain);
    rest := Format(t.url.rest, plain).value;
  }

  lemma {:induction false} RenderRison(u: Url, t: Template, base: string, values: map<string, string>)
    requires Named(u) <= values.Keys && Named(u) <= t.rison && "base" !in Named(u)
    requires Named(u) <= Plain(t, base, values).Keys
    ensures Render(u, Plain(t, base, values)) == Render(u, Risons(values))
  {
    if !u.End? {
      RenderRison(u.rest, t, base, values);
    }
  }

  /** The logs link: undoing percent-encoding, then reading each rison string from
      its opening quote to the template's closing one, then the two KQL literals,
      gives back the window, the data view, the entity and the signature. */
  lemma LogsRead(base: string, view: string, entity: string, signature: string, from: string, to: string)
    returns (state: string)
    requires Encoded(base) && Encoded(view) && Encoded(entity) && Encoded(signature) && Encoded(from) && Encoded(to)
    ensures Fill(ORACLE, base, LogsValues(view, entity, signature, from, to)).Ok?
    ensures Unquote(Fill(ORACLE, base, LogsValues(view, entity, signature, from, to)).value) == Stripped(base) + state
    ensures ReadState(ORACLE.url.rest, state) == Some([from, to, view, LogsQuery(entity, signature)])
    ensures ReadQuery(LogsQuery(entity, signature)) == Some((entity, signature))
  {
    var values := LogsValues(view, entity, signature, from, to);
    QueryEncoded(entity, signature);
    OracleRow();
    var rest := FillReads(ORACLE, base, values);
    RenderRison(ORACLE.url.rest, ORACLE, base, values);
    state := Render(ORACLE.url.rest, Risons(values));
    StateReads(ORACLE.url.rest, values);
    LogsOrder(values);
    QueryReads(entity, signature);
  }

  lemma StateValues(values: map<string, string>)
    requires {"data_view", "query"} <= values.Keys
    ensures Named(STATE) <= values.Keys
    ensures Values(STATE, values) == [values["data_view"], values["query"]]
  {
    StateNames();
    var query := STATE.rest.rest;
    assert Values(query.rest, values) == [];
    assert Values(query, values) == [values["query"]];
  }

  lemma LogsOrder(values: map<string, string>)
    requires values.Keys == {"data_view", "query", "from", "to"}
    ensures Named(ORACLE.url.rest) <= values.Keys
    ensures Values(ORACLE.url.rest, values) == [values["from"], values["to"], values["data_view"], values["query"]]
  {
    StateValues(values);
    var to := ORACLE.url.rest.rest.rest.rest;
    assert to.name == "to" && to.rest.rest == STATE;
    assert Values(to, values) == [values["to"]] + Values(STATE, values);
    assert Values(to, values) == [values["to"], values["data_view"], values["query"]];
    assert Named(to) == {"to", "data_view", "query"};
    var start := ORACLE.url.rest.rest;
    assert start.name == "from" && start.rest.rest == to;
    assert Named(start) == {"from"} + Named(to);
    assert Values(start, values) == [values["from"]] + Values(to, values);
    assert ORACLE.url.rest.Lit?;
  }

  lemma {:induction false} KqlEncoded(v: string)
    requires Encoded(v)
    ensures Encoded(KqlBody(v))
  {
    if v != [] {
      EncodedParts(v);
      KqlEncoded(v[1..]);
    }
  }

  lemma QueryEncoded(entity: string, signature: string)
    requires Encoded(entity) && Encoded(signature)
    ensures Encoded(LogsQuery(entity, signature))
  {
    KqlEncoded(entity);
    KqlEncoded(signature);
  }

  /** A reference that names another row gets no logs link out of it. */
  lemma LogsOnlyFromOracle(t: Template, base: string, view: string, entity: string, signature: string, from: string, to: string)
    requires t in TEMPLATES
    ensures Fill(t, base, LogsValues(view, entity, signature, from, to)).Ok? <==> t == ORACLE
  {
    var values := LogsValues(view, entity, signature, from, to);
    assert "from" in values;
    if t == ORACLE {
      OracleRow();
      FillTakesExactly(t, base, values);
    }
  }
}
