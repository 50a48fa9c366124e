/** The keyword/value connection-string syntax that lib/pq (following libpq) reads, and what
    `BuildDSN` produces in it. Pairs are `keyword = value` separated by white space; a value is
    either a run of non-space characters or a single-quoted string, and in both a backslash
    takes the next character literally. */
module Conninfo {
  import opened Wrappers
  import opened GoStrings
  import opened TestConfig

  /** One `keyword=value` setting. */
  datatype Setting = Setting(keyword: string, value: string)

  /** White space skipped between the parts of a connection string. */
  function SkipSpaces(s: string): (r: string)
    ensures |r| <= |s|
  {
    if s != [] && IsSpace(s[0]) then SkipSpaces(s[1..]) else s
  }

  /** The text of a keyword: up to the first white space or '='. */
  function ParseKeyword(s: string): (r: (string, string))
    ensures |r.1| <= |s|
  {
    if s == [] || IsSpace(s[0]) || s[0] == '=' then ([], s)
    else
      var (k, rest) := ParseKeyword(s[1..]);
      ([s[0]] + k, rest)
  }

  /** The body of a single-quoted value, after the opening quote: up to the closing quote, a
      backslash escaping the next character; `None` when the quote is never closed. */
  function ParseQuoted(s: string): (r: Option<(string, string)>)
    ensures r.Some? ==> |r.value.1| < |s|
  {
    if s == [] then None
    else if s[0] == '\'' then Some(([], s[1..]))
    else if s[0] == '\\' then
      if |s| < 2 then None
      else match ParseQuoted(s[2..])
        case None => None
        case Some((v, rest)) => Some(([s[1]] + v, rest))
    else match ParseQuoted(s[1..])
      case None => None
      case Some((v, rest)) => Some(([s[0]] + v, rest))
  }

  /** An unquoted value: up to the first white space, a backslash escaping the next character;
      `None` when a backslash ends the string. */
  function ParseUnquoted(s: string): (r: Option<(string, string)>)
    ensures r.Some? ==> |r.value.1| <= |s|
    ensures r.Some? && s != [] && !IsSpace(s[0]) ==> |r.value.1| < |s|
  {
    if s == [] || IsSpace(s[0]) then Some(([], s))
    else if s[0] == '\\' then
      if |s| < 2 then None
      else match ParseUnquoted(s[2..])
        case None => None
        case Some((v, rest)) => Some(([s[1]] + v, rest))
    else match ParseUnquoted(s[1..])
      case None => None
      case Some((v, rest)) => Some(([s[0]] + v, rest))
  }

  /** One pair, from the first character of its keyword: the keyword, optional white space,
      '=', optional white space, then a quoted or unquoted value; a string that ends right after
      '=' gives the keyword an empty value. The rest of the string follows the pair. */
  function ParsePair(t: string): (r: Option<(Setting, string)>)
    ensures r.Some? ==> |r.value.1| < |t|
  {
    var (keyword, afterKey) := ParseKeyword(t);
    var eq := SkipSpaces(afterKey);
    if eq == [] || eq[0] != '=' then None
    else
      var v := SkipSpaces(eq[1..]);
      if v == [] then Some((Setting(keyword, ""), v))
      else
        var parsed := if v[0] == '\'' then ParseQuoted(v[1..]) else ParseUnquoted(v);
        match parsed
        case None => None
        case Some((value, rest)) => Some((Setting(keyword, value), rest))
  }

  /** The settings a connection string holds, in order; `None` for a malformed string.
      White space before each keyword is skipped. */
  function ParseConninfo(s: string): Option<seq<Setting>>
    decreases |s|
  {
    var t := SkipSpaces(s);
    if t == [] then Some([])
    else
      var pair := ParsePair(t);
      if pair.None? then None
      else
        var more := ParseConninfo(pair.value.1);
        if more.None? then None else Some([pair.value.0] + more.value)
  }

  /** The six settings a configuration stands for, in `BuildDSN`'s order. */
  function Settings(c: Config): seq<Setting>
  {
    [Setting("host", c.host), Setting("port", c.port), Setting("user", c.user),
     Setting("password", c.password), Setting("dbname", c.dbName), Setting("sslmode", c.sslMode)]
  }

  // ---------------------------------------------------------------------------------------
  // As written: values spliced in unquoted

  /** A password that contains " dbname=" followed by more text gives the same string as a
      configuration whose password stops before it and whose database name starts with that
      text: no reader can recover both, so such a value does not reach the driver as set. */
  lemma BuildDSNConflates(c: Config, a: string, b: string)
    requires c.dsn == "" && c.password == a + " dbname=" + b
    ensures var c2 := c.(password := a, dbName := b + " dbname=" + c.dbName);
            c2 != c && BuildDSN(c2) == BuildDSN(c)
  {
    var c2 := c.(password := a, dbName := b + " dbname=" + c.dbName);
    assert |c2.password| < |c.password|;
    var head := "host=" + c.host + " port=" + c.port + " user=" + c.user + " password=";
    SameSplice(head, c.password, " dbname=", c.dbName, a, c2.dbName, " sslmode=", c.sslMode);
    assert BuildDSN(c) == head + c.password + " dbname=" + c.dbName + " sslmode=" + c.sslMode;
  }

  /** A concrete pair of configurations `BuildDSN` conflates. */
  lemma BuildDSNConflatesConfigs()
    ensures var c1 := Config("h", "1", "u", "p dbname=x", "y", "s", "");
            var c2 := Config("h", "1", "u", "p", "x dbname=y", "s", "");
            c1 != c2 && BuildDSN(c1) == BuildDSN(c2)
  {
    var c1 := Config("h", "1", "u", "p dbname=x", "y", "s", "");
    assert "p dbname=x" == "p" + " dbname=" + "x";
    assert "x dbname=y" == "x" + " dbname=" + "y";
    BuildDSNConflates(c1, "p", "x");
  }

  /** Equal text in the middle gives equal strings, however it was split. */
  lemma SameSplice(head: string, a: string, d: string, b: string, a': string, b': string, t1: string, t2: string)
    requires a + d + b == a' + d + b'
    ensures head + a + d + b + t1 + t2 == head + a' + d + b' + t1 + t2
  {
    assert head + a + d + b == head + (a + d + b);
    assert head + a' + d + b' == head + (a' + d + b');
  }

  /** A value `BuildDSN` can splice in unquoted: non-empty, no white space, no backslash, and
      not opening with a quote. */
  predicate Plain(v: string)
  {
    v != [] && v[0] != '\'' && forall i :: 0 <= i < |v| ==> !IsSpace(v[i]) && v[i] != '\\'
  }

  /** A keyword as the parser reads it back: non-empty, no white space, no '='. */
  predicate ValidKeyword(k: string)
  {
    k != [] && forall i :: 0 <= i < |k| ==> !IsSpace(k[i]) && k[i] != '='
  }

  /** Settings rendered as `keyword=value` pairs separated by one space, values unquoted. */
  function RenderPlain(ps: seq<Setting>): string
  {
    if ps == [] then ""
    else
      var tail := if |ps| == 1 then "" else " " + RenderPlain(ps[1..]);
      ps[0].keyword + ("=" + (ps[0].value + tail))
  }

  lemma {:induction false} ParseKeywordOf(k: string, rest: string)
    requires forall i :: 0 <= i < |k| ==> !IsSpace(k[i]) && k[i] != '='
    requires rest == [] || IsSpace(rest[0]) || rest[0] == '='
    ensures ParseKeyword(k + rest) == (k, rest)
  {
    if k != [] {
      assert (k + rest)[0] == k[0];
      assert (k + rest)[1..] == k[1..] + rest;
      ParseKeywordOf(k[1..], rest);
      assert [k[0]] + k[1..] == k;
    } else {
      assert k + rest == rest;
    }
  }

  lemma {:induction false} ParseUnquotedOf(v: string, rest: string)
    requires forall i :: 0 <= i < |v| ==> !IsSpace(v[i]) && v[i] != '\\'
    requires rest == [] || IsSpace(rest[0])
    ensures ParseUnquoted(v + rest) == Some((v, rest))
  {
    if v != [] {
      assert (v + rest)[0] == v[0];
      assert (v + rest)[1..] == v[1..] + rest;
      ParseUnquotedOf(v[1..], rest);
      assert [v[0]] + v[1..] == v;
    } else {
      assert v + rest == rest;
    }
  }

  /** Leading white space does not change what a connection string holds. */
  lemma ParseConninfoSkipsSpace(r: string)
    ensures ParseConninfo(" " + r) == ParseConninfo(r)
  {
    assert (" " + r)[1..] == r;
  }

  /** A string that opens with a non-space has no white space to skip. */
  lemma SkipSpacesOfNonSpace(s: string)
    requires s == [] || !IsSpace(s[0])
    ensures SkipSpaces(s) == s
  {
  }

  /** A keyword followed by '=' is read as that keyword, whose value starts right after. */
  lemma KeywordThenValue(k: string, v: string)
    requires ValidKeyword(k) && (v == [] || !IsSpace(v[0]))
    ensures ParseKeyword(k + ("=" + v)) == (k, "=" + v)
    ensures SkipSpaces("=" + v) == "=" + v && ("=" + v)[1..] == v && SkipSpaces(v) == v
  {
    EqualsStart(v);
    ParseKeywordOf(k, "=" + v);
    SkipSpacesOfNonSpace("=" + v);
    SkipSpacesOfNonSpace(v);
  }

  /** '=' is not white space. */
  lemma EqualsStart(v: string)
    ensures ("=" + v)[0] == '=' && !IsSpace(("=" + v)[0]) && ("=" + v)[1..] == v
  {
  }

  /** The empty string holds no settings. */
  lemma ParseConninfoEmpty()
    ensures ParseConninfo("") == Some([])
  {
    assert SkipSpaces("") == "";
  }

  /** A string that opens with a pair holds that pair followed by what the rest holds. */
  lemma ParseConninfoCons(s: string, setting: Setting, rest: string, more: seq<Setting>)
    requires s != [] && !IsSpace(s[0])
    requires ParsePair(s) == Some((setting, rest))
    requires ParseConninfo(rest) == Some(more)
    ensures ParseConninfo(s) == Some([setting] + more)
  {
    SkipSpacesOfNonSpace(s);
  }

  /** A plain value opens with neither white space nor a quote, whatever follows it. */
  lemma PlainStart(v: string, tail: string)
    requires Plain(v)
    ensures (v + tail)[0] == v[0] && !IsSpace((v + tail)[0]) && (v + tail)[0] != '\''
  {
  }

  /** An unquoted pair, followed by nothing or by white space, is read back. */
  lemma ParsePlainPair(k: string, v: string, tail: string)
    requires ValidKeyword(k) && Plain(v)
    requires tail == [] || IsSpace(tail[0])
    ensures ParsePair(k + ("=" + (v + tail))) == Some((Setting(k, v), tail))
  {
    PlainStart(v, tail);
    KeywordThenValue(k, v + tail);
    ParseUnquotedOf(v, tail);
  }

  /** A keyword opens a rendered pair with a non-space character. */
  lemma KeywordStart(k: string, rest: string)
    requires ValidKeyword(k)
    ensures (k + rest) != [] && !IsSpace((k + rest)[0])
  {
    assert (k + rest)[0] == k[0];
  }

  /** Unquoted rendering reads back as the settings whenever every value is plain. */
  lemma {:induction false} ParseRenderPlain(ps: seq<Setting>)
    requires forall i :: 0 <= i < |ps| ==> ValidKeyword(ps[i].keyword) && Plain(ps[i].value)
    ensures ParseConninfo(RenderPlain(ps)) == Some(ps)
  {
    if ps == [] {
      ParseConninfoEmpty();
    } else {
      var k, v, more := ps[0].keyword, ps[0].value, ps[1..];
      assert ValidKeyword(k) && Plain(v);
      assert [Setting(k, v)] + more == ps;
      var tail := if |ps| == 1 then "" else " " + RenderPlain(more);
      if |ps| == 1 {
        ParseConninfoEmpty();
      } else {
        assert forall i :: 0 <= i < |more| ==> more[i] == ps[i + 1];
        ParseRenderPlain(more);
        ParseConninfoSkipsSpace(RenderPlain(more));
      }
      ParsePlainPair(k, v, tail);
      KeywordStart(k, "=" + (v + tail));
      ParseConninfoCons(k + ("=" + (v + tail)), Setting(k, v), tail, more);
    }
  }

  /** The six keywords `BuildDSN` writes are all read back as keywords. */
  lemma KeywordsValid(c: Config)
    ensures forall i :: 0 <= i < |Settings(c)| ==> ValidKeyword(Settings(c)[i].keyword)
  {
    forall k | k in ["host", "port", "user", "password", "dbname", "sslmode"]
      ensures ValidKeyword(k)
    {
      LowerCaseKeyword(k);
    }
  }

  /** A non-empty run of lower-case ASCII letters is a keyword. */
  lemma LowerCaseKeyword(k: string)
    requires k != [] && forall i :: 0 <= i < |k| ==> 'a' <= k[i] <= 'z'
    ensures ValidKeyword(k)
  {
  }

  /** One more pair appended on the left-nested side is one more pair on the right-nested side. */
  lemma AppendPair(p: string, sepKeyEq: string, k: string, v: string, r: string)
    requires sepKeyEq == " " + k + "="
    ensures p + sepKeyEq + v + " " + r == p + " " + (k + ("=" + (v + (" " + r))))
  {
  }

  /** Rendering from position `i` is the pair at `i`, a space, and the rendering after it. */
  lemma RenderPlainStep(ps: seq<Setting>, i: nat)
    requires i + 1 < |ps|
    ensures RenderPlain(ps[i..]) == ps[i].keyword + ("=" + (ps[i].value + (" " + RenderPlain(ps[i + 1..]))))
  {
    assert ps[i..][1..] == ps[i + 1..];
  }

  /** The last pair on the left-nested side ends the right-nested side. */
  lemma LastPair(p: string, sepKeyEq: string, k: string, v: string)
    requires sepKeyEq == " " + k + "="
    ensures p + sepKeyEq + v == p + " " + (k + ("=" + (v + "")))
  {
  }

  /** The first pair on the left-nested side starts the right-nested side. */
  lemma FirstPair(keyEq: string, k: string, v: string, r: string)
    requires keyEq == k + "="
    ensures keyEq + v + " " + r == k + ("=" + (v + (" " + r)))
  {
  }

  /** `BuildDSN` is the unquoted rendering of the six settings. */
  lemma BuildDSNIsRenderPlain(c: Config)
    requires c.dsn == ""
    ensures BuildDSN(c) == RenderPlain(Settings(c))
  {
    var ps := Settings(c);
    var r5 := "sslmode" + ("=" + (c.sslMode + ""));
    var r4 := "dbname" + ("=" + (c.dbName + (" " + r5)));
    var r3 := "password" + ("=" + (c.password + (" " + r4)));
    var r2 := "user" + ("=" + (c.user + (" " + r3)));
    var r1 := "port" + ("=" + (c.port + (" " + r2)));
    var r0 := "host" + ("=" + (c.host + (" " + r1)));
    assert ps[5..] == [ps[5]];
    assert RenderPlain(ps[5..]) == r5;
    RenderPlainStep(ps, 4);
    RenderPlainStep(ps, 3);
    RenderPlainStep(ps, 2);
    RenderPlainStep(ps, 1);
    RenderPlainStep(ps, 0);
    assert ps[0..] == ps;
    var p0 := "host=" + c.host;
    var p1 := p0 + " port=" + c.port;
    var p2 := p1 + " user=" + c.user;
    var p3 := p2 + " password=" + c.password;
    var p4 := p3 + " dbname=" + c.dbName;
    assert BuildDSN(c) == p4 + " sslmode=" + c.sslMode;
    LastPair(p4, " sslmode=", "sslmode", c.sslMode);
    AppendPair(p3, " dbname=", "dbname", c.dbName, r5);
    AppendPair(p2, " password=", "password", c.password, r4);
    AppendPair(p1, " user=", "user", c.user, r3);
    AppendPair(p0, " port=", "port", c.port, r2);
    FirstPair("host=", "host", c.host, r1);
  }

  /** As written, `BuildDSN` reaches the driver intact when its values are plain. */
  lemma BuildDSNRoundTripWhenPlain(c: Config)
    requires c.dsn == ""
    requires forall i :: 0 <= i < |Settings(c)| ==> Plain(Settings(c)[i].value)
    ensures ParseConninfo(BuildDSN(c)) == Some(Settings(c))
  {
    KeywordsValid(c);
    BuildDSNIsRenderPlain(c);
    ParseRenderPlain(Settings(c));
  }

  // ---------------------------------------------------------------------------------------
  // Corrected: every value single-quoted, quotes and backslashes escaped

  /** A value's text inside single quotes: a backslash before every quote and backslash. */
  function Escape(v: string): (e: string)
    ensures |e| >= |v|
  {
    if v == [] then []
    else if v[0] == '\'' || v[0] == '\\' then ['\\', v[0]] + Escape(v[1..])
    else [v[0]] + Escape(v[1..])
  }

  /** Settings rendered as `keyword='value'` pairs separated by one space. */
  function RenderQuoted(ps: seq<Setting>): string
  {
    if ps == [] then ""
    else
      var tail := if |ps| == 1 then "" else " " + RenderQuoted(ps[1..]);
      ps[0].keyword + ("=" + ("'" + (Escape(ps[0].value) + ("'" + tail))))
  }

  /** The connection string as it should be built: an explicit DSN verbatim, else the six
      fields with every value quoted. */
  function QuotedDSN(c: Config): string
  {
    if c.dsn != "" then c.dsn else RenderQuoted(Settings(c))
  }

  /** An escaped value followed by the closing quote reads back as the value. */
  lemma {:induction false} ParseQuotedOfEscaped(v: string, rest: string)
    ensures ParseQuoted(Escape(v) + ("'" + rest)) == Some((v, rest))
  {
    var s := Escape(v) + ("'" + rest);
    if v == [] {
      assert s == "'" + rest;
      assert s[1..] == rest;
    } else {
      ParseQuotedOfEscaped(v[1..], rest);
      if v[0] == '\'' || v[0] == '\\' {
        assert s == ['\\', v[0]] + (Escape(v[1..]) + ("'" + rest));
        assert s[2..] == Escape(v[1..]) + ("'" + rest);
      } else {
        assert s == [v[0]] + (Escape(v[1..]) + ("'" + rest));
        assert s[1..] == Escape(v[1..]) + ("'" + rest);
      }
      assert [v[0]] + v[1..] == v;
    }
  }

  /** A single-quoted value opens with a quote, which is not white space. */
  lemma QuotedStart(body: string)
    ensures ("'" + body)[0] == '\'' && !IsSpace(("'" + body)[0]) && ("'" + body)[1..] == body
  {
  }

  /** A quoted pair is read back, whatever its value holds and whatever follows it. */
  lemma ParseQuotedPair(k: string, v: string, tail: string)
    requires ValidKeyword(k)
    ensures ParsePair(k + ("=" + ("'" + (Escape(v) + ("'" + tail))))) == Some((Setting(k, v), tail))
  {
    QuotedStart(Escape(v) + ("'" + tail));
    KeywordThenValue(k, "'" + (Escape(v) + ("'" + tail)));
    ParseQuotedOfEscaped(v, tail);
  }

  /** Quoted rendering reads back as the settings, whatever the values hold. */
  lemma {:induction false} ParseRenderQuoted(ps: seq<Setting>)
    requires forall i :: 0 <= i < |ps| ==> ValidKeyword(ps[i].keyword)
    ensures ParseConninfo(RenderQuoted(ps)) == Some(ps)
  {
    if ps == [] {
      ParseConninfoEmpty();
    } else {
      var k, v, more := ps[0].keyword, ps[0].value, ps[1..];
      assert ValidKeyword(k);
      assert [Setting(k, v)] + more == ps;
      var tail := if |ps| == 1 then "" else " " + RenderQuoted(more);
      if |ps| == 1 {
        ParseConninfoEmpty();
      } else {
        assert forall i :: 0 <= i < |more| ==> more[i] == ps[i + 1];
        ParseRenderQuoted(more);
        ParseConninfoSkipsSpace(RenderQuoted(more));
      }
      var quoted := "'" + (Escape(v) + ("'" + tail));
      ParseQuotedPair(k, v, tail);
      KeywordStart(k, "=" + quoted);
      ParseConninfoCons(k + ("=" + quoted), Setting(k, v), tail, more);
    }
  }

  /** The quoted connection string hands the driver every field exactly as configured. */
  lemma QuotedDSNRoundTrip(c: Config)
    requires c.dsn == ""
    ensures ParseConninfo(QuotedDSN(c)) == Some(Settings(c))
  {
    KeywordsValid(c);
    ParseRenderQuoted(Settings(c));
  }

  /** Where the values are plain, the quoted string and `BuildDSN`'s hold the same settings. */
  lemma QuotedAgreesWhenPlain(c: Config)
    requires c.dsn == ""
    requires forall i :: 0 <= i < |Settings(c)| ==> Plain(Settings(c)[i].value)
    ensures ParseConninfo(QuotedDSN(c)) == ParseConninfo(BuildDSN(c))
  {
    QuotedDSNRoundTrip(c);
    BuildDSNRoundTripWhenPlain(c);
  }

  /** Once values are quoted, distinct configurations give distinct connection strings. */
  lemma QuotedDSNInjective(c1: Config, c2: Config)
    requires c1.dsn == "" && c2.dsn == ""
    requires QuotedDSN(c1) == QuotedDSN(c2)
    ensures c1 == c2
  {
    QuotedDSNRoundTrip(c1);
    QuotedDSNRoundTrip(c2);
    assert Settings(c1) == Settings(c2);
    assert Settings(c1)[0] == Settings(c2)[0] && Settings(c1)[1] == Settings(c2)[1];
    assert Settings(c1)[2] == Settings(c2)[2] && Settings(c1)[3] == Settings(c2)[3];
    assert Settings(c1)[4] == Settings(c2)[4] && Settings(c1)[5] == Settings(c2)[5];
  }
}
