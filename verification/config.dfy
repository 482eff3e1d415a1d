/**
 * Configuration loading: reading settings from the process environment with
 * defaults, and parsing the comma-separated list of monitored projects. The
 * environment is a map parameter; a missing key is an unset variable.
 */
module Config {
  import opened Wrappers
  import opened Types
  import opened Strings

  /** The process environment: every value is a string. */
  type Env = map<string, string>

  /** `process.env[name]`: the value, or undefined. */
  function Lookup(env: Env, name: string): Option<string> {
    if name in env then Some(env[name]) else None
  }

  /** The message thrown for a required variable that is absent. */
  function MissingMessage(name: string): string {
    "Missing required environment variable: " + name
  }

  /** A JavaScript number as these readers can produce it. */
  datatype JsNumber = Num(n: int) | NaN | Undefined

  /**
   * `getEnvString`: fails iff the variable is unset or empty and there is no
   * default; a set, non-empty value wins over the default.
   */
  function GetEnvString(env: Env, name: string, default: Option<string>): (r: Result<string>)
    ensures r.Failure? <==> !Truthy(Lookup(env, name)) && default.None?
    ensures r.Failure? ==> r.error == MissingMessage(name)
    ensures Truthy(Lookup(env, name)) ==> r == Success(env[name])
    ensures !Truthy(Lookup(env, name)) && default.Some? ==> r == Success(default.value)
  {
    var value := Lookup(env, name);
    if !Truthy(value) && default.None? then Failure(MissingMessage(name))
    else if Truthy(value) then Success(value.value)
    else Success(default.value)
  }

  /** An ASCII decimal digit. */
  predicate IsDigit(c: char) {
    '0' <= c <= '9'
  }

  /** The longest prefix of `s` made of decimal digits. */
  function LeadingDigits(s: string): (d: string)
    ensures |d| <= |s| && d == s[..|d|]
    ensures forall i :: 0 <= i < |d| ==> IsDigit(d[i])
    ensures |d| < |s| ==> !IsDigit(s[|d|])
  {
    if s != [] && IsDigit(s[0]) then [s[0]] + LeadingDigits(s[1..]) else []
  }

  function DigitValue(c: char): nat {
    if IsDigit(c) then c as int - '0' as int else 0
  }

  /** The value of a string of decimal digits, most significant first. */
  function DigitsValue(d: string): nat {
    if d == [] then 0 else DigitsValue(d[..|d| - 1]) * 10 + DigitValue(d[|d| - 1])
  }

  /**
   * What `parseInt(s, 10)` reads once leading whitespace is skipped: an
   * optional sign and then as many decimal digits as follow; NaN (None) when
   * there are none. Whatever follows the digits is ignored.
   */
  function ParseSigned(t: string): (r: Option<int>)
    ensures r.None? <==> var body := if t != [] && (t[0] == '-' || t[0] == '+') then t[1..] else t;
                         body == [] || !IsDigit(body[0])
  {
    var negative := t != [] && t[0] == '-';
    var body := if t != [] && (t[0] == '-' || t[0] == '+') then t[1..] else t;
    var d := LeadingDigits(body);
    var magnitude: int := DigitsValue(d);
    if d == [] then None
    else Some(if negative then -magnitude else magnitude)
  }

  /** `parseInt(s, 10)`: skips leading whitespace and reads a signed number. */
  function ParseInt(s: string): (r: Option<int>)
    ensures r.None? <==> var t := TrimStart(s);
                         var body := if t != [] && (t[0] == '-' || t[0] == '+') then t[1..] else t;
                         body == [] || !IsDigit(body[0])
  {
    ParseSigned(TrimStart(s))
  }

  function DigitChar(k: nat): (c: char)
    requires k < 10
    ensures IsDigit(c) && DigitValue(c) == k
  {
    ('0' as int + k) as char
  }

  /** The decimal notation of `n`, the partner of `ParseInt`. */
  function Decimal(n: nat): (s: string)
    ensures s != [] && forall i :: 0 <= i < |s| ==> IsDigit(s[i])
  {
    if n < 10 then [DigitChar(n)] else Decimal(n / 10) + [DigitChar(n % 10)]
  }

  lemma {:induction false} DecimalValue(n: nat)
    ensures DigitsValue(Decimal(n)) == n
  {
    var s := Decimal(n);
    assert s[..|s| - 1] == if n < 10 then [] else Decimal(n / 10);
    if n >= 10 {
      DecimalValue(n / 10);
    }
  }

  /**
   * `parseInt` reads back the decimal notation of a number, whatever
   * non-digit text follows it and whatever whitespace precedes it.
   */
  lemma ParseIntDecimal(space: string, n: nat, rest: string)
    requires TrimStart(space) == []
    requires rest != [] ==> !IsDigit(rest[0])
    ensures ParseInt(space + Decimal(n) + rest) == Some(n)
  {
    assert space + Decimal(n) + rest == space + (Decimal(n) + rest);
    ParseIntSkipsWhitespace(space, Decimal(n) + rest);
    DecimalThenOther(n, rest);
  }

  lemma DecimalThenOther(n: nat, rest: string)
    requires rest != [] ==> !IsDigit(rest[0])
    ensures ParseInt(Decimal(n) + rest) == Some(n)
  {
    var s := Decimal(n) + rest;
    assert IsDigit(s[0]);
    assert TrimStart(s) == s;
    SignedDigits(Decimal(n), rest);
    DecimalValue(n);
  }

  /** Unsigned digits followed by a non-digit read as their value. */
  lemma SignedDigits(digits: string, rest: string)
    requires digits != [] && forall i :: 0 <= i < |digits| ==> IsDigit(digits[i])
    requires rest != [] ==> !IsDigit(rest[0])
    ensures ParseSigned(digits + rest) == Some(DigitsValue(digits))
  {
    var s := digits + rest;
    assert s[0] == digits[0];
    assert IsDigit(s[0]);
    assert s[0] != '-' && s[0] != '+';
    DigitsThenOther(digits, rest);
    assert LeadingDigits(s) == digits;
  }

  /** Leading whitespace does not change what `parseInt` reads. */
  lemma ParseIntSkipsWhitespace(space: string, s: string)
    requires TrimStart(space) == []
    ensures ParseInt(space + s) == ParseInt(s)
  {
    LeadingWhitespaceSkipped(space, s);
  }

  /** The digits of `digits + rest` are `digits` when `rest` does not start with one. */
  lemma {:induction false} DigitsThenOther(digits: string, rest: string)
    requires forall i :: 0 <= i < |digits| ==> IsDigit(digits[i])
    requires rest != [] ==> !IsDigit(rest[0])
    ensures LeadingDigits(digits + rest) == digits
    decreases |digits|
  {
    var s := digits + rest;
    if digits == [] {
      assert s == rest;
    } else {
      assert s[0] == digits[0] && s[1..] == digits[1..] + rest;
      DigitsThenOther(digits[1..], rest);
      assert [digits[0]] + digits[1..] == digits;
    }
  }

  /** `trimStart` skips any leading whitespace, whatever follows. */
  lemma {:induction false} LeadingWhitespaceSkipped(space: string, s: string)
    requires TrimStart(space) == []
    ensures TrimStart(space + s) == TrimStart(s)
    decreases |space|
  {
    if space == [] {
      assert space + s == s;
    } else {
      assert IsWhitespace(space[0]);
      LeadingWhitespaceSkipped(space[1..], s);
      ConcatTail(space, s);
    }
  }

  lemma ConcatTail(a: string, b: string)
    requires a != []
    ensures (a + b)[0] == a[0] && (a + b)[1..] == a[1..] + b
  {
  }

  /**
   * `getEnvNumber`: fails iff the variable is unset and there is no default
   * (an empty value does not fail); a non-empty value is parsed, anything
   * else gives the default, which may itself be undefined.
   */
  function GetEnvNumber(env: Env, name: string, default: Option<int>): (r: Result<JsNumber>)
    ensures r.Failure? <==> name !in env && default.None?
    ensures r.Failure? ==> r.error == MissingMessage(name)
    ensures Truthy(Lookup(env, name)) ==>
              r.Success? && (r.value.Num? <==> ParseInt(env[name]).Some?)
              && (r.value.NaN? <==> ParseInt(env[name]).None?)
              && (r.value.Num? ==> r.value.n == ParseInt(env[name]).value)
    ensures !Truthy(Lookup(env, name)) && default.Some? ==> r == Success(Num(default.value))
    ensures name in env && env[name] == "" && default.None? ==> r == Success(Undefined)
  {
    var value := Lookup(env, name);
    if value.None? && default.None? then Failure(MissingMessage(name))
    else if Truthy(value) then
      Success(match ParseInt(value.value) case Some(n) => Num(n) case None => NaN)
    else if default.Some? then Success(Num(default.value))
    else Success(Undefined)
  }

  /**
   * `getEnvBoolean`: fails iff the variable is unset and there is no
   * default; a non-empty value means true iff it spells "true" in any case;
   * anything else gives the default, which may itself be undefined (None).
   */
  function GetEnvBoolean(env: Env, name: string, default: Option<bool>): (r: Result<Option<bool>>)
    ensures r.Failure? <==> name !in env && default.None?
    ensures r.Failure? ==> r.error == MissingMessage(name)
    ensures Truthy(Lookup(env, name)) ==> r == Success(Some(LowerAscii(env[name]) == "true"))
    ensures !Truthy(Lookup(env, name)) && default.Some? ==> r == Success(default)
    ensures name in env && env[name] == "" && default.None? ==> r == Success(None)
  {
    var value := Lookup(env, name);
    if value.None? && default.None? then Failure(MissingMessage(name))
    else if Truthy(value) then Success(Some(LowerAscii(value.value) == "true"))
    else Success(default)
  }

  /**
   * The three readers disagree on an empty value without a default: the
   * string reader throws, the number and boolean readers return undefined.
   */
  lemma EmptyValueWithoutDefault(env: Env, name: string)
    requires name in env && env[name] == ""
    ensures GetEnvString(env, name, None).Failure?
    ensures GetEnvNumber(env, name, None) == Success(Undefined)
    ensures GetEnvBoolean(env, name, None) == Success(None)
  {
  }

  /** Only the word "true", in any letter case, reads as true. */
  lemma BooleanSpellings(env: Env, name: string)
    ensures GetEnvBoolean(env[name := "TRUE"], name, None) == Success(Some(true))
    ensures GetEnvBoolean(env[name := "True"], name, Some(false)) == Success(Some(true))
    ensures GetEnvBoolean(env[name := "1"], name, Some(true)) == Success(Some(false))
    ensures GetEnvBoolean(env[name := "yes"], name, Some(true)) == Success(Some(false))
  {
    assert LowerAscii("TRUE") == "true";
    assert LowerAscii("True") == "true";
    assert LowerAscii("1") == "1";
    assert LowerAscii("yes") == "yes";
  }

  /**
   * The value `PROJECTS` falls back to: the entries below joined by ',',
   * that is "email-blast:http://email-blast:3000,chatbot:http://chatbot:3000,social-media:http://social-media:3000".
   */
  const DEFAULT_PROJECTS := Join(DEFAULT_ENTRIES, ',')

  const DEFAULT_ENTRIES := ["email-blast:http://email-blast:3000", "chatbot:http://chatbot:3000", "social-media:http://social-media:3000"]

  /** The message thrown for a project definition without a name or a url. */
  function DefinitionError(def: string): string {
    "Invalid project definition: " + def + ". Expected format: name:url"
  }

  /** A parsed project: critical, checked every 10 s, measured every 30 s. */
  function WithDefaults(name: string, url: string): (p: Project)
    ensures p.name == name && p.url == url
    ensures p.critical && p.healthCheckInterval == 10000 && p.metricsCheckInterval == 30000
  {
    Project(name, url, true, 10000, 30000)
  }

  /**
   * One entry of `parseProjects` as written: the trimmed entry is split at
   * every ':', and the first two fields (undefined counting as empty) are
   * the name and the url, each trimmed after the emptiness check.
   */
  function ParseDefinitionAsWritten(def: string): (r: Result<Project>)
    ensures r.Failure? ==> r.error == DefinitionError(def)
    ensures var fields := Split(Trim(def), ':');
            r.Success? <==> fields[0] != "" && |fields| >= 2 && fields[1] != ""
    ensures var fields := Split(Trim(def), ':');
            r.Success? ==> r.value == WithDefaults(Trim(fields[0]), Trim(fields[1]))
  {
    var fields := Split(Trim(def), ':');
    var name := fields[0];
    var url := if |fields| >= 2 then fields[1] else "";
    if name == "" || url == "" then Failure(DefinitionError(def))
    else Success(WithDefaults(Trim(name), Trim(url)))
  }

  /**
   * `parseProjects`' mapping over the entries: the first entry that fails
   * decides the error; otherwise one project per entry, in order.
   */
  function ParseEach(defs: seq<string>, parse: string -> Result<Project>): (r: Result<seq<Project>>)
    ensures r.Success? <==> forall k :: 0 <= k < |defs| ==> parse(defs[k]).Success?
    ensures r.Success? ==> |r.value| == |defs| && forall k :: 0 <= k < |defs| ==> r.value[k] == parse(defs[k]).value
    ensures r.Failure? ==> exists k :: 0 <= k < |defs| && parse(defs[k]).Failure? && r.error == parse(defs[k]).error
                                      && forall j :: 0 <= j < k ==> parse(defs[j]).Success?
    decreases |defs|
  {
    if defs == [] then Success([])
    else
      match parse(defs[0])
      case Failure(e) => Failure(e)
      case Success(p) =>
        var rest := ParseEach(defs[1..], parse);
        if rest.Failure? then
          ghost var k :| 0 <= k < |defs| - 1 && parse(defs[1..][k]).Failure? && rest.error == parse(defs[1..][k]).error
                         && forall j :: 0 <= j < k ==> parse(defs[1..][j]).Success?;
          assert parse(defs[k + 1]).Failure? && forall j :: 0 <= j < k + 1 ==> parse(defs[j]).Success? by {
            forall j | 0 <= j < k + 1
              ensures parse(defs[j]).Success?
            {
              if j > 0 {
                assert defs[j] == defs[1..][j - 1];
              }
            }
          }
          Failure(rest.error)
        else
          assert forall k :: 1 <= k < |defs| ==> defs[k] == defs[1..][k - 1];
          Success([p] + rest.value)
  }

  /** The `PROJECTS` variable, or the default list when it is unset or empty. */
  function ProjectsSetting(env: Env): (s: string)
    ensures Truthy(Lookup(env, "PROJECTS")) ==> s == env["PROJECTS"]
    ensures !Truthy(Lookup(env, "PROJECTS")) ==> s == DEFAULT_PROJECTS
  {
    GetEnvString(env, "PROJECTS", Some(DEFAULT_PROJECTS)).value
  }

  /**
   * `parseProjects` as written, on the setting `ProjectsSetting(env)`: one
   * project per comma-separated entry, in order, each parsed by
   * `ParseDefinitionAsWritten`; otherwise the error names a rejected entry.
   */
  function ParseProjectsAsWritten(setting: string): (r: Result<seq<Project>>)
    ensures var defs := Split(setting, ',');
            r.Success? ==> |r.value| == |defs|
                           && forall k :: 0 <= k < |defs| ==> ParseDefinitionAsWritten(defs[k]).Success? && r.value[k] == ParseDefinitionAsWritten(defs[k]).value
    ensures r.Failure? ==> exists def :: def in Split(setting, ',') && ParseDefinitionAsWritten(def).Failure? && r.error == DefinitionError(def)
  {
    ParseEach(Split(setting, ','), ParseDefinitionAsWritten)
  }

  /** A string that starts and ends with something other than whitespace. */
  predicate Trimmed(s: string) {
    s != [] ==> !IsWhitespace(s[0]) && !IsWhitespace(s[|s| - 1])
  }

  lemma TrimmedNonEmpty(s: string)
    requires s != [] && (!IsWhitespace(s[0]) || !IsWhitespace(s[|s| - 1]))
    ensures Trim(s) != []
  {
    var t := TrimStart(s);
    if !IsWhitespace(s[0]) {
      assert t == s;
    } else {
      assert t != [] && t[|t| - 1] == s[|s| - 1];
    }
  }

  /**
   * One entry, as evidently intended: the name runs up to the first ':' and
   * the url is everything after it, so a url may itself hold ':' (a scheme,
   * a port). Neither trimmed part is ever empty.
   */
  function ParseDefinition(def: string): (r: Result<Project>)
    ensures r.Failure? ==> r.error == DefinitionError(def)
    ensures var t := Trim(def); r.Success? <==> |t| >= 2 && t[0] != ':' && ':' in t[..|t| - 1]
    ensures r.Success? ==> r.value.name != "" && r.value.url != "" && ':' !in r.value.name
    ensures r.Success? ==> var t := Trim(def);
              exists i {:trigger t[..i]} :: 0 <= i < |t| && t[i] == ':' && ':' !in t[..i]
                && r.value.name == Trim(t[..i]) && r.value.url == Trim(t[i + 1..])
    ensures r.Success? ==> r.value == WithDefaults(r.value.name, r.value.url)
  {
    var t := Trim(def);
    match FirstIndexOf(t, ':')
    case None => Failure(DefinitionError(def))
    case Some(i) =>
      var name, url := t[..i], t[i + 1..];
      if name == "" || url == "" then Failure(DefinitionError(def))
      else
        assert name[0] == t[0] && url[|url| - 1] == t[|t| - 1];
        TrimmedNonEmpty(name);
        TrimmedNonEmpty(url);
        TrimKeepsAbsent(name, ':');
        assert ':' !in t[..i];
        Success(WithDefaults(Trim(name), Trim(url)))
  }

  /** `parseProjects` with `ParseDefinition` for each entry. */
  function ParseProjects(setting: string): (r: Result<seq<Project>>)
    ensures var defs := Split(setting, ',');
            r.Success? ==> |r.value| == |defs|
                           && forall k :: 0 <= k < |defs| ==> ParseDefinition(defs[k]).Success? && r.value[k] == ParseDefinition(defs[k]).value
    ensures r.Failure? ==> exists def :: def in Split(setting, ',') && ParseDefinition(def).Failure? && r.error == DefinitionError(def)
  {
    ParseEach(Split(setting, ','), ParseDefinition)
  }

  /**
   * Both parsers yield at least one project whenever they succeed, so the
   * "no projects configured" check after loading never fires.
   */
  lemma ParsedProjectsNonEmpty(setting: string)
    ensures ParseProjectsAsWritten(setting).Success? ==> |ParseProjectsAsWritten(setting).value| >= 1
    ensures ParseProjects(setting).Success? ==> |ParseProjects(setting).value| >= 1
  {
  }

  /** A name and url that `Definition` can carry through a round trip. */
  predicate WellFormed(name: string, url: string) {
    && name != [] && url != [] && Trimmed(name) && Trimmed(url)
    && ':' !in name && ',' !in name && ',' !in url
  }

  /** The "name:url" entry for a project. */
  function Definition(name: string, url: string): string {
    name + ":" + url
  }

  /** Round trip: an entry written from a name and url parses back to them. */
  lemma {:induction false} DefinitionRoundTrip(name: string, url: string)
    requires WellFormed(name, url)
    ensures ParseDefinition(Definition(name, url)) == Success(WithDefaults(name, url))
  {
    var def := Definition(name, url);
    assert def[0] == name[0] && def[|def| - 1] == url[|url| - 1];
    TrimUnchanged(def);
    TrimUnchanged(name);
    TrimUnchanged(url);
    assert def[..|name|] == name && def[|name|] == ':' && def[|name| + 1..] == url;
    assert FirstIndexOf(def, ':') == Some(|name|);
    assert Trim(def) == def;
  }

  /** The entries for a list of (name, url) pairs. */
  function Definitions(pairs: seq<(string, string)>): (defs: seq<string>)
    ensures |defs| == |pairs|
    ensures forall k :: 0 <= k < |pairs| ==> defs[k] == Definition(pairs[k].0, pairs[k].1)
  {
    if pairs == [] then [] else [Definition(pairs[0].0, pairs[0].1)] + Definitions(pairs[1..])
  }

  /**
   * Round trip of the whole setting: a non-empty list of well-formed pairs,
   * written as comma-separated entries, parses back to one project per pair.
   */
  lemma ProjectsRoundTrip(pairs: seq<(string, string)>)
    requires |pairs| >= 1 && forall k :: 0 <= k < |pairs| ==> WellFormed(pairs[k].0, pairs[k].1)
    ensures var r := ParseProjects(Join(Definitions(pairs), ','));
            && r.Success? && |r.value| == |pairs|
            && forall k :: 0 <= k < |pairs| ==> r.value[k] == WithDefaults(pairs[k].0, pairs[k].1)
  {
    var defs := Definitions(pairs);
    forall k | 0 <= k < |defs|
      ensures ',' !in defs[k]
    {
      NoCommaInDefinition(pairs[k].0, pairs[k].1);
    }
    SplitJoin(defs, ',');
    DefinitionsParse(pairs);
  }

  /** Every entry written from well-formed pairs parses back to its pair. */
  lemma DefinitionsParse(pairs: seq<(string, string)>)
    requires forall k :: 0 <= k < |pairs| ==> WellFormed(pairs[k].0, pairs[k].1)
    ensures forall k :: 0 <= k < |pairs| ==>
              ParseDefinition(Definitions(pairs)[k]) == Success(WithDefaults(pairs[k].0, pairs[k].1))
    ensures forall def :: def in Definitions(pairs) ==> ParseDefinition(def).Success?
  {
    var defs := Definitions(pairs);
    forall k | 0 <= k < |pairs|
      ensures ParseDefinition(defs[k]) == Success(WithDefaults(pairs[k].0, pairs[k].1))
    {
      DefinitionRoundTrip(pairs[k].0, pairs[k].1);
    }
  }

  lemma NoCommaInDefinition(name: string, url: string)
    requires WellFormed(name, url)
    ensures ',' !in Definition(name, url)
  {
    var d := Definition(name, url);
    forall i | 0 <= i < |d|
      ensures d[i] != ','
    {
      if i < |name| {
        assert d[i] == name[i];
      } else if i > |name| {
        assert d[i] == url[i - |name| - 1];
      }
    }
  }

  /**
   * As written, the url field stops at the second ':' of the entry: an
   * entry "name:scheme:rest" gets the url "scheme".
   */
  lemma {:induction false} UrlStopsAtSecondColon(name: string, scheme: string, rest: string)
    requires name != [] && !IsWhitespace(name[0]) && ':' !in name
    requires ':' !in scheme && rest != [] && !IsWhitespace(rest[|rest| - 1])
    ensures ParseDefinitionAsWritten(name + ":" + scheme + ":" + rest) ==
              if scheme == [] then Failure(DefinitionError(name + ":" + scheme + ":" + rest))
              else Success(WithDefaults(Trim(name), Trim(scheme)))
  {
    var def := name + ":" + scheme + ":" + rest;
    assert def[0] == name[0] && def[|def| - 1] == rest[|rest| - 1];
    TrimUnchanged(def);
    assert def == name + [':'] + (scheme + [':'] + rest);
    SplitAt(name, ':', scheme + [':'] + rest);
    SplitAt(scheme, ':', rest);
  }

  /** The default setting splits into the three default entries. */
  lemma DefaultEntries()
    ensures Split(DEFAULT_PROJECTS, ',') == DEFAULT_ENTRIES
  {
    SplitJoin(DEFAULT_ENTRIES, ',');
  }

  /**
   * As written, a blank second field passes the emptiness check and yields
   * an empty url, as in "api: :9000".
   */
  lemma BlankUrlAsWritten(name: string, blank: string, rest: string)
    requires name != [] && !IsWhitespace(name[0]) && ':' !in name
    requires blank != [] && forall i :: 0 <= i < |blank| ==> IsWhitespace(blank[i])
    requires rest != [] && !IsWhitespace(rest[|rest| - 1])
    ensures ParseDefinitionAsWritten(name + ":" + blank + ":" + rest) == Success(WithDefaults(Trim(name), ""))
  {
    assert ':' !in blank by {
      forall i | 0 <= i < |blank|
        ensures blank[i] != ':'
      {
        assert IsWhitespace(blank[i]);
      }
    }
    UrlStopsAtSecondColon(name, blank, rest);
  }
}
