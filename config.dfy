/**
 * Settings of the API process (backend/app/config.py): values read from the
 * environment, the comma-separated list parser behind CORS_ORIGINS, the rules
 * that derive the CORS and bootstrap-admin fields, and the process-wide cache
 * that builds the settings once.
 *
 * The environment is a parameter: a map from variable name to value.
 */
module Config {
  import opened Wrappers

  // ---------------------------------------------------------------------------
  // Splitting and stripping

  /** The characters `str.strip` removes, up to code point 0xFF. */
  predicate IsSpace(c: char) {
    c == ' ' || c == '\t' || c == '\n' || c == '\r' || c == '\U{000B}' || c == '\U{000C}'
    || c == '\U{001C}' || c == '\U{001D}' || c == '\U{001E}' || c == '\U{001F}' || c == '\U{0085}' || c == '\U{00A0}'
  }

  /** The pieces of s between the separators, as `str.split(sep)` returns them; never empty. */
  function SplitOn(s: string, sep: char): (pieces: seq<string>)
    ensures |pieces| >= 1
  {
    if |s| == 0 then [""]
    else
      var init := SplitOn(s[..|s| - 1], sep);
      var c := s[|s| - 1];
      if c == sep then init + [""]
      else init[..|init| - 1] + [init[|init| - 1] + [c]]
  }

  /** The pieces joined back with the separator between them. */
  function Join(pieces: seq<string>, sep: char): string
    requires |pieces| >= 1
  {
    if |pieces| == 1 then pieces[0] else Join(pieces[..|pieces| - 1], sep) + [sep] + pieces[|pieces| - 1]
  }

  lemma {:induction false} SplitWithoutSeparator(t: string, sep: char)
    requires sep !in t
    ensures SplitOn(t, sep) == [t]
  {
    if |t| > 0 {
      SplitWithoutSeparator(t[..|t| - 1], sep);
      assert t[..|t| - 1] + [t[|t| - 1]] == t;
    }
  }

  /** Splitting after a separator starts a new piece. */
  lemma {:induction false} SplitAfterSeparator(s: string, t: string, sep: char)
    requires sep !in t
    ensures SplitOn(s + [sep] + t, sep) == SplitOn(s, sep) + [t]
  {
    if |t| == 0 {
      assert s + [sep] + t == s + [sep];
      assert (s + [sep])[..|s|] == s;
    } else {
      var u := s + [sep] + t;
      var t' := t[..|t| - 1];
      assert u[..|u| - 1] == s + [sep] + t';
      SplitAfterSeparator(s, t', sep);
      assert t' + [t[|t| - 1]] == t;
    }
  }

  /** Splitting undoes joining pieces that do not hold the separator. */
  lemma {:induction false} SplitJoin(pieces: seq<string>, sep: char)
    requires |pieces| >= 1
    requires forall i :: 0 <= i < |pieces| ==> sep !in pieces[i]
    ensures SplitOn(Join(pieces, sep), sep) == pieces
  {
    if |pieces| == 1 {
      SplitWithoutSeparator(pieces[0], sep);
    } else {
      var init, last := pieces[..|pieces| - 1], pieces[|pieces| - 1];
      assert forall i :: 0 <= i < |init| ==> init[i] == pieces[i];
      SplitJoin(init, sep);
      assert Join(pieces, sep) == Join(init, sep) + [sep] + last;
      SplitAfterSeparator(Join(init, sep), last, sep);
      assert init + [last] == pieces;
    }
  }

  /** Joining undoes splitting. */
  lemma {:induction false} JoinSplit(s: string, sep: char)
    ensures Join(SplitOn(s, sep), sep) == s
  {
    if |s| > 0 {
      var init := SplitOn(s[..|s| - 1], sep);
      JoinSplit(s[..|s| - 1], sep);
      var c := s[|s| - 1];
      if c != sep {
        var n := |init| - 1;
        if n > 0 {
          assert (init[..n] + [init[n] + [c]])[..n] == init[..n];
          assert Join(init, sep) == Join(init[..n], sep) + [sep] + init[n];
        }
      } else {
        assert (init + [""])[..|init|] == init;
      }
    }
  }

  function LeadingSpaces(s: string): (n: nat)
    ensures n <= |s|
    ensures forall i :: 0 <= i < n ==> IsSpace(s[i])
    ensures n < |s| ==> !IsSpace(s[n])
  {
    if |s| == 0 || !IsSpace(s[0]) then 0 else 1 + LeadingSpaces(s[1..])
  }

  function TrailingSpaces(s: string): (n: nat)
    ensures n <= |s|
    ensures forall i :: |s| - n <= i < |s| ==> IsSpace(s[i])
    ensures n < |s| ==> !IsSpace(s[|s| - 1 - n])
  {
    if |s| == 0 || !IsSpace(s[|s| - 1]) then 0 else 1 + TrailingSpaces(s[..|s| - 1])
  }

  /**
   * `str.strip()`: s without its leading and trailing whitespace; what is
   * left neither starts nor ends with whitespace.
   */
  function Strip(s: string): (r: string)
    ensures |r| <= |s|
    ensures r != [] ==> !IsSpace(r[0]) && !IsSpace(r[|r| - 1])
    ensures r == [] <==> forall i :: 0 <= i < |s| ==> IsSpace(s[i])
    ensures forall c :: c in r ==> c in s
  {
    var lead := LeadingSpaces(s);
    if lead == |s| then []
    else
      var trail := TrailingSpaces(s);
      assert !IsSpace(s[lead]);
      assert |s| - 1 - trail >= lead;
      var r := s[lead..|s| - trail];
      assert forall k :: 0 <= k < |r| ==> r[k] == s[lead + k];
      r
  }

  /** Stripping removes whitespace from the two ends only: the result is a slice of s. */
  lemma StripTakesSlice(s: string)
    ensures exists a, b ::
      (0 <= a <= b <= |s| && Strip(s) == s[a..b]
       && (forall i :: 0 <= i < a ==> IsSpace(s[i])) && (forall i :: b <= i < |s| ==> IsSpace(s[i])))
  {
    var lead, trail := LeadingSpaces(s), TrailingSpaces(s);
    if lead == |s| {
      assert Strip(s) == s[lead..lead];
    } else {
      assert !IsSpace(s[lead]);
      assert Strip(s) == s[lead..|s| - trail];
    }
  }

  /** A string that neither starts nor ends with whitespace strips to itself. */
  lemma StripClean(s: string)
    requires s != [] && !IsSpace(s[0]) && !IsSpace(s[|s| - 1])
    ensures Strip(s) == s
  {
  }

  /** The stripped pieces that are not blank, in order. */
  function CleanPieces(pieces: seq<string>): (items: seq<string>)
    ensures |items| <= |pieces|
    ensures forall i :: 0 <= i < |items| ==> items[i] != "" && Strip(items[i]) == items[i]
  {
    if |pieces| == 0 then []
    else
      var item := Strip(pieces[|pieces| - 1]);
      if item == "" then CleanPieces(pieces[..|pieces| - 1])
      else StripClean(item); CleanPieces(pieces[..|pieces| - 1]) + [item]
  }

  /** One piece is kept, stripped, unless it is blank. */
  lemma CleanPiecesSingle(p: string)
    ensures CleanPieces([p]) == if Strip(p) == "" then [] else [Strip(p)]
  {
    assert [p][..0] == [];
  }

  lemma CleanPiecesLast(pieces: seq<string>)
    requires |pieces| > 0
    ensures CleanPieces(pieces) == CleanPieces(pieces[..|pieces| - 1]) + CleanPieces([pieces[|pieces| - 1]])
  {
    CleanPiecesSingle(pieces[|pieces| - 1]);
  }

  /** Cleaning works piece by piece, so the kept pieces stay in their left-to-right order. */
  lemma {:induction false} CleanPiecesAppend(a: seq<string>, b: seq<string>)
    ensures CleanPieces(a + b) == CleanPieces(a) + CleanPieces(b)
  {
    if |b| == 0 {
      assert a + b == a;
    } else {
      var init, last := b[..|b| - 1], b[|b| - 1];
      CleanPiecesAppend(a, init);
      var ab := a + b;
      assert ab[..|ab| - 1] == a + init && ab[|ab| - 1] == last;
      CleanPiecesLast(ab);
      CleanPiecesLast(b);
      calc {
        CleanPieces(ab);
        CleanPieces(a + init) + CleanPieces([last]);
        CleanPieces(a) + CleanPieces(init) + CleanPieces([last]);
        CleanPieces(a) + (CleanPieces(init) + CleanPieces([last]));
        CleanPieces(a) + CleanPieces(b);
      }
    }
  }

  /**
   * `_split_csv`: the non-blank comma-separated pieces of the value, stripped,
   * in order; a missing or empty value gives no pieces.
   */
  function SplitCsv(value: Option<string>): (items: seq<string>)
    ensures value.None? || value == Some("") ==> items == []
    ensures forall i :: 0 <= i < |items| ==> items[i] != "" && Strip(items[i]) == items[i]
    ensures value.Some? ==> |items| <= |SplitOn(value.value, ',')|
  {
    if value.None? || value.value == "" then [] else CleanPieces(SplitOn(value.value, ','))
  }

  /** Pieces taken with no comma inside them. */
  lemma {:induction false} CleanPiecesNoComma(pieces: seq<string>)
    requires forall i :: 0 <= i < |pieces| ==> ',' !in pieces[i]
    ensures forall i :: 0 <= i < |CleanPieces(pieces)| ==> ',' !in CleanPieces(pieces)[i]
  {
    if |pieces| > 0 {
      CleanPiecesNoComma(pieces[..|pieces| - 1]);
      assert ',' !in Strip(pieces[|pieces| - 1]);
    }
  }

  lemma {:induction false} SplitOnNoSeparator(s: string, sep: char)
    ensures forall i :: 0 <= i < |SplitOn(s, sep)| ==> sep !in SplitOn(s, sep)[i]
  {
    if |s| > 0 {
      SplitOnNoSeparator(s[..|s| - 1], sep);
    }
  }

  /** No item holds a comma. */
  lemma SplitCsvNoComma(value: Option<string>)
    ensures forall i :: 0 <= i < |SplitCsv(value)| ==> ',' !in SplitCsv(value)[i]
  {
    if value.Some? && value.value != "" {
      SplitOnNoSeparator(value.value, ',');
      CleanPiecesNoComma(SplitOn(value.value, ','));
    }
  }

  lemma {:induction false} CleanPiecesOfClean(pieces: seq<string>)
    requires forall i :: 0 <= i < |pieces| ==> pieces[i] != "" && !IsSpace(pieces[i][0]) && !IsSpace(pieces[i][|pieces[i]| - 1])
    ensures CleanPieces(pieces) == pieces
  {
    if |pieces| > 0 {
      CleanPiecesOfClean(pieces[..|pieces| - 1]);
      StripClean(pieces[|pieces| - 1]);
    }
  }

  /**
   * Items without commas and without surrounding whitespace, joined with
   * commas, split back into the same items.
   */
  lemma SplitCsvOfJoin(items: seq<string>)
    requires |items| >= 1
    requires forall i :: 0 <= i < |items| ==>
      items[i] != "" && ',' !in items[i] && !IsSpace(items[i][0]) && !IsSpace(items[i][|items[i]| - 1])
    ensures SplitCsv(Some(Join(items, ','))) == items
  {
    SplitJoin(items, ',');
    CleanPiecesOfClean(items);
    assert Join(items, ',') != "" by {
      JoinLength(items, ',');
    }
  }

  /**
   * Any comma-free pieces joined with commas split back into those pieces,
   * each stripped, with the blank ones dropped, in order.
   */
  lemma SplitCsvOfPieces(pieces: seq<string>)
    requires |pieces| >= 1
    requires forall i :: 0 <= i < |pieces| ==> ',' !in pieces[i]
    ensures SplitCsv(Some(Join(pieces, ','))) == CleanPieces(pieces)
  {
    SplitJoin(pieces, ',');
    if Join(pieces, ',') == "" {
      JoinLength(pieces, ',');
      assert pieces == [""];
      CleanPiecesSingle("");
    }
  }

  /** The usual value: two origins, the second after a comma and a space. */
  lemma SplitCsvTwoOrigins(a: string, b: string)
    requires a != [] && ',' !in a && !IsSpace(a[0]) && !IsSpace(a[|a| - 1])
    requires b != [] && ',' !in b && !IsSpace(b[0]) && !IsSpace(b[|b| - 1])
    ensures SplitCsv(Some(a + ", " + b)) == [a, b]
  {
    var b' := " " + b;
    assert b'[1..] == b;
    JoinTwo(a, b');
    assert a + ", " + b == a + "," + b';
    SplitCsvOfPieces([a, b']);
    assert [a, b'] == [a] + [b'];
    CleanPiecesAppend([a], [b']);
    StripClean(a);
    CleanPiecesSingle(a);
    StripOneSpace(b);
    CleanPiecesSingle(b');
  }

  lemma JoinTwo(a: string, b: string)
    ensures Join([a, b], ',') == a + "," + b
  {
    assert [a, b][..1] == [a];
  }

  lemma StripOneSpace(s: string)
    requires s != [] && !IsSpace(s[0]) && !IsSpace(s[|s| - 1])
    ensures Strip(" " + s) == s
  {
    var t := " " + s;
    assert t[1..] == s;
    assert LeadingSpaces(t) == 1;
    assert TrailingSpaces(t) == 0;
    assert t[1..|t|] == s;
  }

  lemma {:induction false} JoinLength(pieces: seq<string>, sep: char)
    requires |pieces| >= 1
    ensures |Join(pieces, sep)| >= |pieces[|pieces| - 1]|
    ensures |pieces| > 1 ==> |Join(pieces, sep)| > 0
  {
  }

  lemma SampleJoin()
    ensures Join(["a", " b", ""], ',') == "a, b,"
  {
    assert ["a", " b", ""][..2] == ["a", " b"];
    assert ["a", " b"][..1] == ["a"];
  }

  lemma SampleStrip()
    ensures Strip("a") == "a" && Strip(" b") == "b" && Strip("") == ""
  {
    StripClean("a");
    assert LeadingSpaces(" b") == 1;
    assert TrailingSpaces(" b") == 0;
  }

  /** Blank pieces and the whitespace around commas are dropped. */
  lemma SplitCsvExample()
    ensures SplitCsv(Some("a, b,")) == ["a", "b"]
  {
    var pieces := ["a", " b", ""];
    SampleJoin();
    SplitJoin(pieces, ',');
    SampleStrip();
    assert pieces[..2] == ["a", " b"] && pieces[..2][..1] == ["a"] && pieces[..1][..0] == [];
    assert CleanPieces(["a"]) == ["a"];
    assert CleanPieces(["a", " b"]) == ["a", "b"];
    assert CleanPieces(pieces) == ["a", "b"];
  }

  // ---------------------------------------------------------------------------
  // Settings

  /** `os.getenv(name, default)`: the value when the variable is set, even to "". */
  function GetEnv(env: map<string, string>, name: string, default: string): (v: string)
    ensures name in env ==> v == env[name]
    ensures name !in env ==> v == default
  {
    if name in env then env[name] else default
  }

  function LowerChar(c: char): char {
    if 'A' <= c <= 'Z' then (c as int + 32) as char else c
  }

  /** `str.lower()` on the letters A to Z; no other character lowers into "true". */
  function Lower(s: string): (r: string)
    ensures |r| == |s|
    ensures forall i :: 0 <= i < |s| ==> r[i] == LowerChar(s[i])
  {
    if |s| == 0 then [] else Lower(s[..|s| - 1]) + [LowerChar(s[|s| - 1])]
  }

  /** The settings the API reads; the integer-valued ones are not part of this model. */
  datatype SettingsValues = SettingsValues(
    mysqlHost: string,
    mysqlUser: string,
    mysqlPassword: string,
    mysqlDatabase: string,
    jwtSecret: string,
    jwtAlgorithm: string,
    corsOrigins: seq<string>,
    corsAllowCredentials: bool,
    bootstrapAdminUsername: string,
    bootstrapAdminPassword: Option<string>,
    bootstrapAdminEnabled: bool)

  datatype ConfigError = MissingJwtSecret

  /** The value of CORS_ALLOW_CREDENTIALS reads as true: "true" in any mix of letter case. */
  predicate SaysTrue(value: string) {
    Lower(value) == "true"
  }

  /**
   * Building the settings from the environment: an error when JWT_SECRET is
   * missing or empty; otherwise the read values and the derived fields.
   */
  function LoadSettings(env: map<string, string>): (r: Result<SettingsValues, ConfigError>)
    ensures r.Failure? <==> GetEnv(env, "JWT_SECRET", "") == ""
    ensures r.Success? ==> r.value.jwtSecret != "" && r.value.jwtSecret == env["JWT_SECRET"]
    ensures r.Success? ==> r.value.corsOrigins == SplitCsv(if "CORS_ORIGINS" in env then Some(env["CORS_ORIGINS"]) else None)
    ensures r.Success? ==> (r.value.corsAllowCredentials <==>
      SaysTrue(GetEnv(env, "CORS_ALLOW_CREDENTIALS", "false")) && r.value.corsOrigins != [])
    ensures r.Success? ==> (r.value.bootstrapAdminEnabled <==> "BOOTSTRAP_ADMIN_PASSWORD" in env && env["BOOTSTRAP_ADMIN_PASSWORD"] != "")
    ensures r.Success? ==> (r.value.bootstrapAdminPassword.None? <==> !r.value.bootstrapAdminEnabled)
    ensures r.Success? && r.value.bootstrapAdminEnabled ==> r.value.bootstrapAdminPassword == Some(env["BOOTSTRAP_ADMIN_PASSWORD"])
  {
    var jwtSecret := GetEnv(env, "JWT_SECRET", "");
    if jwtSecret == "" then Failure(MissingJwtSecret)
    else
      var origins := SplitCsv(if "CORS_ORIGINS" in env then Some(env["CORS_ORIGINS"]) else None);
      var allowCredentials := SaysTrue(GetEnv(env, "CORS_ALLOW_CREDENTIALS", "false"));
      var password := if "BOOTSTRAP_ADMIN_PASSWORD" in env then env["BOOTSTRAP_ADMIN_PASSWORD"] else "";
      Success(SettingsValues(
        GetEnv(env, "MYSQL_HOST", "localhost"), GetEnv(env, "MYSQL_USER", "root"),
        GetEnv(env, "MYSQL_PASSWORD", ""), GetEnv(env, "MYSQL_DATABASE", "avlv_quotes"),
        jwtSecret, GetEnv(env, "JWT_ALGORITHM", "HS256"),
        origins, if origins == [] then false else allowCredentials,
        GetEnv(env, "BOOTSTRAP_ADMIN_USERNAME", "admin"),
        if password != "" then Some(password) else None, password != ""))
  }

  /** Credentials are never allowed without an origin list, whatever the flag says. */
  lemma NoCredentialsWithoutOrigins(env: map<string, string>)
    requires "JWT_SECRET" in env && env["JWT_SECRET"] != ""
    requires "CORS_ORIGINS" !in env
    ensures LoadSettings(env).Success? && !LoadSettings(env).value.corsAllowCredentials
  {
  }

  /** "TRUE" and "True" read as true; "yes" and "1" do not. */
  lemma CredentialFlagSpellings()
    ensures SaysTrue("TRUE") && SaysTrue("True")
    ensures !SaysTrue("yes") && !SaysTrue("1")
  {
    assert Lower("TRUE") == "true" by {
      assert Lower("TRUE") == Lower("TRU") + ['e'];
      assert Lower("TRU") == Lower("TR") + ['u'];
      assert Lower("TR") == Lower("T") + ['r'];
    }
    assert Lower("True") == "true" by {
      assert Lower("True") == Lower("Tru") + ['e'];
      assert Lower("Tru") == Lower("Tr") + ['u'];
      assert Lower("Tr") == Lower("T") + ['r'];
    }
  }

  /** The settings object every caller shares. */
  class Settings {
    const values: SettingsValues

    constructor(values: SettingsValues)
      ensures this.values == values
    {
      this.values := values;
    }
  }

  /**
   * `get_settings` and the module-global it caches in: the first successful
   * call builds the settings; every later call returns that same object.
   */
  class SettingsCache {
    var cached: Settings?

    constructor()
      ensures cached == null
    {
      cached := null;
    }

    method GetSettings(env: map<string, string>) returns (r: Result<Settings, ConfigError>)
      modifies this
      ensures old(cached) != null ==> r == Success(old(cached)) && cached == old(cached)
      ensures old(cached) == null && LoadSettings(env).Failure? ==>
        r == Failure(LoadSettings(env).error) && cached == null
      ensures old(cached) == null && LoadSettings(env).Success? ==>
        && r.Success? && fresh(r.value) && r.value.values == LoadSettings(env).value && cached == r.value
    {
      if cached == null {
        var loaded := LoadSettings(env);
        if loaded.Failure? {
          return Failure(loaded.error);
        }
        cached := new Settings(loaded.value);
      }
      return Success(cached);
    }
  }
}
