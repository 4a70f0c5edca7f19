/** The text rendering of a crate graph: an object holding two arrays, `roots` and
    `crates`, one entry field per line with two-space indentation. The text is
    modelled as its list of lines; `WriteCrates` ends every line with a newline. */
module CrateJson {
  import opened Paths

  /** One edge of the crate graph: the id of the crate depended on and the name
      under which the depending crate refers to it. */
  datatype Dependency = Dependency(crateId: nat, name: string)

  /** One crate as a crate list holds it: root module, id, display label, the
      dependencies and configuration items in the order they were added, edition. */
  datatype CrateInfo = CrateInfo(
    root: SourceFile,
    index: nat,
    crateLabel: string,
    deps: seq<Dependency>,
    edition: string,
    configs: seq<string>)

  function DigitChar(d: nat): (c: char)
    requires d < 10
    ensures c as int == '0' as int + d
  {
    "0123456789"[d]
  }

  /** Decimal text of a number, as an output stream writes an unsigned integer. */
  function Decimal(n: nat): (s: string)
    ensures |s| >= 1
    ensures forall i :: 0 <= i < |s| ==> '0' <= s[i] <= '9'
  {
    if n < 10 then [DigitChar(n)] else Decimal(n / 10) + [DigitChar(n % 10)]
  }

  /** The number a string of decimal digits denotes. */
  function DecimalValue(s: string): nat
  {
    if s == [] then 0
    else 10 * DecimalValue(s[..|s| - 1]) + (if '0' <= s[|s| - 1] <= '9' then (s[|s| - 1] as int - '0' as int) else 0)
  }

  /** A string value between double quotes, written verbatim: nothing is escaped. */
  function Quoted(s: string): string
  {
    "\"" + s + "\""
  }

  /** The directory part of a path: everything up to and including its last '/'.
      It is a prefix of the path that is empty or ends in '/', and the rest of
      the path, its last component, holds no '/'. */
  function DirName(p: string): (d: string)
    ensures |d| <= |p| && d == p[..|d|]
    ensures d == [] || d[|d| - 1] == '/'
    ensures forall i :: |d| <= i < |p| ==> p[i] != '/'
  {
    if p == [] then ""
    else if p[|p| - 1] == '/' then p
    else DirName(p[..|p| - 1])
  }

  /** What follows entry `k` of an array of `n` entries: a comma, except after the last. */
  function Sep(k: nat, n: nat): string
  {
    if k + 1 < n then "," else ""
  }

  /** The lines of several entries, one entry after another. */
  function Flatten(entries: seq<seq<string>>): seq<string>
  {
    if entries == [] then [] else entries[0] + Flatten(entries[1..])
  }

  /** `"key": [`, the lines of the entries, and the closing line at the same indentation. */
  function ArrayLines(indent: string, key: string, entries: seq<string>, close: string): seq<string>
  {
    [indent + Quoted(key) + ": ["] + entries + [indent + close]
  }

  function RootLines(cs: seq<CrateInfo>): seq<string>
  {
    seq(|cs|, k requires 0 <= k < |cs| => "    " + Quoted(DirName(cs[k].root)) + Sep(k, |cs|))
  }

  function DepLines(d: Dependency, sep: string): seq<string>
  {
    [ "        {",
      "          \"crate\": " + Decimal(d.crateId) + ",",
      "          \"name\": " + Quoted(d.name),
      "        }" + sep ]
  }

  function DepObjects(ds: seq<Dependency>): seq<seq<string>>
  {
    seq(|ds|, k requires 0 <= k < |ds| => DepLines(ds[k], Sep(k, |ds|)))
  }

  function DepsLines(ds: seq<Dependency>): seq<string>
  {
    Flatten(DepObjects(ds))
  }

  function CfgLines(cfg: seq<string>): seq<string>
  {
    seq(|cfg|, k requires 0 <= k < |cfg| => "        " + Quoted(cfg[k]) + Sep(k, |cfg|))
  }

  /** The object of one crate; its fields in the order crate_id, root_module, label,
      deps, edition, cfg. */
  function CrateObjectLines(c: CrateInfo, sep: string): seq<string>
  {
    [ "    {",
      "      \"crate_id\": " + Decimal(c.index) + ",",
      "      \"root_module\": " + Quoted(c.root) + ",",
      "      \"label\": " + Quoted(c.crateLabel) + "," ]
    + ArrayLines("      ", "deps", DepsLines(c.deps), "],")
    + [ "      \"edition\": " + Quoted(c.edition) + "," ]
    + ArrayLines("      ", "cfg", CfgLines(c.configs), "]")
    + [ "    }" + sep ]
  }

  function CrateObjects(cs: seq<CrateInfo>): seq<seq<string>>
  {
    seq(|cs|, k requires 0 <= k < |cs| => CrateObjectLines(cs[k], Sep(k, |cs|)))
  }

  function CratesLines(cs: seq<CrateInfo>): seq<string>
  {
    Flatten(CrateObjects(cs))
  }

  /** The whole document, line by line: `roots` first, then `crates`. */
  function CrateLines(cs: seq<CrateInfo>): seq<string>
  {
    ["{"]
    + ArrayLines("  ", "roots", RootLines(cs), "],")
    + ArrayLines("  ", "crates", CratesLines(cs), "]")
    + ["}"]
  }

  /** Each line followed by a newline. */
  function Unlines(lines: seq<string>): string
  {
    if lines == [] then "" else lines[0] + "\n" + Unlines(lines[1..])
  }

  /** The text WriteCrates puts on its stream for a crate list. */
  function WriteCrates(cs: seq<CrateInfo>): string
  {
    Unlines(CrateLines(cs))
  }

  lemma TwoCrates(tortoise: CrateInfo, hare: CrateInfo)
    requires tortoise == CrateInfo("tortoise/lib.rs", 0, "//tortoise:bar", [], "2015", [])
    requires hare == CrateInfo("hare/lib.rs", 1, "//hare:bar", [Dependency(0, "tortoise")], "2015", ["unix", "feature=\\\"test\\\""])
    ensures CrateLines([tortoise, hare]) == [
        "{",
        "  \"roots\": [",
        "    \"tortoise/\",",
        "    \"hare/\"",
        "  ],",
        "  \"crates\": [",
        "    {",
        "      \"crate_id\": 0,",
        "      \"root_module\": \"tortoise/lib.rs\",",
        "      \"label\": \"//tortoise:bar\",",
        "      \"deps\": [",
        "      ],",
        "      \"edition\": \"2015\",",
        "      \"cfg\": [",
        "      ]",
        "    },",
        "    {",
        "      \"crate_id\": 1,",
        "      \"root_module\": \"hare/lib.rs\",",
        "      \"label\": \"//hare:bar\",",
        "      \"deps\": [",
        "        {",
        "          \"crate\": 0,",
        "          \"name\": \"tortoise\"",
        "        }",
        "      ],",
        "      \"edition\": \"2015\",",
        "      \"cfg\": [",
        "        \"unix\",",
        "        \"feature=\\\"test\\\"\"",
        "      ]",
        "    }",
        "  ]",
        "}"
      ]
  {
    DocumentSegments([tortoise, hare]);
    TwoRoots(tortoise, hare);
    TwoCrateObjects(tortoise, hare);
    TortoiseObject(tortoise);
    HareObject(hare);
    TwoObjectsLines(CrateObjectLines(tortoise, ","), CrateObjectLines(hare, ""));
    TwoCratesDocument(RootLines([tortoise, hare]), CratesLines([tortoise, hare]));
  }

  lemma TwoCratesDocument(roots: seq<string>, objects: seq<string>)
    requires roots == [
        "    \"tortoise/\",",
        "    \"hare/\""
      ]
    requires objects == [
        "    {",
        "      \"crate_id\": 0,",
        "      \"root_module\": \"tortoise/lib.rs\",",
        "      \"label\": \"//tortoise:bar\",",
        "      \"deps\": [",
        "      ],",
        "      \"edition\": \"2015\",",
        "      \"cfg\": [",
        "      ]",
        "    },",
        "    {",
        "      \"crate_id\": 1,",
        "      \"root_module\": \"hare/lib.rs\",",
        "      \"label\": \"//hare:bar\",",
        "      \"deps\": [",
        "        {",
        "          \"crate\": 0,",
        "          \"name\": \"tortoise\"",
        "        }",
        "      ],",
        "      \"edition\": \"2015\",",
        "      \"cfg\": [",
        "        \"unix\",",
        "        \"feature=\\\"test\\\"\"",
        "      ]",
        "    }"
      ]
    ensures ["{", "  \"roots\": ["] + roots + ["  ],", "  \"crates\": ["] + objects + ["  ]", "}"]
         == [
        "{",
        "  \"roots\": [",
        "    \"tortoise/\",",
        "    \"hare/\"",
        "  ],",
        "  \"crates\": [",
        "    {",
        "      \"crate_id\": 0,",
        "      \"root_module\": \"tortoise/lib.rs\",",
        "      \"label\": \"//tortoise:bar\",",
        "      \"deps\": [",
        "      ],",
        "      \"edition\": \"2015\",",
        "      \"cfg\": [",
        "      ]",
        "    },",
        "    {",
        "      \"crate_id\": 1,",
        "      \"root_module\": \"hare/lib.rs\",",
        "      \"label\": \"//hare:bar\",",
        "      \"deps\": [",
        "        {",
        "          \"crate\": 0,",
        "          \"name\": \"tortoise\"",
        "        }",
        "      ],",
        "      \"edition\": \"2015\",",
        "      \"cfg\": [",
        "        \"unix\",",
        "        \"feature=\\\"test\\\"\"",
        "      ]",
        "    }",
        "  ]",
        "}"
      ]
  {
  }

  lemma TwoObjectsLines(first: seq<string>, second: seq<string>)
    requires first == [
        "    {",
        "      \"crate_id\": 0,",
        "      \"root_module\": \"tortoise/lib.rs\",",
        "      \"label\": \"//tortoise:bar\",",
        "      \"deps\": [",
        "      ],",
        "      \"edition\": \"2015\",",
        "      \"cfg\": [",
        "      ]",
        "    },"
      ]
    requires second == [
        "    {",
        "      \"crate_id\": 1,",
        "      \"root_module\": \"hare/lib.rs\",",
        "      \"label\": \"//hare:bar\",",
        "      \"deps\": [",
        "        {",
        "          \"crate\": 0,",
        "          \"name\": \"tortoise\"",
        "        }",
        "      ],",
        "      \"edition\": \"2015\",",
        "      \"cfg\": [",
        "        \"unix\",",
        "        \"feature=\\\"test\\\"\"",
        "      ]",
        "    }"
      ]
    ensures first + second == [
        "    {",
        "      \"crate_id\": 0,",
        "      \"root_module\": \"tortoise/lib.rs\",",
        "      \"label\": \"//tortoise:bar\",",
        "      \"deps\": [",
        "      ],",
        "      \"edition\": \"2015\",",
        "      \"cfg\": [",
        "      ]",
        "    },",
        "    {",
        "      \"crate_id\": 1,",
        "      \"root_module\": \"hare/lib.rs\",",
        "      \"label\": \"//hare:bar\",",
        "      \"deps\": [",
        "        {",
        "          \"crate\": 0,",
        "          \"name\": \"tortoise\"",
        "        }",
        "      ],",
        "      \"edition\": \"2015\",",
        "      \"cfg\": [",
        "        \"unix\",",
        "        \"feature=\\\"test\\\"\"",
        "      ]",
        "    }"
      ]
  {
  }

  /** Two crates render as the first object, with a separating comma, then the second. */
  lemma TwoCrateObjects(first: CrateInfo, second: CrateInfo)
    ensures CratesLines([first, second]) == CrateObjectLines(first, ",") + CrateObjectLines(second, "")
  {
    var objs := CrateObjects([first, second]);
    assert objs == [CrateObjectLines(first, ","), CrateObjectLines(second, "")];
    FlattenTwo(objs[0], objs[1]);
  }

  lemma TwoRoots(tortoise: CrateInfo, hare: CrateInfo)
    requires tortoise == CrateInfo("tortoise/lib.rs", 0, "//tortoise:bar", [], "2015", [])
    requires hare == CrateInfo("hare/lib.rs", 1, "//hare:bar", [Dependency(0, "tortoise")], "2015", ["unix", "feature=\\\"test\\\""])
    ensures RootLines([tortoise, hare]) == [
        "    \"tortoise/\",",
        "    \"hare/\""
      ]
  {
    var cs := [tortoise, hare];
    assert cs[0].root == "tortoise/" + "lib.rs";
    assert cs[1].root == "hare/" + "lib.rs";
    RootInDirectory(cs, 0, "tortoise/", "lib.rs");
    RootInDirectory(cs, 1, "hare/", "lib.rs");
    assert RootLines(cs)[0] == "    \"tortoise/\",";
    assert RootLines(cs)[1] == "    \"hare/\"";
  }

  /** A crate whose root module is a file directly in `dir` has `dir` as its root. */
  lemma RootInDirectory(cs: seq<CrateInfo>, k: nat, dir: string, file: string)
    requires k < |cs| && cs[k].root == dir + file
    requires dir == [] || dir[|dir| - 1] == '/'
    requires forall i :: 0 <= i < |file| ==> file[i] != '/'
    ensures RootLines(cs)[k] == "    " + Quoted(dir) + Sep(k, |cs|)
  {
    DirNameOfFile(dir, file);
  }

  lemma TortoiseObject(tortoise: CrateInfo)
    requires tortoise == CrateInfo("tortoise/lib.rs", 0, "//tortoise:bar", [], "2015", [])
    ensures CrateObjectLines(tortoise, ",") == [
        "    {",
        "      \"crate_id\": 0,",
        "      \"root_module\": \"tortoise/lib.rs\",",
        "      \"label\": \"//tortoise:bar\",",
        "      \"deps\": [",
        "      ],",
        "      \"edition\": \"2015\",",
        "      \"cfg\": [",
        "      ]",
        "    },"
      ]
  {
    CrateObjectSegments(tortoise, ",");
    assert Decimal(0) == "0";
    assert DepsLines([]) == [];
    assert CfgLines([]) == [];
    TortoiseFields();
  }

  lemma TortoiseFields()
    ensures "      \"crate_id\": " + "0" + "," == "      \"crate_id\": 0,"
    ensures "      \"root_module\": \"" + "tortoise/lib.rs" + "\"," == "      \"root_module\": \"tortoise/lib.rs\","
    ensures "      \"label\": \"" + "//tortoise:bar" + "\"," == "      \"label\": \"//tortoise:bar\","
    ensures "      \"edition\": \"" + "2015" + "\"," == "      \"edition\": \"2015\","
    ensures "    }" + "," == "    },"
  {
  }

  lemma HareObject(hare: CrateInfo)
    requires hare == CrateInfo("hare/lib.rs", 1, "//hare:bar", [Dependency(0, "tortoise")], "2015", ["unix", "feature=\\\"test\\\""])
    ensures CrateObjectLines(hare, "") == [
        "    {",
        "      \"crate_id\": 1,",
        "      \"root_module\": \"hare/lib.rs\",",
        "      \"label\": \"//hare:bar\",",
        "      \"deps\": [",
        "        {",
        "          \"crate\": 0,",
        "          \"name\": \"tortoise\"",
        "        }",
        "      ],",
        "      \"edition\": \"2015\",",
        "      \"cfg\": [",
        "        \"unix\",",
        "        \"feature=\\\"test\\\"\"",
        "      ]",
        "    }"
      ]
  {
    CrateObjectSegments(hare, "");
    assert Decimal(1) == "1";
    HareFields();
    HareDeps(hare.deps);
    HareCfg(hare.configs);
  }

  lemma HareFields()
    ensures "      \"crate_id\": " + "1" + "," == "      \"crate_id\": 1,"
    ensures "      \"root_module\": \"" + "hare/lib.rs" + "\"," == "      \"root_module\": \"hare/lib.rs\","
    ensures "      \"label\": \"" + "//hare:bar" + "\"," == "      \"label\": \"//hare:bar\","
    ensures "      \"edition\": \"" + "2015" + "\"," == "      \"edition\": \"2015\","
    ensures "    }" + "" == "    }"
  {
  }

  lemma HareDeps(deps: seq<Dependency>)
    requires deps == [Dependency(0, "tortoise")]
    ensures DepsLines(deps) == [
        "        {",
        "          \"crate\": 0,",
        "          \"name\": \"tortoise\"",
        "        }"
      ]
  {
    assert Decimal(0) == "0";
    assert "          \"crate\": " + "0" + "," == "          \"crate\": 0,";
    assert "          \"name\": " + Quoted("tortoise") == "          \"name\": \"tortoise\"";
    assert "        }" + "" == "        }";
    DepsLinesOne(deps[0]);
  }

  lemma HareCfg(cfg: seq<string>)
    requires cfg == ["unix", "feature=\\\"test\\\""]
    ensures CfgLines(cfg) == [
        "        \"unix\",",
        "        \"feature=\\\"test\\\"\""
      ]
  {
    assert "        " + Quoted("unix") + "," == "        \"unix\",";
    assert "        " + Quoted("feature=\\\"test\\\"") + "" == "        \"feature=\\\"test\\\"\"";
  }

  lemma DepsLinesOne(d: Dependency)
    ensures DepsLines([d]) == DepLines(d, "")
  {
    var objs := DepObjects([d]);
    assert objs == [DepLines(d, "")];
    assert Flatten(objs) == objs[0] + Flatten(objs[1..]);
    assert objs[1..] == [];
    assert Flatten(objs[1..]) == [];
    assert DepLines(d, "") + [] == DepLines(d, "");
  }

  lemma FlattenTwo(a: seq<string>, b: seq<string>)
    ensures Flatten([a, b]) == a + b
  {
    assert [a, b][1..] == [b];
    assert [b][1..] == [];
    assert Flatten([b]) == b + Flatten([]);
    assert b + [] == b;
  }

  lemma DirNameOfFile(dir: string, file: string)
    requires dir == [] || dir[|dir| - 1] == '/'
    requires forall i :: 0 <= i < |file| ==> file[i] != '/'
    ensures DirName(dir + file) == dir
  {
    if file != [] {
      assert (dir + file)[..|dir + file| - 1] == dir + file[..|file| - 1];
      DirNameOfFile(dir, file[..|file| - 1]);
    } else {
      assert dir + file == dir;
    }
  }

  // ---------------------------------------------------------------------------
  // Properties of the rendering for every crate list

  /** Reading back the decimal text of a number gives the number. */
  lemma {:induction false} DecimalRoundTrip(n: nat)
    ensures DecimalValue(Decimal(n)) == n
  {
    if n >= 10 {
      DecimalRoundTrip(n / 10);
      var s := Decimal(n);
      assert s[..|s| - 1] == Decimal(n / 10);
    }
  }

  /** Distinct crate ids are written as distinct texts. */
  lemma DecimalInjective(m: nat, n: nat)
    ensures Decimal(m) == Decimal(n) ==> m == n
  {
    DecimalRoundTrip(m);
    DecimalRoundTrip(n);
  }

  /** The entries' lines appear in entry order: those of entry `k` come after
      those of every earlier entry and before those of every later one. */
  lemma {:induction false} FlattenSplit(entries: seq<seq<string>>, k: nat)
    requires k < |entries|
    ensures Flatten(entries) == Flatten(entries[..k]) + entries[k] + Flatten(entries[k + 1..])
  {
    if k == 0 {
      assert entries[..0] == [];
    } else {
      FlattenSplit(entries[1..], k - 1);
      assert entries[1..][..k - 1] == entries[1..k];
      assert entries[1..][k - 1 + 1..] == entries[k + 1..];
      assert entries[..k] == [entries[0]] + entries[1..k];
      assert Flatten(entries[..k]) == entries[0] + Flatten(entries[..k][1..]);
      assert entries[..k][1..] == entries[1..k];
    }
  }

  /** When every entry has `m` lines, entry `k` occupies lines `k*m` to `k*m + m`. */
  lemma FlattenUniform(entries: seq<seq<string>>, m: nat, k: nat)
    requires forall j :: 0 <= j < |entries| ==> |entries[j]| == m
    requires k < |entries|
    ensures |Flatten(entries)| == m * |entries|
    ensures k * m + m <= |Flatten(entries)| && Flatten(entries)[k * m .. k * m + m] == entries[k]
  {
    FlattenLength(entries, m);
    FlattenSplit(entries, k);
    var before := entries[..k];
    assert forall j :: 0 <= j < |before| ==> |before[j]| == m;
    FlattenLength(before, m);
    var pre := Flatten(before);
    assert |pre| == k * m by { assert |pre| == m * k; }
    var rest := Flatten(entries[k + 1..]);
    assert Flatten(entries) == pre + entries[k] + rest;
    var whole := pre + entries[k] + rest;
    assert whole[|pre| .. |pre| + m] == entries[k];
    assert Flatten(entries)[k * m .. k * m + m] == whole[|pre| .. |pre| + m];
  }

  lemma {:induction false} FlattenLength(entries: seq<seq<string>>, m: nat)
    requires forall j :: 0 <= j < |entries| ==> |entries[j]| == m
    ensures |Flatten(entries)| == m * |entries|
  {
    if entries != [] {
      FlattenLength(entries[1..], m);
    }
  }

  /** Dependency `k` is rendered as lines `4k` to `4k + 4` of the deps array:
      the edges come out in the order they were added. */
  lemma DepsInOrder(ds: seq<Dependency>, k: nat)
    requires k < |ds|
    ensures |DepsLines(ds)| == 4 * |ds|
    ensures DepsLines(ds)[4 * k .. 4 * k + 4] == [
      "        {",
      "          \"crate\": " + Decimal(ds[k].crateId) + ",",
      "          \"name\": \"" + ds[k].name + "\"",
      "        }" + (if k + 1 < |ds| then "," else "")]
  {
    FlattenUniform(DepObjects(ds), 4, k);
    assert 4 * k == k * 4;
    var d := ds[k];
    assert "          \"name\": " + Quoted(d.name) == "          \"name\": \"" + d.name + "\"";
  }

  /** The lines of crate `k` follow those of the crates before it and precede
      those of the crates after it. */
  lemma CratesInOrder(cs: seq<CrateInfo>, k: nat)
    requires k < |cs|
    ensures CratesLines(cs) == Flatten(CrateObjects(cs)[..k])
                               + CrateObjectLines(cs[k], Sep(k, |cs|))
                               + Flatten(CrateObjects(cs)[k + 1..])
  {
    FlattenSplit(CrateObjects(cs), k);
  }

  /** A crate object has 10 lines, plus 4 per dependency and 1 per configuration
      item; its fields come in the order crate_id, root_module, label, deps,
      edition, cfg, with an empty array written as its opening and closing lines. */
  lemma CrateObjectLayout(c: CrateInfo, sep: string)
    ensures var L := CrateObjectLines(c, sep);
      var d := 4 * |c.deps|;
      var n := |c.configs|;
      |L| == 10 + d + n &&
      L[0] == "    {" &&
      L[1] == "      \"crate_id\": " + Decimal(c.index) + "," &&
      L[2] == "      \"root_module\": \"" + c.root + "\"," &&
      L[3] == "      \"label\": \"" + c.crateLabel + "\"," &&
      L[4] == "      \"deps\": [" &&
      L[5 .. 5 + d] == DepsLines(c.deps) &&
      L[5 + d] == "      ]," &&
      L[6 + d] == "      \"edition\": \"" + c.edition + "\"," &&
      L[7 + d] == "      \"cfg\": [" &&
      L[8 + d .. 8 + d + n] == CfgLines(c.configs) &&
      L[8 + d + n] == "      ]" &&
      L[9 + d + n] == "    }" + sep
  {
    CrateObjectFront(c, sep);
    CrateObjectBack(c, sep);
  }

  /** The crate object as its five segments. */
  lemma CrateObjectSegments(c: CrateInfo, sep: string)
    ensures var head := [
        "    {",
        "      \"crate_id\": " + Decimal(c.index) + ",",
        "      \"root_module\": \"" + c.root + "\",",
        "      \"label\": \"" + c.crateLabel + "\"," ];
      var depsArray := ["      \"deps\": ["] + DepsLines(c.deps) + ["      ],"];
      var mid := [ "      \"edition\": \"" + c.edition + "\"," ];
      var cfgArray := ["      \"cfg\": ["] + CfgLines(c.configs) + ["      ]"];
      CrateObjectLines(c, sep) == head + depsArray + mid + cfgArray + ["    }" + sep]
  {
    FieldLines(c);
    ArrayLinesShape("      ", "deps", DepsLines(c.deps), "],");
    ArrayLinesShape("      ", "cfg", CfgLines(c.configs), "]");
    assert "      " + ("\"" + "deps" + "\": [") == "      \"deps\": [";
    assert "      " + ("\"" + "cfg" + "\": [") == "      \"cfg\": [";
    assert "      " + "]," == "      ],";
    assert "      " + "]" == "      ]";
  }

  lemma CrateObjectFront(c: CrateInfo, sep: string)
    ensures var L := CrateObjectLines(c, sep);
      var d := 4 * |c.deps|;
      |L| == 10 + d + |c.configs| &&
      L[0] == "    {" &&
      L[1] == "      \"crate_id\": " + Decimal(c.index) + "," &&
      L[2] == "      \"root_module\": \"" + c.root + "\"," &&
      L[3] == "      \"label\": \"" + c.crateLabel + "\"," &&
      L[4] == "      \"deps\": [" &&
      L[5 .. 5 + d] == DepsLines(c.deps) &&
      L[5 + d] == "      ],"
  {
    FlattenLength(DepObjects(c.deps), 4);
    CrateObjectSegments(c, sep);
  }

  lemma CrateObjectBack(c: CrateInfo, sep: string)
    ensures var L := CrateObjectLines(c, sep);
      var d := 4 * |c.deps|;
      var n := |c.configs|;
      |L| == 10 + d + n &&
      L[6 + d] == "      \"edition\": \"" + c.edition + "\"," &&
      L[7 + d] == "      \"cfg\": [" &&
      L[8 + d .. 8 + d + n] == CfgLines(c.configs) &&
      L[8 + d + n] == "      ]" &&
      L[9 + d + n] == "    }" + sep
  {
    FlattenLength(DepObjects(c.deps), 4);
    CrateObjectSegments(c, sep);
    var L := CrateObjectLines(c, sep);
    var front := L[..6 + 4 * |c.deps|];
    assert L == front + L[6 + 4 * |c.deps|..];
  }

  lemma FieldLines(c: CrateInfo)
    ensures "      \"root_module\": " + Quoted(c.root) + "," == "      \"root_module\": \"" + c.root + "\","
    ensures "      \"label\": " + Quoted(c.crateLabel) + "," == "      \"label\": \"" + c.crateLabel + "\","
    ensures "      \"edition\": " + Quoted(c.edition) + "," == "      \"edition\": \"" + c.edition + "\","
  {
  }

  lemma ArrayLinesShape(indent: string, key: string, entries: seq<string>, close: string)
    ensures ArrayLines(indent, key, entries, close) == [indent + ("\"" + key + "\": [")] + entries + [indent + close]
  {
    assert indent + Quoted(key) + ": [" == indent + ("\"" + key + "\": [");
  }

  /** Configuration items are written verbatim, in the order they were added,
      with a comma after every item but the last. */
  lemma CfgInOrder(cfg: seq<string>, k: nat)
    requires k < |cfg|
    ensures |CfgLines(cfg)| == |cfg|
    ensures CfgLines(cfg)[k] == "        \"" + cfg[k] + "\"" + (if k + 1 < |cfg| then "," else "")
  {
  }

  /** The document is `{`, the roots array with one line per crate in list
      order, the crates array, and `}`. */
  lemma DocumentLayout(cs: seq<CrateInfo>)
    ensures var L := CrateLines(cs);
      var n := |cs|;
      var m := |CratesLines(cs)|;
      |L| == n + m + 6 &&
      L[0] == "{" &&
      L[1] == "  \"roots\": [" &&
      L[2 .. 2 + n] == RootLines(cs) &&
      L[2 + n] == "  ]," &&
      L[3 + n] == "  \"crates\": [" &&
      L[4 + n .. 4 + n + m] == CratesLines(cs) &&
      L[4 + n + m] == "  ]" &&
      L[5 + n + m] == "}"
  {
    DocumentSegments(cs);
  }

  /** The document as its segments. */
  lemma DocumentSegments(cs: seq<CrateInfo>)
    ensures CrateLines(cs) == ["{", "  \"roots\": ["] + RootLines(cs) + ["  ],", "  \"crates\": ["]
                              + CratesLines(cs) + ["  ]", "}"]
  {
    var roots := RootLines(cs);
    var crates := CratesLines(cs);
    ArrayLinesShape("  ", "roots", roots, "],");
    ArrayLinesShape("  ", "crates", crates, "]");
    DocumentKeys();
    WrapTwo("{", "  \"roots\": [", roots, "  ],", "  \"crates\": [", crates, "  ]", "}");
  }

  lemma DocumentKeys()
    ensures "  " + ("\"" + "roots" + "\": [") == "  \"roots\": ["
    ensures "  " + ("\"" + "crates" + "\": [") == "  \"crates\": ["
    ensures "  " + "]," == "  ],"
    ensures "  " + "]" == "  ]"
  {
  }

  lemma WrapTwo<T>(open: T, open1: T, a: seq<T>, close1: T, open2: T, b: seq<T>, close2: T, close: T)
    ensures [open] + ([open1] + a + [close1]) + ([open2] + b + [close2]) + [close]
         == [open, open1] + a + [close1, open2] + b + [close2, close]
  {
  }

  /** Root `k` is the directory of crate `k`'s root module, with its trailing
      slash, followed by a comma unless it is the last root. */
  lemma RootOfCrate(cs: seq<CrateInfo>, k: nat)
    requires k < |cs|
    ensures var r := RootLines(cs)[k];
      var d := DirName(cs[k].root);
      r == "    \"" + d + "\"" + (if k + 1 < |cs| then "," else "") &&
      |d| <= |cs[k].root| && d == cs[k].root[..|d|] && (d == [] || d[|d| - 1] == '/') &&
      forall i :: |d| <= i < |cs[k].root| ==> cs[k].root[i] != '/'
  {
  }
}
