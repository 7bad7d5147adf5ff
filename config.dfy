/**
 * Configuration (src/config.rs): the defaults the TOML file may leave out,
 * `~/` expansion of the config path, and the first-run layout of the memory
 * directory, whose files are written only where none exists yet.
 *
 * The home directory is a parameter; the file system is a `Disk` holding
 * files and directories by absolute path.
 */
module Config {
  import opened Wrappers
  import opened Text

  // ------------------------------------------------------------ defaults

  const DefaultMaxTokens: nat := 8192
  const DefaultApiBind: string := "127.0.0.1:3000"
  const DefaultMcpBind: string := "127.0.0.1:3001"

  datatype ApiConfig = ApiConfig(bind: string)
  datatype McpConfig = McpConfig(enabled: bool, bind: string)
  datatype MemoryConfig = MemoryConfig(baseDir: string)

  /** `ApiConfig::default()`. */
  function DefaultApi(): (c: ApiConfig)
    ensures c.bind == "127.0.0.1:3000"
  {
    ApiConfig(DefaultApiBind)
  }

  /** `McpConfig::default()`: the endpoint is off unless configured. */
  function DefaultMcp(): (c: McpConfig)
    ensures !c.enabled && c.bind == "127.0.0.1:3001"
  {
    McpConfig(false, DefaultMcpBind)
  }

  /** `default_base_dir()`: `.1koro` under the home directory, or under "." without one. */
  function DefaultBaseDir(home: Option<string>): (r: string)
    ensures home.Some? && home.value != [] && home.value[|home.value| - 1] != '/' ==> r == home.value + "/.1koro"
    ensures home.None? ==> r == "./.1koro"
  {
    PathJoin(home.GetOr("."), ".1koro")
  }

  function DefaultMemory(home: Option<string>): (c: MemoryConfig)
    ensures c.baseDir == DefaultBaseDir(home)
  {
    MemoryConfig(DefaultBaseDir(home))
  }

  // ------------------------------------------------------------ ~ expansion

  /** `expand_tilde`: "~/rest" becomes home joined with rest; every other path stays as it is. */
  function ExpandTilde(path: string, home: Option<string>): (r: string)
    ensures IsPrefix("~/", path) && home.Some? ==> r == PathJoin(home.value, path[2..])
    ensures !IsPrefix("~/", path) || home.None? ==> r == path
  {
    if IsPrefix("~/", path) && home.Some? then PathJoin(home.value, path[2..]) else path
  }

  /** "~" alone, a "~user" path and any path without a home directory are left unchanged. */
  lemma ExpandTildeLeaves(home: Option<string>, rest: string)
    ensures ExpandTilde("~", home) == "~"
    ensures rest == [] || rest[0] != '/' ==> ExpandTilde("~" + rest, home) == "~" + rest
    ensures ExpandTilde("~/" + rest, None) == "~/" + rest
  {
    assert !IsPrefix("~/", "~");
    if rest != [] && rest[0] != '/' {
      assert ("~" + rest)[1] == rest[0];
    }
  }

  /** With a home directory, "~/x" is x under it. */
  lemma ExpandTildeHome(home: string, rest: string)
    ensures ExpandTilde("~/" + rest, Some(home)) == PathJoin(home, rest)
  {
    assert IsPrefix("~/", "~/" + rest);
    assert ("~/" + rest)[2..] == rest;
  }

  // ------------------------------------------------------------ first run

  const SubDirs: seq<string> := ["core", "logs/daily", "logs/weekly", "logs/monthly", "sessions", "skills"]

  const IdentityTemplate: string := "# Identity\n\nI am 1koro, a personal AI agent. I remember everything.\n"
  const UserTemplate: string := "# User\n\n(Not yet configured)\n"
  const StateTemplate: string := "# State\n\n(No state yet)\n"
  const ConfigTemplate: string :=
    "[agent]\nname = \"1koro\"\n\n[llm]\nprovider = \"openrouter\"\nmodel = \"google/gemini-2.5-flash\"\n"
    + "api_key = \"YOUR_API_KEY\"\nmax_tokens = 8192\n\n[api]\nbind = \"127.0.0.1:3000\"\n\n"
    + "[mcp]\nenabled = false\nbind = \"127.0.0.1:3001\"\n"

  /** The files a first run provides, relative to the base directory, with their initial contents. */
  const Templates: seq<(string, string)> := [
    ("core/identity.md", IdentityTemplate),
    ("core/user.md", UserTemplate),
    ("core/state.md", StateTemplate),
    ("config.toml", ConfigTemplate)]

  /** `write_if_missing`: a file that exists keeps its contents. */
  function WriteIfMissing(files: map<string, string>, path: string, content: string): (r: map<string, string>)
    ensures r.Keys == files.Keys + {path}
    ensures forall p :: p in files ==> r[p] == files[p]
    ensures path !in files ==> r[path] == content
  {
    if path in files then files else files[path := content]
  }

  /** The templates written in order under `base`, each only where no file exists. */
  function WriteAllMissing(files: map<string, string>, base: string, templates: seq<(string, string)>): map<string, string>
    decreases |templates|
  {
    if templates == [] then files
    else
      var last := templates[|templates| - 1];
      WriteIfMissing(WriteAllMissing(files, base, templates[..|templates| - 1]), PathJoin(base, last.0), last.1)
  }

  /** A file that exists before the first run keeps its contents. */
  lemma {:induction false} WriteAllMissingPreserves(files: map<string, string>, base: string, templates: seq<(string, string)>, p: string)
    requires p in files
    ensures p in WriteAllMissing(files, base, templates) && WriteAllMissing(files, base, templates)[p] == files[p]
    decreases |templates|
  {
    if templates != [] {
      var init := templates[..|templates| - 1];
      var last := templates[|templates| - 1];
      var prev := WriteAllMissing(files, base, init);
      WriteAllMissingPreserves(files, base, init, p);
      assert WriteAllMissing(files, base, templates) == WriteIfMissing(prev, PathJoin(base, last.0), last.1);
    }
  }

  /** After the first run the file of the template at index `i` exists. */
  lemma {:induction false} WriteAllMissingCovers(files: map<string, string>, base: string, templates: seq<(string, string)>, i: nat)
    requires i < |templates|
    ensures PathJoin(base, templates[i].0) in WriteAllMissing(files, base, templates)
    decreases |templates|
  {
    if i < |templates| - 1 {
      WriteAllMissingCovers(files, base, templates[..|templates| - 1], i);
    }
    CoversStep(files, base, templates, i);
  }

  /** One step of `WriteAllMissingCovers`: the last write adds its own file and keeps every earlier one. */
  lemma CoversStep(files: map<string, string>, base: string, templates: seq<(string, string)>, i: nat)
    requires i < |templates|
    requires i < |templates| - 1 ==> PathJoin(base, templates[..|templates| - 1][i].0) in WriteAllMissing(files, base, templates[..|templates| - 1])
    ensures PathJoin(base, templates[i].0) in WriteAllMissing(files, base, templates)
  {
    var init := templates[..|templates| - 1];
    var last := templates[|templates| - 1];
    assert WriteAllMissing(files, base, templates) == WriteIfMissing(WriteAllMissing(files, base, init), PathJoin(base, last.0), last.1);
    if i < |init| {
      assert init[i] == templates[i];
    }
  }

  /** A first run never overwrites a file, and afterwards every template's file exists. */
  lemma {:induction false} WriteAllMissingKeeps(files: map<string, string>, base: string, templates: seq<(string, string)>)
    ensures var r := WriteAllMissing(files, base, templates);
      && (forall p :: p in files ==> p in r && r[p] == files[p])
      && (forall i :: 0 <= i < |templates| ==> PathJoin(base, templates[i].0) in r)
  {
    forall p | p in files ensures p in WriteAllMissing(files, base, templates) && WriteAllMissing(files, base, templates)[p] == files[p] {
      WriteAllMissingPreserves(files, base, templates, p);
    }
    forall i | 0 <= i < |templates| ensures PathJoin(base, templates[i].0) in WriteAllMissing(files, base, templates) {
      WriteAllMissingCovers(files, base, templates, i);
    }
  }

  /** No file appears other than those of the templates. */
  lemma {:induction false} WriteAllMissingOnly(files: map<string, string>, base: string, templates: seq<(string, string)>, p: string)
    requires p !in files
    requires forall i :: 0 <= i < |templates| ==> PathJoin(base, templates[i].0) != p
    ensures p !in WriteAllMissing(files, base, templates)
    decreases |templates|
  {
    if templates != [] {
      var init := templates[..|templates| - 1];
      assert forall i :: 0 <= i < |init| ==> init[i] == templates[i];
      WriteAllMissingOnly(files, base, init, p);
    }
  }

  /** A template's file that did not exist gets that template, when no other template names the same file. */
  lemma {:induction false} WriteAllMissingFills(files: map<string, string>, base: string, templates: seq<(string, string)>, i: nat)
    requires i < |templates|
    requires PathJoin(base, templates[i].0) !in files
    requires forall j :: 0 <= j < |templates| && j != i ==> PathJoin(base, templates[j].0) != PathJoin(base, templates[i].0)
    ensures var r := WriteAllMissing(files, base, templates);
      PathJoin(base, templates[i].0) in r && r[PathJoin(base, templates[i].0)] == templates[i].1
    decreases |templates|
  {
    var init := templates[..|templates| - 1];
    if i < |init| {
      forall j | 0 <= j < |init| && j != i ensures PathJoin(base, init[j].0) != PathJoin(base, init[i].0) {
        assert init[j] == templates[j] && init[i] == templates[i];
      }
      WriteAllMissingFills(files, base, init, i);
      FillsEarlier(files, base, templates, i);
    } else {
      FillsLast(files, base, templates);
    }
  }

  /** An earlier template's file, once filled, survives the last template's write. */
  lemma FillsEarlier(files: map<string, string>, base: string, templates: seq<(string, string)>, i: nat)
    requires i < |templates| - 1
    requires var prev := WriteAllMissing(files, base, templates[..|templates| - 1]);
      PathJoin(base, templates[..|templates| - 1][i].0) in prev && prev[PathJoin(base, templates[..|templates| - 1][i].0)] == templates[..|templates| - 1][i].1
    ensures var r := WriteAllMissing(files, base, templates);
      PathJoin(base, templates[i].0) in r && r[PathJoin(base, templates[i].0)] == templates[i].1
  {
    var init := templates[..|templates| - 1];
    var last := templates[|templates| - 1];
    assert init[i] == templates[i];
    assert WriteAllMissing(files, base, templates) == WriteIfMissing(WriteAllMissing(files, base, init), PathJoin(base, last.0), last.1);
    assert PathJoin(base, templates[i].0) in WriteAllMissing(files, base, init);
  }

  /** The last template's file, named by no earlier template and absent before, gets that template. */
  lemma FillsLast(files: map<string, string>, base: string, templates: seq<(string, string)>)
    requires templates != []
    requires PathJoin(base, templates[|templates| - 1].0) !in files
    requires forall j :: 0 <= j < |templates| - 1 ==> PathJoin(base, templates[j].0) != PathJoin(base, templates[|templates| - 1].0)
    ensures var r := WriteAllMissing(files, base, templates);
      PathJoin(base, templates[|templates| - 1].0) in r && r[PathJoin(base, templates[|templates| - 1].0)] == templates[|templates| - 1].1
  {
    var init := templates[..|templates| - 1];
    var last := templates[|templates| - 1];
    var path := PathJoin(base, last.0);
    forall k | 0 <= k < |init| ensures PathJoin(base, init[k].0) != path {
      assert init[k] == templates[k];
    }
    WriteAllMissingOnly(files, base, init, path);
    assert WriteAllMissing(files, base, templates) == WriteIfMissing(WriteAllMissing(files, base, init), path, last.1);
  }

  /** What `create_dir_all(p)` leaves existing: `p` and every ancestor of it. */
  function DirChain(p: string): set<string> {
    {p} + set k | 0 < k < |p| && p[k] == '/' :: p[..k]
  }

  /** A directory is in the chain of `p` exactly when it is `p` or a prefix of `p` ending just before a '/'. */
  lemma DirChainMembers(p: string, q: string)
    ensures q in DirChain(p) <==> q == p || (0 < |q| < |p| && p[|q|] == '/' && IsPrefix(q, p))
  {
    if 0 < |q| < |p| && p[|q|] == '/' && IsPrefix(q, p) {
      assert q == p[..|q|];
    }
  }

  /** The directories a first run creates under `base`, ancestors included. */
  function DirsUnder(base: string, ds: seq<string>): set<string> {
    UnionOfChains(DirChain, base, ds)
  }

  /** The union of `chain` applied to each entry joined to `base`. */
  function UnionOfChains(chain: string -> set<string>, base: string, ds: seq<string>): set<string>
    decreases |ds|
  {
    if ds == [] then {} else UnionOfChains(chain, base, ds[..|ds| - 1]) + chain(PathJoin(base, ds[|ds| - 1]))
  }

  /** Exactly the listed directories and their ancestors are created. */
  lemma DirsUnderExactly(base: string, ds: seq<string>, p: string)
    ensures p in DirsUnder(base, ds) <==> exists i :: 0 <= i < |ds| && p in DirChain(PathJoin(base, ds[i]))
  {
    if p in DirsUnder(base, ds) {
      var i := ChainOf(DirChain, base, ds, p);
    }
    if exists i :: 0 <= i < |ds| && p in DirChain(PathJoin(base, ds[i])) {
      var i :| 0 <= i < |ds| && p in DirChain(PathJoin(base, ds[i]));
      ChainCreated(DirChain, base, ds, i, p);
    }
  }

  /** A member of the union belongs to the chain of some entry, whose index is returned. */
  lemma {:induction false} ChainOf(chain: string -> set<string>, base: string, ds: seq<string>, p: string) returns (i: nat)
    requires p in UnionOfChains(chain, base, ds)
    ensures i < |ds| && p in chain(PathJoin(base, ds[i]))
    decreases |ds|
  {
    var init := ds[..|ds| - 1];
    if p in UnionOfChains(chain, base, init) {
      i := ChainOf(chain, base, init, p);
      assert init[i] == ds[i];
    } else {
      i := |ds| - 1;
    }
  }

  /** A member of the chain of one entry is in the union. */
  lemma {:induction false} ChainCreated(chain: string -> set<string>, base: string, ds: seq<string>, i: nat, q: string)
    requires i < |ds| && q in chain(PathJoin(base, ds[i]))
    ensures q in UnionOfChains(chain, base, ds)
    decreases |ds|
  {
    var init := ds[..|ds| - 1];
    if i < |init| {
      assert init[i] == ds[i];
      ChainCreated(chain, base, init, i, q);
    }
  }

  /**
   * A first run under a base without a trailing '/' leaves eight directories
   * in place beside the base's own ancestors: the base itself, `logs`, and
   * the six listed ones.
   */
  lemma FirstRunDirs(base: string, ds: seq<string>)
    requires base != [] && base[|base| - 1] != '/'
    requires ds == SubDirs
    ensures base in DirsUnder(base, ds) && base + "/logs" in DirsUnder(base, ds)
    ensures forall i :: 0 <= i < |ds| ==> base + "/" + ds[i] in DirsUnder(base, ds)
  {
    SubDirsRelative(ds);
    ParentsCreated(base, ds, 1);
    forall i | 0 <= i < |ds| ensures base + "/" + ds[i] in DirsUnder(base, ds) {
      ListedCreated(base, ds, i);
    }
  }

  /** Every listed directory is a relative path, and the second is "logs/daily". */
  lemma SubDirsRelative(ds: seq<string>)
    requires ds == SubDirs
    ensures |ds| == 6 && ds[1] == "logs/daily"
    ensures forall i :: 0 <= i < |ds| ==> ds[i] != [] && ds[i][0] != '/'
  {
    assert ds[0][0] == 'c' && ds[1][0] == 'l' && ds[2][0] == 'l' && ds[3][0] == 'l' && ds[4][0] == 's' && ds[5][0] == 's';
  }

  /** An entry "logs/daily" brings the base and `logs` along with it. */
  lemma ParentsCreated(base: string, ds: seq<string>, i: nat)
    requires base != [] && base[|base| - 1] != '/'
    requires i < |ds| && ds[i] == "logs/daily"
    ensures base in DirsUnder(base, ds) && base + "/logs" in DirsUnder(base, ds)
  {
    assert "logs" + "/" + "daily" == "logs/daily";
    assert PathJoin(base, ds[i]) == base + "/" + ("logs" + "/" + "daily");
    NestedChain(base, "logs", "daily");
    assert base + "/" + "logs" == base + "/logs";
    ChainCreated(DirChain, base, ds, i, base);
    ChainCreated(DirChain, base, ds, i, base + "/logs");
  }

  /** Creating `base/x/y` also creates `base` and `base/x`. */
  lemma NestedChain(base: string, x: string, y: string)
    requires base != []
    ensures base in DirChain(base + "/" + (x + "/" + y))
    ensures base + "/" + x in DirChain(base + "/" + (x + "/" + y))
  {
    var p := base + "/" + (x + "/" + y);
    assert p[|base|] == '/' && p[..|base|] == base;
    var k := |base| + 1 + |x|;
    assert p[k] == '/' && p[..k] == base + "/" + x;
  }

  /** A relative entry is created directly under the base. */
  lemma ListedCreated(base: string, ds: seq<string>, i: nat)
    requires base != [] && base[|base| - 1] != '/'
    requires i < |ds| && (ds[i] == [] || ds[i][0] != '/')
    ensures base + "/" + ds[i] in DirsUnder(base, ds)
  {
    assert PathJoin(base, ds[i]) == base + "/" + ds[i];
    DirChainMembers(PathJoin(base, ds[i]), PathJoin(base, ds[i]));
    ChainCreated(DirChain, base, ds, i, PathJoin(base, ds[i]));
  }

  /** The file system a first run changes: files and directories by absolute path. */
  class Disk {
    var files: map<string, string>
    var dirs: set<string>

    constructor (files: map<string, string>, dirs: set<string>)
      ensures this.files == files && this.dirs == dirs
    {
      this.files := files;
      this.dirs := dirs;
    }

    /** `init_config_dir`: create the directories, then write each missing template. */
    method InitConfigDir(home: Option<string>)
      modifies this
      ensures dirs == old(dirs) + DirsUnder(DefaultBaseDir(home), SubDirs)
      ensures files == WriteAllMissing(old(files), DefaultBaseDir(home), Templates)
    {
      var base := DefaultBaseDir(home);
      CreateDirs(base, SubDirs);
      WriteTemplates(base, Templates);
    }

    method CreateDirs(base: string, ds: seq<string>)
      modifies this
      ensures dirs == old(dirs) + DirsUnder(base, ds)
      ensures files == old(files)
    {
      for i := 0 to |ds|
        invariant dirs == old(dirs) + DirsUnder(base, ds[..i])
        invariant files == old(files)
      {
        assert ds[..i + 1][..i] == ds[..i];
        dirs := dirs + DirChain(PathJoin(base, ds[i]));
      }
      assert ds[..|ds|] == ds;
    }

    method WriteTemplates(base: string, templates: seq<(string, string)>)
      modifies this
      ensures files == WriteAllMissing(old(files), base, templates)
      ensures dirs == old(dirs)
    {
      for i := 0 to |templates|
        invariant files == WriteAllMissing(old(files), base, templates[..i])
        invariant dirs == old(dirs)
      {
        assert templates[..i + 1][..i] == templates[..i];
        var path := PathJoin(base, templates[i].0);
        if path !in files {
          files := files[path := templates[i].1];
        }
      }
      assert templates[..|templates|] == templates;
    }
  }

  /** Where every template's file exists already, a first run changes nothing. */
  lemma {:induction false} WriteAllMissingNoop(files: map<string, string>, base: string, templates: seq<(string, string)>)
    requires forall i :: 0 <= i < |templates| ==> PathJoin(base, templates[i].0) in files
    ensures WriteAllMissing(files, base, templates) == files
    decreases |templates|
  {
    if templates != [] {
      var init := templates[..|templates| - 1];
      assert forall i :: 0 <= i < |init| ==> init[i] == templates[i];
      WriteAllMissingNoop(files, base, init);
    }
  }

  /** Running the first-run setup again changes nothing. */
  lemma WriteAllMissingIdempotent(files: map<string, string>, base: string, templates: seq<(string, string)>)
    ensures WriteAllMissing(WriteAllMissing(files, base, templates), base, templates) == WriteAllMissing(files, base, templates)
  {
    WriteAllMissingKeeps(files, base, templates);
    WriteAllMissingNoop(WriteAllMissing(files, base, templates), base, templates);
  }
}
