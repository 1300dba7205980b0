/**
 * `read_config`: the ordered list of candidate configuration files and
 * the search for the first one that exists.
 */
module ConfigLocator {
  import opened Wrappers
  import opened Paths
  import opened ConfigValues
  import opened Venv

  /** The environment variable that names a configuration file. */
  const EnvVar := "FLEXFIELDDB_CONF"
  /** The folder name under every search location. */
  const AppFolder := "flexfielddb"
  /** The file name looked for in every search folder. */
  const ConfigName := "flexfielddb.ini"

  /** `os.environ.get('FLEXFIELDDB_CONF')`. */
  function EnvFname(env: map<string, string>): (r: Option<string>)
    ensures r.Some? <==> EnvVar in env
    ensures r.Some? ==> r.value == env[EnvVar]
  {
    if EnvVar in env then Some(env[EnvVar]) else None
  }

  /** The entry an explicit path contributes: itself if given, nothing if absent or empty. */
  function Explicit(p: Option<string>): seq<string>
  {
    if Given(p) then [p.value] else []
  }

  /** The parent of each search folder: the virtualenv's `etc` when one is detected, else the user and system ones. */
  function FolderParents(venvPath: Option<string>, xdgConfigHome: string): seq<string>
  {
    if Given(venvPath) then [Join(venvPath.value, "etc")]
    else [xdgConfigHome, Join(Join(Join("/", "usr"), "local"), "etc"), Join("/", "etc")]
  }

  /** The search folders: a `flexfielddb` folder under each parent, in search order. */
  function ConfigFolders(venvPath: Option<string>, xdgConfigHome: string): seq<string>
  {
    var parents := FolderParents(venvPath, xdgConfigHome);
    seq(|parents|, i requires 0 <= i < |parents| => Join(parents[i], AppFolder))
  }

  /** The configuration file in each folder, in folder order. */
  function FolderFiles(folders: seq<string>): seq<string>
  {
    seq(|folders|, i requires 0 <= i < |folders| => Join(folders[i], ConfigName))
  }

  /** The candidate list in priority order: command line, environment, then the search folders. */
  function Candidates(cliFname: Option<string>, envFname: Option<string>, venvPath: Option<string>, xdgConfigHome: string): seq<string>
  {
    Explicit(cliFname) + Explicit(envFname) + FolderFiles(ConfigFolders(venvPath, xdgConfigHome))
  }

  /** The outcome of loading an existing file: its configuration, or the loader's failure. */
  function Loaded(l: Result<ConfigFile>): (r: Result<Option<ConfigFile>>)
    ensures r != Ok(None)
    ensures r.Ok? <==> l.Ok?
    ensures l.Ok? ==> r == Ok(Some(l.value))
    ensures l.Err? ==> r == Err(l.error)
  {
    match l
    case Ok(c) => Ok(Some(c))
    case Err(e) => Err(e)
  }

  /** The reference search: the first candidate that exists is loaded; none existing is no configuration. */
  function Locate(cands: seq<string>, pathExists: string -> bool, load: string -> Result<ConfigFile>): Result<Option<ConfigFile>>
  {
    if cands == [] then Ok(None)
    else if pathExists(cands[0]) then Loaded(load(cands[0]))
    else Locate(cands[1..], pathExists, load)
  }

  /** The first half of `read_config`: the candidate list, grown entry by entry. */
  method CandidateFileNames(cliFname: Option<string>, env: map<string, string>, venvPath: Option<string>, xdgConfigHome: string)
    returns (fnames: seq<string>)
    ensures fnames == Candidates(cliFname, EnvFname(env), venvPath, xdgConfigHome)
  {
    fnames := [];
    if Given(cliFname) {
      fnames := fnames + [cliFname.value];
    }
    var envFname := EnvFname(env);
    if Given(envFname) {
      fnames := fnames + [envFname.value];
    }
    var configFolders := ConfigFolders(venvPath, xdgConfigHome);
    ghost var explicit := fnames;
    for i := 0 to |configFolders|
      invariant |fnames| == |explicit| + i
      invariant fnames[..|explicit|] == explicit
      invariant forall j :: 0 <= j < i ==> fnames[|explicit| + j] == Join(configFolders[j], ConfigName)
    {
      fnames := fnames + [Join(configFolders[i], ConfigName)];
    }
    assert fnames == explicit + FolderFiles(configFolders);
  }

  /**
   * `read_config`: the configuration of the first candidate that exists,
   * `Ok(None)` when none does. A loader failure stops the search.
   */
  method ReadConfig(cliFname: Option<string> := None, env: map<string, string>, venvPath: Option<string>, xdgConfigHome: string,
                    pathExists: string -> bool, load: string -> Result<ConfigFile>)
    returns (r: Result<Option<ConfigFile>>)
    ensures r == Locate(Candidates(cliFname, EnvFname(env), venvPath, xdgConfigHome), pathExists, load)
  {
    var configFnames := CandidateFileNames(cliFname, env, venvPath, xdgConfigHome);
    for i := 0 to |configFnames|
      invariant forall j :: 0 <= j < i ==> !pathExists(configFnames[j])
    {
      if pathExists(configFnames[i]) {
        LocateFindsFirst(configFnames, pathExists, load, i);
        return Loaded(load(configFnames[i]));
      }
    }
    LocateFindsNone(configFnames, pathExists, load);
    return Ok(None);
  }

  /** The search loads the lowest-index candidate that exists. */
  lemma {:induction false} LocateFindsFirst(cands: seq<string>, pathExists: string -> bool, load: string -> Result<ConfigFile>, i: nat)
    requires i < |cands| && pathExists(cands[i])
    requires forall j :: 0 <= j < i ==> !pathExists(cands[j])
    ensures Locate(cands, pathExists, load) == Loaded(load(cands[i]))
  {
    if i > 0 {
      LocateFindsFirst(cands[1..], pathExists, load, i - 1);
    }
  }

  /** The search finds no configuration exactly when no candidate exists. */
  lemma {:induction false} LocateFindsNone(cands: seq<string>, pathExists: string -> bool, load: string -> Result<ConfigFile>)
    ensures Locate(cands, pathExists, load) == Ok(None) <==> forall j :: 0 <= j < |cands| ==> !pathExists(cands[j])
  {
    if cands != [] {
      LocateFindsNone(cands[1..], pathExists, load);
      assert forall j :: 1 <= j < |cands| ==> cands[j] == cands[1..][j - 1];
    }
  }

  /** Once a candidate exists, candidates appended after the list change nothing. */
  lemma {:induction false} LocateIgnoresLaterCandidates(cands: seq<string>, later: seq<string>, pathExists: string -> bool,
                                                        load: string -> Result<ConfigFile>, i: nat)
    requires i < |cands| && pathExists(cands[i])
    ensures Locate(cands + later, pathExists, load) == Locate(cands, pathExists, load)
  {
    if !pathExists(cands[0]) {
      assert (cands + later)[1..] == cands[1..] + later;
      LocateIgnoresLaterCandidates(cands[1..], later, pathExists, load, i - 1);
    }
  }

  /** Whether the files after the first existing one exist, and what they hold, does not matter. */
  lemma {:induction false} LocateIgnoresLaterFiles(cands: seq<string>, pathExists: string -> bool, pathExists': string -> bool,
                                                   load: string -> Result<ConfigFile>, load': string -> Result<ConfigFile>, i: nat)
    requires i < |cands| && pathExists(cands[i])
    requires forall j :: 0 <= j <= i ==> pathExists(cands[j]) == pathExists'(cands[j])
    requires load(cands[i]) == load'(cands[i])
    requires forall j :: 0 <= j < i ==> !pathExists(cands[j])
    ensures Locate(cands, pathExists', load') == Locate(cands, pathExists, load)
  {
    LocateFindsFirst(cands, pathExists, load, i);
    LocateFindsFirst(cands, pathExists', load', i);
  }

  /** The list holds one entry per given explicit path, then one file for a virtualenv or three without. */
  lemma CandidateCount(cliFname: Option<string>, envFname: Option<string>, venvPath: Option<string>, xdgConfigHome: string)
    ensures |Candidates(cliFname, envFname, venvPath, xdgConfigHome)|
         == (if Given(cliFname) then 1 else 0) + (if Given(envFname) then 1 else 0) + (if Given(venvPath) then 1 else 3)
  {
  }

  /** The command-line path comes first, the environment's next, each only when given. */
  lemma CandidateOrder(cliFname: Option<string>, envFname: Option<string>, venvPath: Option<string>, xdgConfigHome: string)
    ensures var cands := Candidates(cliFname, envFname, venvPath, xdgConfigHome);
            && (Given(cliFname) ==> cands[0] == cliFname.value)
            && (Given(envFname) ==> cands[if Given(cliFname) then 1 else 0] == envFname.value)
  {
  }

  /** The file in a folder named `flexfielddb` is `.../flexfielddb/flexfielddb.ini`. */
  lemma AppFolderFile(parent: string)
    ensures Join(Join(parent, AppFolder), ConfigName) == JoinSep(parent) + "flexfielddb/flexfielddb.ini"
  {
  }

  /** Every candidate after the explicit ones names `flexfielddb.ini` inside a `flexfielddb` folder. */
  lemma FolderCandidatesEndInConfigName(cliFname: Option<string>, envFname: Option<string>, venvPath: Option<string>, xdgConfigHome: string, k: nat)
    requires |Explicit(cliFname) + Explicit(envFname)| <= k < |Candidates(cliFname, envFname, venvPath, xdgConfigHome)|
    ensures EndsWith(Candidates(cliFname, envFname, venvPath, xdgConfigHome)[k], "flexfielddb/flexfielddb.ini")
  {
    var n := |Explicit(cliFname) + Explicit(envFname)|;
    var parent := FolderParents(venvPath, xdgConfigHome)[k - n];
    assert Candidates(cliFname, envFname, venvPath, xdgConfigHome)[k] == Join(Join(parent, AppFolder), ConfigName);
    AppFolderFile(parent);
  }

  /** The file in a virtualenv's `etc/flexfielddb` folder. */
  lemma VenvFile(venv: string)
    ensures Join(Join(Join(venv, "etc"), AppFolder), ConfigName) == JoinSep(venv) + "etc/flexfielddb/flexfielddb.ini"
  {
    var p := JoinSep(venv);
    var etc := Join(venv, "etc");
    assert etc == p + "etc";
    assert JoinSep(etc) == p + "etc" + "/" by {
      assert etc[|etc| - 1] == 'c';
    }
    AppFolderFile(etc);
    assert "etc" + "/" + "flexfielddb/flexfielddb.ini" == "etc/flexfielddb/flexfielddb.ini";
    assert p + "etc" + "/" + "flexfielddb/flexfielddb.ini" == p + ("etc" + "/" + "flexfielddb/flexfielddb.ini");
  }

  /** With a virtualenv the only folder candidate is `<venv>/etc/flexfielddb/flexfielddb.ini`. */
  lemma VenvCandidate(cliFname: Option<string>, envFname: Option<string>, venvPath: Option<string>, xdgConfigHome: string)
    requires Given(venvPath)
    ensures Candidates(cliFname, envFname, venvPath, xdgConfigHome)
         == Explicit(cliFname) + Explicit(envFname) + [JoinSep(venvPath.value) + "etc/flexfielddb/flexfielddb.ini"]
  {
    VenvFile(venvPath.value);
    assert FolderFiles(ConfigFolders(venvPath, xdgConfigHome)) == [JoinSep(venvPath.value) + "etc/flexfielddb/flexfielddb.ini"];
  }

  /** The system-wide file under `/usr/local/etc`. */
  lemma UsrLocalEtcFile()
    ensures Join(Join(Join(Join(Join("/", "usr"), "local"), "etc"), AppFolder), ConfigName) == "/usr/local/etc/flexfielddb/flexfielddb.ini"
  {
  }

  /** The system-wide file under `/etc`. */
  lemma EtcFile()
    ensures Join(Join(Join("/", "etc"), AppFolder), ConfigName) == "/etc/flexfielddb/flexfielddb.ini"
  {
  }

  /** Without a virtualenv the folder candidates are the XDG one, then `/usr/local/etc`'s, then `/etc`'s. */
  lemma SystemCandidates(cliFname: Option<string>, envFname: Option<string>, venvPath: Option<string>, xdgConfigHome: string)
    requires !Given(venvPath)
    ensures Candidates(cliFname, envFname, venvPath, xdgConfigHome)
         == Explicit(cliFname) + Explicit(envFname)
          + [ JoinSep(xdgConfigHome) + "flexfielddb/flexfielddb.ini",
              "/usr/local/etc/flexfielddb/flexfielddb.ini",
              "/etc/flexfielddb/flexfielddb.ini" ]
  {
    AppFolderFile(xdgConfigHome);
    UsrLocalEtcFile();
    EtcFile();
    var files := FolderFiles(ConfigFolders(venvPath, xdgConfigHome));
    assert files == [ JoinSep(xdgConfigHome) + "flexfielddb/flexfielddb.ini",
                      "/usr/local/etc/flexfielddb/flexfielddb.ini",
                      "/etc/flexfielddb/flexfielddb.ini" ];
  }

  /** With nothing given and no file on disk, `read_config` finds no configuration and raises nothing. */
  lemma NothingFoundIsNoConfig(venvPath: Option<string>, xdgConfigHome: string, pathExists: string -> bool, load: string -> Result<ConfigFile>)
    requires forall p :: !pathExists(p)
    ensures Locate(Candidates(None, None, venvPath, xdgConfigHome), pathExists, load) == Ok(None)
  {
    LocateFindsNone(Candidates(None, None, venvPath, xdgConfigHome), pathExists, load);
  }

  /**
   * As written, inside a Python 3 virtualenv the folder candidate is built
   * from `base_prefix`, the installation the virtualenv was made from.
   */
  lemma AsWrittenVenvSearchUsesBasePrefix(cliFname: Option<string>, envFname: Option<string>, sys: Interpreter, xdgConfigHome: string)
    requires !sys.py2 && sys.basePrefix != sys.prefix
    requires sys.basePrefix != "" && sys.basePrefix[|sys.basePrefix| - 1] != '/'
    ensures Candidates(cliFname, envFname, PathToVenv(sys), xdgConfigHome)
         == Explicit(cliFname) + Explicit(envFname) + [sys.basePrefix + "/etc/flexfielddb/flexfielddb.ini"]
  {
    assert JoinSep(sys.basePrefix) + "etc/flexfielddb/flexfielddb.ini" == sys.basePrefix + "/etc/flexfielddb/flexfielddb.ini";
    VenvCandidate(cliFname, envFname, PathToVenv(sys), xdgConfigHome);
  }

  /** For a virtualenv `/home/user/venv` made from `/usr`, the file searched is outside the virtualenv. */
  lemma AsWrittenVenvSearchMissesVenv(xdgConfigHome: string)
    ensures var sys := Interpreter(false, None, "/usr", "/home/user/venv");
            && Candidates(None, None, PathToVenv(sys), xdgConfigHome) == ["/usr" + "/etc/flexfielddb/flexfielddb.ini"]
            && !StartsWith(Candidates(None, None, PathToVenv(sys), xdgConfigHome)[0], sys.prefix)
  {
    var sys := Interpreter(false, None, "/usr", "/home/user/venv");
    AsWrittenVenvSearchUsesBasePrefix(None, None, sys, xdgConfigHome);
    var c := "/usr" + "/etc/flexfielddb/flexfielddb.ini";
    assert c[1] == 'u' && sys.prefix[1] == 'h';
  }

  /** With the corrected detection, the virtualenv candidate lies inside the active virtualenv. */
  lemma ActiveVenvSearchStaysInVenv(cliFname: Option<string>, envFname: Option<string>, sys: Interpreter, xdgConfigHome: string)
    requires Given(ActiveVenv(sys)) && sys.prefix[|sys.prefix| - 1] != '/'
    ensures var cands := Candidates(cliFname, envFname, ActiveVenv(sys), xdgConfigHome);
            && |cands| == |Explicit(cliFname) + Explicit(envFname)| + 1
            && cands[|cands| - 1] == sys.prefix + "/etc/flexfielddb/flexfielddb.ini"
            && StartsWith(cands[|cands| - 1], sys.prefix + "/")
  {
    assert JoinSep(sys.prefix) + "etc/flexfielddb/flexfielddb.ini" == sys.prefix + "/etc/flexfielddb/flexfielddb.ini";
    VenvCandidate(cliFname, envFname, ActiveVenv(sys), xdgConfigHome);
    var c := sys.prefix + "/etc/flexfielddb/flexfielddb.ini";
    assert c[..|sys.prefix| + 1] == sys.prefix + "/";
  }
}
