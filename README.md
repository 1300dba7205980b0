# flexfielddb bootstrap, modelled in Dafny

This project models the start-up logic of the `flexfielddb` web application
(`flexfielddb/__init__.py`). That logic has four parts:

- **virtualenv detection** (`path_to_venv`): decides whether the interpreter
  runs inside a virtualenv, using `sys.real_prefix` under Python 2 and
  `sys.base_prefix` against `sys.prefix` under Python 3;
- **configuration discovery** (`read_config`): builds the ordered list of
  candidate `flexfielddb.ini` files and loads the first one that exists. The
  list holds the command-line path, then `$FLEXFIELDDB_CONF`, then either the
  virtualenv's `etc/flexfielddb` folder or the XDG, `/usr/local/etc` and
  `/etc` folders;
- **logging set-up** (`init_logging`): checks a level name, without regard to
  case, against the integer levels of Python's `logging` module and picks a
  file or standard output as the target;
- **application settings** (`create_app`): `_DEFAULT_CONFIG` first, then the
  `flexfielddb` section of the configuration, applied key by key.

Modules, one per part, plus shared values:

- `Wrappers` holds `Option` and `Result`. `Result.Err` carries the message of
  the exception the source raises.
- `Paths` holds `os.path.join` (POSIX) and Python's truthiness test for a path.
- `Venv`, `ConfigLocator`, `LoggingSetup` and `AppAssembler` hold the four parts.
- `ConfigValues` holds setting values and the loaded configuration.

The environment enters as parameters:

- the interpreter facts (an `Interpreter` value);
- `os.environ` (a `map<string, string>`);
- `XDG_CONFIG_HOME` (a string);
- `os.path.exists` (a predicate `pathExists`);
- the INI reader (a function `load` that returns a configuration or a failure);
- Flask's own initial `app.config` (`frameworkDefaults`).

`read_config` is modelled as two methods. `CandidateFileNames` grows the list
entry by entry. `ReadConfig` runs the loop with its early return. Both are
proved equal to the reference definitions `Candidates` and `Locate`, and the
ordering and first-match lemmas are proved about those definitions. `ReadConfig`
takes the detected virtualenv path as a parameter. `create_app` updates a
settings object in place (`AppConfig.Update` is `dict.update`, one key at a
time). It is proved equal to `AppSettings`, a left fold of the layers over the
framework's settings.

Three points where the code does something other than its names suggest. The model follows the code:

- The code accepts every name whose upper case is an integer attribute of
  `logging`: NOTSET, DEBUG, INFO, WARN, WARNING, ERROR, CRITICAL and FATAL.
  That is more than the five conventional names debug, info, warning, error and critical.
- With no configuration, `app.config` is Flask's own settings overlaid by
  `_DEFAULT_CONFIG`. It equals `_DEFAULT_CONFIG` on that mapping's keys, and
  equals it exactly only when the framework contributes no keys
  (`NoConfigMeansDefaults`).
- Inside a virtualenv, `path_to_venv` returns the prefix of the installation
  the virtualenv was made from. See Findings.

## Model

| member | source | states |
|---|---|---|
| `Paths.JoinShape` | flexfielddb/__init__.py:50-57 | a joined path ends with its last component; an absolute component replaces the path; a relative one is appended directly when the path is empty or ends in `/`, and after exactly one `/` otherwise |
| `Venv.PathToVenv` | flexfielddb/__init__.py:26-33 | under Python 2 the result is `real_prefix` when present, else none; under Python 3 a path is returned exactly when `base_prefix != prefix`, and it is `base_prefix`, never the active prefix |
| `Venv.ActiveVenv` | flexfielddb/__init__.py:26-29 | corrected detection: detects exactly when `path_to_venv` does, and then names the active virtualenv `sys.prefix` |
| `Venv.PathToVenvMissesActiveVenv` | flexfielddb/__init__.py:30-33 | under Python 3, whenever a virtualenv is detected, the path returned differs from the active virtualenv |
| `ConfigLocator.EnvFname` | flexfielddb/__init__.py:43 | the environment lookup yields a value exactly when `FLEXFIELDDB_CONF` is set, and then that value |
| `ConfigLocator.Loaded` | flexfielddb/__init__.py:59-60 | loading an existing file never yields "no configuration"; a successful read returns exactly the configuration read, and a failed read's error passes through unchanged |
| `ConfigLocator.CandidateFileNames` | flexfielddb/__init__.py:38-57 | the list grown by the appends and the comprehension equals `Candidates`: command-line path, environment path, then one `flexfielddb.ini` per search folder, in order |
| `ConfigLocator.ReadConfig` | flexfielddb/__init__.py:36-60 | the loop's result equals the reference search `Locate` over the candidate list; the command-line path defaults to none, as `cli_fname=None` does |
| `ConfigLocator.LocateFindsFirst` | flexfielddb/__init__.py:58-60 | the configuration returned is the one loaded from the lowest-index candidate that exists |
| `ConfigLocator.LocateFindsNone` | flexfielddb/__init__.py:58-60 | no configuration is returned exactly when no candidate exists |
| `ConfigLocator.LocateIgnoresLaterCandidates` | flexfielddb/__init__.py:58-60 | once some candidate exists, entries appended after the list do not change the result |
| `ConfigLocator.LocateIgnoresLaterFiles` | flexfielddb/__init__.py:58-60 | whether candidates after the first existing one exist, and what they contain, does not change the result |
| `ConfigLocator.CandidateCount` | flexfielddb/__init__.py:38-57 | the list has (cli given ? 1 : 0) + (env given ? 1 : 0) + (virtualenv ? 1 : 3) entries; an empty or absent path adds none |
| `ConfigLocator.CandidateOrder` | flexfielddb/__init__.py:40-45 | a given command-line path is first and a given environment path comes right after it |
| `ConfigLocator.AppFolderFile` | flexfielddb/__init__.py:50-57 | the file in a folder joined as `flexfielddb` is that parent followed by `flexfielddb/flexfielddb.ini` |
| `ConfigLocator.FolderCandidatesEndInConfigName` | flexfielddb/__init__.py:56-57 | every candidate after the explicit ones ends in `flexfielddb/flexfielddb.ini` |
| `ConfigLocator.VenvFile` | flexfielddb/__init__.py:55-57 | the file in a virtualenv's `etc/flexfielddb` folder is the virtualenv path, a `/` unless it already ends in one, then `etc/flexfielddb/flexfielddb.ini` |
| `ConfigLocator.VenvCandidate` | flexfielddb/__init__.py:54-57 | with a virtualenv (any non-empty path, including `/`) the only folder candidate is `<venv>/etc/flexfielddb/flexfielddb.ini`, joined as `os.path.join` does |
| `ConfigLocator.UsrLocalEtcFile` | flexfielddb/__init__.py:51 | the `/usr/local/etc` join yields `/usr/local/etc/flexfielddb/flexfielddb.ini` |
| `ConfigLocator.EtcFile` | flexfielddb/__init__.py:52 | the `/etc` join yields `/etc/flexfielddb/flexfielddb.ini` |
| `ConfigLocator.SystemCandidates` | flexfielddb/__init__.py:48-57 | without a virtualenv the folder candidates are exactly the XDG file, `/usr/local/etc/flexfielddb/flexfielddb.ini` and `/etc/flexfielddb/flexfielddb.ini`, in that order |
| `ConfigLocator.NothingFoundIsNoConfig` | flexfielddb/__init__.py:58-60 | with no explicit path and no existing file the result is "no configuration", not a failure |
| `ConfigLocator.AsWrittenVenvSearchUsesBasePrefix` | flexfielddb/__init__.py:33 | as written, the virtualenv candidate under Python 3 is `<base_prefix>/etc/flexfielddb/flexfielddb.ini` |
| `ConfigLocator.AsWrittenVenvSearchMissesVenv` | flexfielddb/__init__.py:47-55 | as written, for a virtualenv `/home/user/venv` made from `/usr`, the only file searched is `/usr/etc/flexfielddb/flexfielddb.ini`, outside the virtualenv |
| `ConfigLocator.ActiveVenvSearchStaysInVenv` | flexfielddb/__init__.py:54-57 | with the corrected detection, the virtualenv candidate is `<prefix>/etc/flexfielddb/flexfielddb.ini`, inside the active virtualenv |
| `LoggingSetup.Upper` | flexfielddb/__init__.py:70 | upper-casing keeps the length, turns each ASCII lower-case letter into its upper-case letter, dotless `ı` into `I` and long `ſ` into `S`, and leaves every other character unchanged |
| `LoggingSetup.LevelOf` | flexfielddb/__init__.py:70-71 | a level is found exactly when the upper-cased name is one of the eight level names, and it is that name's entry in the table, one of 0, 10, 20, 30, 40, 50 |
| `LoggingSetup.InitLogging` | flexfielddb/__init__.py:63-77 | fails with `Invalid log level: <name>` exactly when the upper-cased name is not a level; otherwise sets the name's level and exactly one target, `filename` when a non-empty filename is given, else `stream` = standard output; the arguments default to `'warning'` and no filename, as in the source |
| `LoggingSetup.InitLoggingDefaults` | flexfielddb/__init__.py:63-77 | `init_logging()` with its default arguments (`'warning'`, no filename) configures level 30 on standard output, and nothing else |
| `LoggingSetup.LevelIgnoresCase` | flexfielddb/__init__.py:70 | upper-casing is idempotent, so a name and its upper-cased form select the same level |
| `LoggingSetup.SameUpperSameLevel` | flexfielddb/__init__.py:70-72 | any two names that agree character by character once upper-cased select the same level, or are both refused |
| `LoggingSetup.KnownAndUnknownNames` | flexfielddb/__init__.py:70-72 | `debug`, `info`, `warning`, `error`, `critical` (in any case), `WARN` and `fatal` are accepted with their levels; `not-a-level` is refused |
| `AppAssembler.Overlay` | flexfielddb/__init__.py:89-91 | the keys after overlaying are the base's plus every layer's; the last layer's values win; a base key that no layer sets keeps its value |
| `AppAssembler.OverlayLastSetterWins` | flexfielddb/__init__.py:89-91 | for any number of layers, a key takes its value from the last layer that sets it |
| `AppAssembler.AppConfig.constructor` | flexfielddb/__init__.py:87 | the settings of a new application are the framework's initial settings |
| `AppAssembler.AppConfig.Update` | flexfielddb/__init__.py:89-91 | after the key-by-key update the settings are the old ones with every key of the argument replaced by its value there |
| `AppAssembler.CreateApp` | flexfielddb/__init__.py:82-91 | the built application's settings are the framework's, overlaid by `_DEFAULT_CONFIG`, overlaid by the `flexfielddb` section when a configuration was found |
| `AppAssembler.DefaultKeysPresent` | flexfielddb/__init__.py:19-23 | every key of `_DEFAULT_CONFIG` is set, whatever the configuration |
| `AppAssembler.SectionWins` | flexfielddb/__init__.py:85-91 | a key of the configuration's section takes the section's value |
| `AppAssembler.DefaultKeptUnlessSet` | flexfielddb/__init__.py:89-91 | a default key the configuration does not set keeps its default value |
| `AppAssembler.NoConfigMeansDefaults` | flexfielddb/__init__.py:84-91 | without a configuration the settings are the framework's overlaid by the defaults, and exactly `_DEFAULT_CONFIG` over empty framework settings |
| `AppAssembler.ServerNameOverride` | flexfielddb/__init__.py:19-23 | a section setting only `SERVER_NAME` to `example.com:8080` yields that server name and leaves `LOG_LEVEL` at `warning` |

## Left out

- Flask application construction, the `ProxyFix` wrapper, blueprint registration and the `/` route (lines 87-88, 92-95) are not modelled. They are framework wiring. `CreateApp` yields only the application's settings.
- `logging.basicConfig`, `logging.getLogger` and the `format`, `datefmt` and `style` entries of the options dictionary (lines 65-69, 78-79) are left out. They are a global side effect inside the logging library. `InitLogging` returns the level and target entries it would pass on.
- `os.environ`, `os.path.exists`, `sys.prefix`/`base_prefix`/`real_prefix` and `XDG_CONFIG_HOME` are parameters. Nothing about the operating system is modelled.
- konfig's `Config` and `get_map` are not part of this model. A loaded configuration is represented by the mapping `get_map('flexfielddb')` returns. A file without that section, and the values konfig converts, are whatever the `load` parameter yields. A reader failure is an `Err` that stops the search, as the exception does.
- `CreateApp`: the test `if config:` is modelled as "a configuration was found". A loaded konfig object is taken to be truthy.
- `LoggingSetup.Upper`: only ASCII letters, dotless `ı` and long `ſ` are mapped. Python's `str.upper` also changes other characters and expands some (`ß` to `SS`). None of those changes can produce one of the eight level names, so which names are accepted is the same.
- `LoggingSetup.LevelOf`: the eight level constants stand for "an integer attribute of `logging`". The module's other integer attributes have lower-case names, which an upper-cased name never matches.
- `os.path.join` is modelled for POSIX paths, two components at a time. The source's multi-component joins are left folds of it.
- Filesystem permission errors while testing existence are not modelled separately; `pathExists` is what `os.path.exists` answers, so a path it cannot stat (permission denied, broken symlink) counts as absent and is skipped.

## Findings

| source | as written | input that shows it | evidently intended | confidence | as-written member | corrected member |
|---|---|---|---|---|---|---|
| flexfielddb/__init__.py:26-33 | `path_to_venv` returns `real_prefix` (Python 2) or `base_prefix` (Python 3), the installation the virtualenv was made from, so `read_config` searches `<that installation>/etc/flexfielddb` | Python 3 with `prefix = /home/user/venv`, `base_prefix = /usr`: the only folder file searched is `/usr/etc/flexfielddb/flexfielddb.ini` | the docstring promises "the path to the virtualenv", i.e. `sys.prefix`, so the file searched would be `/home/user/venv/etc/flexfielddb/flexfielddb.ini` | medium, not executed | `ConfigLocator.AsWrittenVenvSearchMissesVenv` | `ConfigLocator.ActiveVenvSearchStaysInVenv` |
