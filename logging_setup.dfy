/** `init_logging`: level-name validation and the choice of output target. */
module LoggingSetup {
  import opened Wrappers
  import opened Paths

  /** The integer level constants of Python's `logging` module, by name. */
  const LevelTable: map<string, int> := map[
    "NOTSET" := 0, "DEBUG" := 10, "INFO" := 20, "WARN" := 30, "WARNING" := 30,
    "ERROR" := 40, "CRITICAL" := 50, "FATAL" := 50
  ]

  /**
   * `str.upper` on one character, as far as it decides membership in
   * `LevelTable`: ASCII letters, and the two other characters whose upper
   * case is a single ASCII letter (dotless i and long s).
   */
  function UpperChar(c: char): char
  {
    if 'a' <= c <= 'z' then (c as int - 32) as char
    else if c == 'ı' then 'I'
    else if c == 'ſ' then 'S'
    else c
  }

  /** `str.upper`, character by character. */
  function Upper(s: string): (r: string)
    ensures |r| == |s|
    ensures forall i :: 0 <= i < |s| && 'a' <= s[i] <= 'z' ==> r[i] == (s[i] as int - 32) as char
    ensures forall i :: 0 <= i < |s| && s[i] == 'ı' ==> r[i] == 'I'
    ensures forall i :: 0 <= i < |s| && s[i] == 'ſ' ==> r[i] == 'S'
    ensures forall i :: 0 <= i < |s| && !('a' <= s[i] <= 'z') && s[i] != 'ı' && s[i] != 'ſ' ==> r[i] == s[i]
  {
    seq(|s|, i requires 0 <= i < |s| => UpperChar(s[i]))
  }

  /** `getattr(logging, name.upper(), None)` kept only when it is an integer. */
  function LevelOf(name: string): (r: Option<int>)
    ensures r.Some? <==> Upper(name) in LevelTable
    ensures r.Some? ==> r.value == LevelTable[Upper(name)]
    ensures r.Some? ==> r.value in {0, 10, 20, 30, 40, 50}
  {
    if Upper(name) in LevelTable then Some(LevelTable[Upper(name)]) else None
  }

  /** A value of the options dictionary handed to `logging.basicConfig`. */
  datatype LogOption = Number(n: int) | Text(s: string) | StdoutStream

  /**
   * `init_logging`: the level and output target it configures, or the
   * `ValueError` it raises for a name that is not a level.
   */
  method InitLogging(strLevel: string := "warning", filename: Option<string> := None) returns (r: Result<map<string, LogOption>>)
    ensures r.Err? <==> Upper(strLevel) !in LevelTable
    ensures r.Err? ==> r.error == "Invalid log level: " + strLevel
    ensures r.Ok? ==> r.value.Keys == {"level", if Given(filename) then "filename" else "stream"}
    ensures r.Ok? ==> r.value["level"] == Number(LevelTable[Upper(strLevel)])
    ensures r.Ok? && Given(filename) ==> r.value["filename"] == Text(filename.value)
    ensures r.Ok? && !Given(filename) ==> r.value["stream"] == StdoutStream
  {
    var logOpts: map<string, LogOption> := map[];
    var logLevel := LevelOf(strLevel);
    if logLevel.None? {
      return Err("Invalid log level: " + strLevel);
    }
    logOpts := logOpts["level" := Number(logLevel.value)];
    if Given(filename) {
      logOpts := logOpts["filename" := Text(filename.value)];
    } else {
      logOpts := logOpts["stream" := StdoutStream];
    }
    return Ok(logOpts);
  }

  /** Upper-casing twice is upper-casing once, so a name and its upper-cased form select the same level. */
  lemma LevelIgnoresCase(name: string)
    ensures Upper(Upper(name)) == Upper(name)
    ensures LevelOf(Upper(name)) == LevelOf(name)
  {
  }

  /** Two names that agree character by character once upper-cased select the same level. */
  lemma SameUpperSameLevel(s: string, t: string)
    requires |s| == |t|
    requires forall i :: 0 <= i < |s| ==> UpperChar(s[i]) == UpperChar(t[i])
    ensures LevelOf(s) == LevelOf(t)
  {
    assert Upper(s) == Upper(t);
  }

  /** The names the logging defaults use are accepted in any case; a name that is not a level is refused. */
  lemma KnownAndUnknownNames()
    ensures LevelOf("debug") == Some(10) && LevelOf("info") == Some(20) && LevelOf("warning") == Some(30)
    ensures LevelOf("error") == Some(40) && LevelOf("critical") == Some(50)
    ensures LevelOf("Warning") == Some(30) && LevelOf("WARN") == Some(30) && LevelOf("fatal") == Some(50)
    ensures LevelOf("not-a-level") == None
  {
    assert Upper("debug") == "DEBUG";
    assert Upper("info") == "INFO";
    assert Upper("warning") == "WARNING";
    assert Upper("error") == "ERROR";
    assert Upper("critical") == "CRITICAL";
    assert Upper("Warning") == "WARNING";
    assert Upper("WARN") == "WARN";
    assert Upper("fatal") == "FATAL";
    assert Upper("not-a-level")[3] == '-';
  }

  /** `init_logging()` with its default arguments configures WARNING (30) on standard output. */
  method InitLoggingDefaults() returns (r: Result<map<string, LogOption>>)
    ensures r == Ok(map["level" := Number(30), "stream" := StdoutStream])
  {
    assert Upper("warning") == "WARNING";
    r := InitLogging();
    assert !Given(None) && LevelTable["WARNING"] == 30;
    var expected := map["level" := Number(30), "stream" := StdoutStream];
    assert "level"[0] != "stream"[0];
    assert forall k :: k in r.value <==> k in expected;
    assert r.value == expected;
  }
}
