/** Path strings as the bootstrap code builds them with `os.path.join`. */
module Paths {
  import opened Wrappers

  /** A path argument that Python's `if` accepts: present and not the empty string. */
  predicate Given(p: Option<string>)
  {
    p.Some? && p.value != ""
  }

  predicate StartsWith(s: string, prefix: string)
  {
    |prefix| <= |s| && s[..|prefix|] == prefix
  }

  predicate EndsWith(s: string, suffix: string)
  {
    |suffix| <= |s| && s[|s| - |suffix|..] == suffix
  }

  predicate IsAbsolute(p: string)
  {
    p != "" && p[0] == '/'
  }

  /**
   * POSIX `os.path.join(a, b)`: an absolute `b` replaces `a`; otherwise
   * `b` is appended, with one `/` between them unless `a` is empty or
   * already ends in `/`.
   */
  function Join(a: string, b: string): string
  {
    if IsAbsolute(b) then b
    else if a == "" || a[|a| - 1] == '/' then a + b
    else a + "/" + b
  }

  /** `parent` as `os.path.join` extends it by a relative component: with a trailing `/` unless empty. */
  function JoinSep(parent: string): string
  {
    if parent == "" || parent[|parent| - 1] == '/' then parent else parent + "/"
  }

  /** The joined path ends with its last component; a relative component extends the first. */
  lemma JoinShape(a: string, b: string)
    ensures EndsWith(Join(a, b), b)
    ensures IsAbsolute(b) ==> Join(a, b) == b
    ensures !IsAbsolute(b) ==> StartsWith(Join(a, b), a) && |Join(a, b)| <= |a| + 1 + |b|
    ensures !IsAbsolute(b) ==> Join(a, b) == a + b || Join(a, b) == a + "/" + b
    ensures !IsAbsolute(b) && (a == "" || a[|a| - 1] == '/') ==> Join(a, b) == a + b
    ensures !IsAbsolute(b) && a != "" && a[|a| - 1] != '/' ==> Join(a, b) == a + "/" + b
  {
  }
}
