/** Virtualenv detection over the interpreter facts `path_to_venv` reads. */
module Venv {
  import opened Wrappers

  /**
   * What `path_to_venv` consults: whether the interpreter is Python 2,
   * the optional `sys.real_prefix` that virtualenv sets under Python 2,
   * and `sys.base_prefix` and `sys.prefix` of Python 3.
   */
  datatype Interpreter = Interpreter(py2: bool, realPrefix: Option<string>, basePrefix: string, prefix: string)

  /**
   * `path_to_venv` as written: under Python 2 the `real_prefix` attribute
   * if the interpreter has one; under Python 3 `base_prefix` when it
   * differs from `prefix`. Both name the installation the virtualenv was
   * made from, not the virtualenv itself.
   */
  function PathToVenv(sys: Interpreter): (r: Option<string>)
    ensures sys.py2 ==> r == sys.realPrefix
    ensures !sys.py2 ==> (r.Some? <==> sys.basePrefix != sys.prefix)
    ensures !sys.py2 && r.Some? ==> r.value == sys.basePrefix && r.value != sys.prefix
  {
    if sys.py2 then sys.realPrefix
    else if sys.basePrefix != sys.prefix then Some(sys.basePrefix) else None
  }

  /**
   * The path the docstring of `path_to_venv` promises: the active
   * virtualenv (`sys.prefix`) whenever one is detected, detected by the
   * same tests.
   */
  function ActiveVenv(sys: Interpreter): (r: Option<string>)
    ensures r.Some? <==> PathToVenv(sys).Some?
    ensures r.Some? ==> r.value == sys.prefix
  {
    if PathToVenv(sys).Some? then Some(sys.prefix) else None
  }

  /** Under Python 3, whenever a virtualenv is detected, `path_to_venv` names some other directory than the active one. */
  lemma PathToVenvMissesActiveVenv(sys: Interpreter)
    requires !sys.py2 && PathToVenv(sys).Some?
    ensures PathToVenv(sys) != ActiveVenv(sys)
  {
  }
}
