/** The values that configuration mappings hold. */
module ConfigValues {

  /** A setting's value: Python's `None`, a string, or a number or flag as the INI reader converts it. */
  datatype Value = Null | Text(s: string) | Number(n: int) | Flag(b: bool)

  /**
   * A loaded configuration file. Only its `flexfielddb` section is used,
   * so it is represented by the mapping `get_map('flexfielddb')` returns.
   */
  datatype ConfigFile = ConfigFile(section: map<string, Value>)
}
