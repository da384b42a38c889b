/** The `python_centos_venv` configuration section, as the extension reads
    it once the host has validated it and filled in the defaults. */
module VenvConfig {

  datatype Option<T> = None | Some(value: T)

  datatype Config = Config(
    sourceVenv: Option<string>,   // optional path of a pre-built virtualenv to copy
    cmd: string,                  // the executable that creates a virtualenv
    flags: seq<string>,           // flags for creating the virtualenv
    name: string,                 // the installed virtualenv's name (required)
    path: string,                 // the directory the virtualenv is installed in
    python: Option<string>,       // optional interpreter for the new virtualenv
    requirements: seq<string>,    // requirements files, relative to the sources
    pipFlags: seq<string>,        // flags for every `pip install`
    stripBinaries: bool           // strip debug information from native modules
  )

  /** An optional string option is "set" when it is truthy: `None` and the
      empty string are the two falsy values. */
  predicate IsSet(o: Option<string>)
    ensures IsSet(o) <==> o != None && o != Some("")
  {
    o.Some? && o.value != ""
  }

  /** The configuration a user gets by giving only the required `name`. */
  function DefaultConfig(name: string): (c: Config)
    ensures c.name == name
    ensures !IsSet(c.sourceVenv) && !IsSet(c.python)   // create a new virtualenv, default interpreter
    ensures c.cmd == "virtualenv" && c.flags == []
    ensures c.path == "/usr/share/python"
    ensures c.requirements == ["requirements.txt"] && c.pipFlags == []
    ensures c.stripBinaries
  {
    Config(
      sourceVenv := None,
      cmd := "virtualenv",
      flags := [],
      name := name,
      path := "/usr/share/python",
      python := None,
      requirements := ["requirements.txt"],
      pipFlags := [],
      stripBinaries := true)
  }
}
