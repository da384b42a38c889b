/** The mutable package specification the host hands to each extension:
    three string maps and three blocks of lines. */
module RpmSpec {

  /** The named sections of the spec file; each is a list of lines that
      extensions append to. */
  class Blocks {
    var prep: seq<string>
    var install: seq<string>
    var files: seq<string>

    constructor ()
      ensures prep == [] && install == [] && files == []
    {
      prep, install, files := [], [], [];
    }
  }

  class PackageSpec {
    var macros: map<string, string>
    var globals: map<string, string>
    var tags: map<string, string>
    const blocks: Blocks

    constructor ()
      ensures macros == map[] && globals == map[] && tags == map[]
      ensures fresh(blocks)
      ensures blocks.prep == [] && blocks.install == [] && blocks.files == []
    {
      macros, globals, tags := map[], map[], map[];
      blocks := new Blocks();
    }
  }
}
