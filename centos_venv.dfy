/** The `python_centos_venv` extension: it fills a package specification
    with the macros, tags and build steps that embed a Python virtualenv in
    an RPM.

    The strings it writes are given as templates (see module Template); the
    functions below say what a call writes, and `Generate` does the writing
    in the extension's own order. */
module CentosVenv {
  import opened Text
  import opened Template
  import opened VenvConfig
  import opened RpmSpec

  // ---------------------------------------------------------------------
  // Macro values

  const BuildIdLinksT: Template := [Lit("none")]

  /** `cp -r <source_venv>`: copy a pre-built virtualenv. */
  function CopyCmdT(source: string): Template
  {
    [Lit("cp -r "), Val(source)]
  }

  /** `<cmd> <flags joined by spaces>`; ends in a space when there are no
      flags. */
  function CreateCmdT(cfg: Config): Template
  {
    [Val(cfg.cmd), Lit(" "), Val(Join(cfg.flags, " "))]
  }

  /** The interpreter argument appended to the creation command. */
  function PythonArgT(python: string): Template
  {
    [Lit(" --python="), Val(python)]
  }

  /** The final value of `venv_cmd`. */
  function VenvCmdT(cfg: Config): Template
  {
    if IsSet(cfg.sourceVenv) then CopyCmdT(cfg.sourceVenv.value)
    else if IsSet(cfg.python) then CreateCmdT(cfg) + PythonArgT(cfg.python.value)
    else CreateCmdT(cfg)
  }

  function VenvNameT(cfg: Config): Template
  {
    [Val(cfg.name)]
  }

  function VenvInstallDirT(cfg: Config): Template
  {
    [Val(cfg.path), Lit("/"), Ref("venv_name")]
  }

  const VenvDirT: Template := [Ref("buildroot"), Lit("/"), Ref("venv_install_dir")]
  const VenvBinT: Template := [Ref("venv_dir"), Lit("/bin")]
  const VenvPythonT: Template := [Ref("venv_bin"), Lit("/python")]

  /** `pip install` through the virtualenv's interpreter; ends in a space
      when there are no pip flags. */
  function VenvPipT(cfg: Config): Template
  {
    [Ref("venv_python"), Lit(" "), Ref("venv_bin"), Lit("/pip install "), Val(Join(cfg.pipFlags, " "))]
  }

  const PrelinkUndoT: Template := [Ref("nil")]

  /** The macros a call writes, each with its final value: exactly the
      nine names of `MacroNames`, whatever the configuration. */
  function GeneratedMacros(cfg: Config): (m: map<string, string>)
    ensures m.Keys == MacroNames
  {
    map[
      "_build_id_links" := Render(BuildIdLinksT),
      "venv_cmd" := Render(VenvCmdT(cfg)),
      "venv_name" := Render(VenvNameT(cfg)),
      "venv_install_dir" := Render(VenvInstallDirT(cfg)),
      "venv_dir" := Render(VenvDirT),
      "venv_bin" := Render(VenvBinT),
      "venv_python" := Render(VenvPythonT),
      "venv_pip" := Render(VenvPipT(cfg)),
      "__prelink_undo_cmd" := Render(PrelinkUndoT)
    ]
  }

  /** The template of each macro value. */
  function MacroTemplates(cfg: Config): map<string, Template>
  {
    map[
      "_build_id_links" := BuildIdLinksT,
      "venv_cmd" := VenvCmdT(cfg),
      "venv_name" := VenvNameT(cfg),
      "venv_install_dir" := VenvInstallDirT(cfg),
      "venv_dir" := VenvDirT,
      "venv_bin" := VenvBinT,
      "venv_python" := VenvPythonT,
      "venv_pip" := VenvPipT(cfg),
      "__prelink_undo_cmd" := PrelinkUndoT
    ]
  }

  /** The names of the macros the extension defines. */
  const MacroNames: set<string> := {
    "_build_id_links", "venv_cmd", "venv_name", "venv_install_dir", "venv_dir",
    "venv_bin", "venv_python", "venv_pip", "__prelink_undo_cmd"
  }

  /** Writing a key over a union is writing it into the right operand. */
  lemma UnionUpdate(m: map<string, string>, d: map<string, string>, k: string, v: string)
    ensures (m + d)[k := v] == m + d[k := v]
  {
  }

  // ---------------------------------------------------------------------
  // Globals and tags

  /** Redefines the post-install hook as the host's hook with the
      `brp-python-bytecompile` step cut out by `sed`. */
  const OsInstallPostT: Template := [
    Lit("%(echo '"), Ref("__os_install_post"),
    Lit("' | sed -e 's!/usr/lib[^[:space:]]*/brp-python-bytecompile[[:space:]].*$!!g')")
  ]

  function GeneratedGlobals(): map<string, string>
  {
    map["__os_install_post" := Render(OsInstallPostT)]
  }

  const AutoReqValue := "No"
  const AutoProvValue := "No"
  const BuildRequiresValue := "/usr/bin/pathfix.py"

  function GeneratedTags(): map<string, string>
  {
    map["AutoReq" := AutoReqValue, "AutoProv" := AutoProvValue, "BuildRequires" := BuildRequiresValue]
  }

  // ---------------------------------------------------------------------
  // Block lines

  const PrepT: Template := [Lit("mkdir -p "), Ref("buildroot"), Lit("/"), Ref("venv_install_dir")]
  const FilesT: Template := [Lit("/"), Ref("venv_install_dir")]

  /** Creates the parent of the target directory before a copy. */
  const MkdirParentT: Template := [Lit("mkdir -p `dirname "), Ref("venv_dir"), Lit("`")]
  const CreateT: Template := [Ref("venv_cmd"), Lit(" "), Ref("venv_dir")]
  const CdSourceT: Template := [Lit("cd "), Ref("SOURCE0")]

  /** Installs one requirements file from the sources. */
  function RequirementT(requirement: string): Template
  {
    [Ref("venv_pip"), Lit(" -r "), Ref("SOURCE0"), Lit("/"), Val(requirement)]
  }

  function RequirementTs(requirements: seq<string>): seq<Template>
  {
    seq(|requirements|, i requires 0 <= i < |requirements| => RequirementT(requirements[i]))
  }

  lemma RequirementTsSnoc(requirements: seq<string>, i: nat)
    requires i < |requirements|
    ensures RequirementTs(requirements[..i + 1]) == RequirementTs(requirements[..i]) + [RequirementT(requirements[i])]
  {
  }

  /** Installs the package itself, then removes wheel RECORD files. */
  const SourceInstallTs: seq<Template> := [
    CdSourceT,
    [Ref("venv_python"), Lit(" setup.py install")],
    [Lit("cd -")],
    [Lit("# RECORD files are used by wheels for checksum. They contain path names which")],
    [Lit("# match the buildroot and must be removed or the package will fail to build.")],
    [Lit("find "), Ref("buildroot"), Lit(" -name \"RECORD\" -exec rm -rf {} \\;")],
    [Lit("# Change the virtualenv path to the target installation direcotry.")],
    [Lit("# venvctrl-relocate --source="), Ref("venv_dir"), Lit(" --destination=/"), Ref("venv_install_dir")]
  ]

  /** The comment keeps the source's missing space ("intheir"). */
  const StripCommentT: Template := [Lit("# Strip native modules as they contain buildroot paths intheir debug information")]
  const StripT: Template := [Lit("find "), Ref("venv_dir"), Lit("/lib -type f -name \"*.so\" | xargs -r strip")]
  const StripTs: seq<Template> := [StripCommentT, StripT]

  const SymlinkCommentT: Template := [Lit("# Remove symlink directories (lib64 -> lib)")]
  const SymlinkT: Template := [
    Lit("for link in `find "), Ref("venv_dir"),
    Lit(" -type l` ; do source=`readlink -f $link` ; unlink $link ; cp -r $source $link ; done")
  ]
  /** Rewrites `#!/usr/bin/env python` shebangs to the system interpreter,
      in the files the `grep` pipeline selects under the install directory. */
  const PathfixT: Template := PathfixCmdT + PathfixDirT + PathfixGrepT + PathfixFilterT
  const PathfixCmdT: Template := [Lit("pathfix.py -pni \""), Ref("__python3"), Lit(" "), Ref("py3_shbang_opts"), Lit("\" ")]
  const PathfixDirT: Template := [Ref("buildroot"), Lit("/"), Ref("venv_install_dir")]
  const PathfixGrepT: Template := [
    Lit(" `grep -lr \"^#!/usr/bin/env python$\" "), Ref("buildroot"), Lit("/"), Ref("venv_install_dir")
  ]
  const PathfixFilterT: Template := [Lit(" | grep \"\\.py\" | egrep \"\\-[^/]+$\"`")]
  const FinalTs: seq<Template> := [SymlinkCommentT, SymlinkT, PathfixT]

  /** The lines appended to `install` before the requirements. */
  function InstallHeadTs(cfg: Config): seq<Template>
  {
    (if IsSet(cfg.sourceVenv) then [MkdirParentT] else []) + [CreateT, CdSourceT]
  }

  /** The lines appended to `install` after the requirements. */
  function InstallTailTs(cfg: Config): seq<Template>
  {
    SourceInstallTs + (if cfg.stripBinaries then StripTs else []) + FinalTs
  }

  /** The lines appended to `install`, in order. */
  function InstallTemplates(cfg: Config): seq<Template>
  {
    InstallHeadTs(cfg) + RequirementTs(cfg.requirements) + InstallTailTs(cfg)
  }

  /** The number of lines before the requirement lines: the parent
      directory when copying, then creating and entering. */
  function HeadLength(cfg: Config): nat
  {
    if IsSet(cfg.sourceVenv) then 3 else 2
  }

  /** The number of lines after the requirement lines: eight for the
      source install, two when stripping, three at the end. */
  function TailLength(cfg: Config): nat
  {
    if cfg.stripBinaries then 13 else 11
  }

  /** The lines appended to `install`: the head, one line per
      requirements file, the tail. Their number is one for the parent
      directory when copying, two for creating and entering, one per
      requirements file, eight for the source install, two when stripping
      and three at the end. */
  function InstallLines(cfg: Config): (l: seq<string>)
    ensures |l| == HeadLength(cfg) + |cfg.requirements| + TailLength(cfg)
  {
    RenderAll(InstallHeadTs(cfg)) + RenderAll(RequirementTs(cfg.requirements)) + RenderAll(InstallTailTs(cfg))
  }

  lemma InstallLinesRendered(cfg: Config)
    ensures InstallLines(cfg) == RenderAll(InstallTemplates(cfg))
  {
    RenderAllAppend(InstallHeadTs(cfg), RequirementTs(cfg.requirements));
    RenderAllAppend(InstallHeadTs(cfg) + RequirementTs(cfg.requirements), InstallTailTs(cfg));
  }

  lemma InstallTailRendered(cfg: Config)
    ensures RenderAll(InstallTailTs(cfg))
         == RenderAll(SourceInstallTs) + (if cfg.stripBinaries then RenderAll(StripTs) else []) + RenderAll(FinalTs)
  {
    var strip: seq<Template> := if cfg.stripBinaries then StripTs else [];
    RenderAllAppend(SourceInstallTs, strip);
    RenderAllAppend(SourceInstallTs + strip, FinalTs);
  }

  // ---------------------------------------------------------------------
  // The extension

  /** Writes the virtualenv's macros, globals, tags and build steps into
      `spec` and returns the same object. Keys it does not write keep their
      values; every block keeps its earlier lines as a prefix. */
  method Generate(cfg: Config, spec: PackageSpec) returns (r: PackageSpec)
    modifies spec, spec.blocks
    ensures r == spec
    ensures spec.macros == old(spec.macros) + GeneratedMacros(cfg)
    ensures spec.globals == old(spec.globals) + GeneratedGlobals()
    ensures spec.tags == old(spec.tags) + GeneratedTags()
    ensures spec.blocks.prep == old(spec.blocks.prep) + [Render(PrepT)]
    ensures spec.blocks.files == old(spec.blocks.files) + [Render(FilesT)]
    ensures spec.blocks.install == old(spec.blocks.install) + InstallLines(cfg)
  {
    WriteMacros(cfg, spec);
    WriteGlobalsAndTags(spec);
    spec.blocks.prep := spec.blocks.prep + [Render(PrepT)];
    spec.blocks.files := spec.blocks.files + [Render(FilesT)];
    AppendInstall(cfg, spec.blocks);
    r := spec;
  }

  /** The macro writes of `Generate`, in the source's order; `venv_cmd` is
      written, read back and rewritten when an interpreter is given. */
  method WriteMacros(cfg: Config, spec: PackageSpec)
    modifies spec`macros
    ensures spec.macros == old(spec.macros) + GeneratedMacros(cfg)
  {
    // `written` holds the macros written so far
    ghost var written: map<string, string> := map[];
    assert spec.macros == old(spec.macros) + written;
    UnionUpdate(old(spec.macros), written, "_build_id_links", Render(BuildIdLinksT));
    spec.macros := spec.macros["_build_id_links" := Render(BuildIdLinksT)];
    written := written["_build_id_links" := Render(BuildIdLinksT)];
    if IsSet(cfg.sourceVenv) {
      UnionUpdate(old(spec.macros), written, "venv_cmd", Render(CopyCmdT(cfg.sourceVenv.value)));
      spec.macros := spec.macros["venv_cmd" := Render(CopyCmdT(cfg.sourceVenv.value))];
      written := written["venv_cmd" := Render(CopyCmdT(cfg.sourceVenv.value))];
    } else {
      UnionUpdate(old(spec.macros), written, "venv_cmd", Render(CreateCmdT(cfg)));
      spec.macros := spec.macros["venv_cmd" := Render(CreateCmdT(cfg))];
      written := written["venv_cmd" := Render(CreateCmdT(cfg))];
      if IsSet(cfg.python) {
        // the creation command is read back and extended
        var extended := spec.macros["venv_cmd"] + Render(PythonArgT(cfg.python.value));
        RenderAppend(CreateCmdT(cfg), PythonArgT(cfg.python.value));
        UnionUpdate(old(spec.macros), written, "venv_cmd", extended);
        spec.macros := spec.macros["venv_cmd" := extended];
        written := written["venv_cmd" := extended];
      }
    }
    assert written == map["_build_id_links" := Render(BuildIdLinksT), "venv_cmd" := Render(VenvCmdT(cfg))];
    UnionUpdate(old(spec.macros), written, "venv_name", Render(VenvNameT(cfg)));
    spec.macros := spec.macros["venv_name" := Render(VenvNameT(cfg))];
    written := written["venv_name" := Render(VenvNameT(cfg))];
    UnionUpdate(old(spec.macros), written, "venv_install_dir", Render(VenvInstallDirT(cfg)));
    spec.macros := spec.macros["venv_install_dir" := Render(VenvInstallDirT(cfg))];
    written := written["venv_install_dir" := Render(VenvInstallDirT(cfg))];
    UnionUpdate(old(spec.macros), written, "venv_dir", Render(VenvDirT));
    spec.macros := spec.macros["venv_dir" := Render(VenvDirT)];
    written := written["venv_dir" := Render(VenvDirT)];
    UnionUpdate(old(spec.macros), written, "venv_bin", Render(VenvBinT));
    spec.macros := spec.macros["venv_bin" := Render(VenvBinT)];
    written := written["venv_bin" := Render(VenvBinT)];
    UnionUpdate(old(spec.macros), written, "venv_python", Render(VenvPythonT));
    spec.macros := spec.macros["venv_python" := Render(VenvPythonT)];
    written := written["venv_python" := Render(VenvPythonT)];
    UnionUpdate(old(spec.macros), written, "venv_pip", Render(VenvPipT(cfg)));
    spec.macros := spec.macros["venv_pip" := Render(VenvPipT(cfg))];
    written := written["venv_pip" := Render(VenvPipT(cfg))];
    UnionUpdate(old(spec.macros), written, "__prelink_undo_cmd", Render(PrelinkUndoT));
    spec.macros := spec.macros["__prelink_undo_cmd" := Render(PrelinkUndoT)];
    written := written["__prelink_undo_cmd" := Render(PrelinkUndoT)];
  }

  /** The global and tag writes of `Generate`. */
  method WriteGlobalsAndTags(spec: PackageSpec)
    modifies spec`globals, spec`tags
    ensures spec.globals == old(spec.globals) + GeneratedGlobals()
    ensures spec.tags == old(spec.tags) + GeneratedTags()
  {
    UnionUpdate(old(spec.globals), map[], "__os_install_post", Render(OsInstallPostT));
    spec.globals := spec.globals["__os_install_post" := Render(OsInstallPostT)];

    // `written` holds the tags written so far
    ghost var written: map<string, string> := map[];
    assert spec.tags == old(spec.tags) + written;
    UnionUpdate(old(spec.tags), written, "AutoReq", AutoReqValue);
    spec.tags := spec.tags["AutoReq" := AutoReqValue];
    written := written["AutoReq" := AutoReqValue];
    UnionUpdate(old(spec.tags), written, "AutoProv", AutoProvValue);
    spec.tags := spec.tags["AutoProv" := AutoProvValue];
    written := written["AutoProv" := AutoProvValue];
    UnionUpdate(old(spec.tags), written, "BuildRequires", BuildRequiresValue);
    spec.tags := spec.tags["BuildRequires" := BuildRequiresValue];
    written := written["BuildRequires" := BuildRequiresValue];
  }

  /** The `install` appends of `Generate`. */
  method AppendInstall(cfg: Config, blocks: Blocks)
    modifies blocks`install
    ensures blocks.install == old(blocks.install) + InstallLines(cfg)
  {
    AppendInstallHead(cfg, blocks);
    AppendRequirements(cfg.requirements, blocks);
    AppendInstallTail(cfg, blocks);
    AppendThree(old(blocks.install), blocks.install, RenderAll(InstallHeadTs(cfg)),
      RenderAll(RequirementTs(cfg.requirements)), RenderAll(InstallTailTs(cfg)), InstallLines(cfg));
  }

  /** The `install` appends of `Generate` before the requirements. */
  method AppendInstallHead(cfg: Config, blocks: Blocks)
    modifies blocks`install
    ensures blocks.install == old(blocks.install) + RenderAll(InstallHeadTs(cfg))
  {
    if IsSet(cfg.sourceVenv) {
      blocks.install := blocks.install + [Render(MkdirParentT)];
    }
    blocks.install := blocks.install + [Render(CreateT)];
    blocks.install := blocks.install + [Render(CdSourceT)];
  }

  /** The loop of `Generate`: one `pip install -r` line per requirements
      file, in the configured order. */
  method AppendRequirements(requirements: seq<string>, blocks: Blocks)
    modifies blocks`install
    ensures blocks.install == old(blocks.install) + RenderAll(RequirementTs(requirements))
  {
    var i := 0;
    while i < |requirements|
      invariant 0 <= i <= |requirements|
      invariant blocks.install == old(blocks.install) + RenderAll(RequirementTs(requirements[..i]))
    {
      RequirementTsSnoc(requirements, i);
      AppendRendered(old(blocks.install), blocks.install, RequirementTs(requirements[..i]), [RequirementT(requirements[i])]);
      blocks.install := blocks.install + [Render(RequirementT(requirements[i]))];
      i := i + 1;
    }
    assert requirements[..i] == requirements;
  }

  /** The `install` appends of `Generate` after the requirements. */
  method AppendInstallTail(cfg: Config, blocks: Blocks)
    modifies blocks`install
    ensures blocks.install == old(blocks.install) + RenderAll(InstallTailTs(cfg))
  {
    ghost var strip: seq<string> := if cfg.stripBinaries then RenderAll(StripTs) else [];
    blocks.install := blocks.install + RenderAll(SourceInstallTs);
    if cfg.stripBinaries {
      blocks.install := blocks.install + RenderAll(StripTs);
    }
    assert blocks.install == old(blocks.install) + RenderAll(SourceInstallTs) + strip;
    blocks.install := blocks.install + RenderAll(FinalTs);
    InstallTailRendered(cfg);
    AppendThree(old(blocks.install), blocks.install, RenderAll(SourceInstallTs), strip, RenderAll(FinalTs), RenderAll(InstallTailTs(cfg)));
  }
}
