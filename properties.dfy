/** What a call of `Generate` writes, stated in the extension's own terms:
    the values of the macros, the layout of the `install` section, and that
    every macro a written string refers to is defined. */
module CentosVenvProperties {
  import opened Text
  import opened Template
  import opened VenvConfig
  import opened CentosVenv

  // ---------------------------------------------------------------------
  // Macros

  /** With a pre-built virtualenv, `venv_cmd` copies it, whatever the
      creation settings are. */
  lemma VenvCmdCopies(cfg: Config)
    requires IsSet(cfg.sourceVenv)
    ensures GeneratedMacros(cfg)["venv_cmd"] == "cp -r " + cfg.sourceVenv.value
  {
    Render2(Lit("cp -r "), Val(cfg.sourceVenv.value));
  }

  /** Otherwise `venv_cmd` creates a virtualenv with the configured command
      and flags, and names the interpreter exactly when one is given. */
  lemma VenvCmdCreates(cfg: Config)
    requires !IsSet(cfg.sourceVenv)
    ensures IsSet(cfg.python) ==>
      GeneratedMacros(cfg)["venv_cmd"] == cfg.cmd + " " + Join(cfg.flags, " ") + " --python=" + cfg.python.value
    ensures !IsSet(cfg.python) ==>
      GeneratedMacros(cfg)["venv_cmd"] == cfg.cmd + " " + Join(cfg.flags, " ")
  {
    Render3(Val(cfg.cmd), Lit(" "), Val(Join(cfg.flags, " ")));
    if IsSet(cfg.python) {
      Render2(Lit(" --python="), Val(cfg.python.value));
      RenderAppend(CreateCmdT(cfg), PythonArgT(cfg.python.value));
    }
  }

  /** Without flags the creation command keeps the space that would have
      separated it from them; `venv_pip` likewise without pip flags. */
  lemma TrailingSpaces(cfg: Config)
    ensures !IsSet(cfg.sourceVenv) && !IsSet(cfg.python) && cfg.flags == [] ==>
      GeneratedMacros(cfg)["venv_cmd"] == cfg.cmd + " "
    ensures cfg.pipFlags == [] ==>
      GeneratedMacros(cfg)["venv_pip"] == MacroRef("venv_python") + " " + MacroRef("venv_bin") + "/pip install "
  {
    if !IsSet(cfg.sourceVenv) {
      VenvCmdCreates(cfg);
    }
    PipMacro(cfg);
  }

  /** `venv_name` and `venv_install_dir`: the configured name under the
      configured directory. */
  lemma InstallDirMacros(cfg: Config)
    ensures GeneratedMacros(cfg)["venv_name"] == cfg.name
    ensures GeneratedMacros(cfg)["venv_install_dir"] == cfg.path + "/" + MacroRef("venv_name")
  {
    Render1(Val(cfg.name));
    Render3(Val(cfg.path), Lit("/"), Ref("venv_name"));
  }

  /** The directory macros build the target path out of one another. */
  lemma PathMacros(cfg: Config)
    ensures GeneratedMacros(cfg)["venv_dir"] == MacroRef("buildroot") + "/" + MacroRef("venv_install_dir")
    ensures GeneratedMacros(cfg)["venv_bin"] == MacroRef("venv_dir") + "/bin"
    ensures GeneratedMacros(cfg)["venv_python"] == MacroRef("venv_bin") + "/python"
  {
    Render3(Ref("buildroot"), Lit("/"), Ref("venv_install_dir"));
    Render2(Ref("venv_dir"), Lit("/bin"));
    Render2(Ref("venv_bin"), Lit("/python"));
  }

  /** `venv_pip` runs pip through the virtualenv's interpreter with the
      configured pip flags. */
  lemma PipMacro(cfg: Config)
    ensures GeneratedMacros(cfg)["venv_pip"]
         == MacroRef("venv_python") + " " + MacroRef("venv_bin") + "/pip install " + Join(cfg.pipFlags, " ")
  {
    Render5(Ref("venv_python"), Lit(" "), Ref("venv_bin"), Lit("/pip install "), Val(Join(cfg.pipFlags, " ")));
  }

  /** The macros written whatever the configuration. */
  lemma FixedMacros(cfg: Config)
    ensures GeneratedMacros(cfg)["_build_id_links"] == "none"
    ensures GeneratedMacros(cfg)["__prelink_undo_cmd"] == MacroRef("nil")
  {
    Render1(Lit("none"));
    Render1(Ref("nil"));
  }

  /** The tags and the redefined post-install hook. */
  lemma TagsAndGlobals()
    ensures GeneratedTags() == map["AutoReq" := "No", "AutoProv" := "No", "BuildRequires" := "/usr/bin/pathfix.py"]
    ensures GeneratedGlobals().Keys == {"__os_install_post"}
    ensures GeneratedGlobals()["__os_install_post"]
         == "%(echo '" + MacroRef("__os_install_post") + "' | sed -e 's!/usr/lib[^[:space:]]*/brp-python-bytecompile[[:space:]].*$!!g')"
  {
    Render3(OsInstallPostT[0], OsInstallPostT[1], OsInstallPostT[2]);
  }

  /** Every macro value is the rendering of its template. */
  lemma MacrosRenderTemplates(cfg: Config)
    ensures GeneratedMacros(cfg).Keys == MacroTemplates(cfg).Keys
    ensures forall k :: k in MacroTemplates(cfg) ==> GeneratedMacros(cfg)[k] == Render(MacroTemplates(cfg)[k])
  {
  }

  /** A key the extension does not write keeps its presence and value. */
  lemma UnwrittenKeysKept(m: map<string, string>, cfg: Config, k: string)
    requires k !in MacroNames
    ensures k in m + GeneratedMacros(cfg) <==> k in m
    ensures k in m ==> (m + GeneratedMacros(cfg))[k] == m[k]
  {
  }

  // ---------------------------------------------------------------------
  // The install section


  /** The copy of a pre-built virtualenv starts by creating the target's
      parent directory; then come the creation (or copy) command and the
      move into the sources. */
  lemma InstallHead(cfg: Config)
    ensures IsSet(cfg.sourceVenv) ==>
      InstallLines(cfg)[0] == "mkdir -p `dirname " + MacroRef("venv_dir") + "`"
    ensures InstallLines(cfg)[HeadLength(cfg) - 2] == MacroRef("venv_cmd") + " " + MacroRef("venv_dir")
    ensures InstallLines(cfg)[HeadLength(cfg) - 1] == "cd " + MacroRef("SOURCE0")
  {
    Render3(Lit("mkdir -p `dirname "), Ref("venv_dir"), Lit("`"));
    Render3(Ref("venv_cmd"), Lit(" "), Ref("venv_dir"));
    Render2(Lit("cd "), Ref("SOURCE0"));
  }

  /** The line that installs one requirements file. */
  lemma RequirementLine(requirement: string)
    ensures Render(RequirementT(requirement))
         == MacroRef("venv_pip") + " -r " + MacroRef("SOURCE0") + "/" + requirement
  {
    Render5(Ref("venv_pip"), Lit(" -r "), Ref("SOURCE0"), Lit("/"), Val(requirement));
  }

  /** Right after the head, one line per requirements file, in the
      configured order. */
  lemma RequirementLines(cfg: Config)
    ensures forall i :: 0 <= i < |cfg.requirements| ==>
      InstallLines(cfg)[HeadLength(cfg) + i]
        == MacroRef("venv_pip") + " -r " + MacroRef("SOURCE0") + "/" + cfg.requirements[i]
  {
    var lines := RenderAll(RequirementTs(cfg.requirements));
    RequirementsRendered(cfg.requirements);
    MiddleAt(InstallLines(cfg), RenderAll(InstallHeadTs(cfg)), lines, RenderAll(InstallTailTs(cfg)), HeadLength(cfg));
  }

  lemma RequirementsRendered(reqs: seq<string>)
    ensures var lines := RenderAll(RequirementTs(reqs));
      |lines| == |reqs| &&
      forall i :: 0 <= i < |reqs| ==>
        lines[i] == MacroRef("venv_pip") + " -r " + MacroRef("SOURCE0") + "/" + reqs[i]
  {
    forall i | 0 <= i < |reqs|
      ensures RenderAll(RequirementTs(reqs))[i]
           == MacroRef("venv_pip") + " -r " + MacroRef("SOURCE0") + "/" + reqs[i]
    {
      RequirementLine(reqs[i]);
    }
  }

  /** Where the middle part of a three-part concatenation sits. */
  lemma MiddleAt(l: seq<string>, h: seq<string>, m: seq<string>, t: seq<string>, n: nat)
    requires l == h + m + t && |h| == n
    ensures forall k :: 0 <= k < |m| ==> l[n + k] == m[k]
  {
  }

  /** The lines that install the package from its sources and remove the
      wheel RECORD files. */
  lemma SourceInstallRendered()
    ensures var l := RenderAll(SourceInstallTs);
      && l[0] == "cd " + MacroRef("SOURCE0")
      && l[1] == MacroRef("venv_python") + " setup.py install"
      && l[2] == "cd -"
      && l[3] == "# RECORD files are used by wheels for checksum. They contain path names which"
      && l[4] == "# match the buildroot and must be removed or the package will fail to build."
      && l[5] == "find " + MacroRef("buildroot") + " -name \"RECORD\" -exec rm -rf {} \\;"
      && l[6] == "# Change the virtualenv path to the target installation direcotry."
      && l[7] == "# venvctrl-relocate --source=" + MacroRef("venv_dir") + " --destination=/" + MacroRef("venv_install_dir")
  {
    Render2(Lit("cd "), Ref("SOURCE0"));
    Render2(Ref("venv_python"), Lit(" setup.py install"));
    Render1(Lit("cd -"));
    Render1(SourceInstallTs[3][0]);
    Render1(SourceInstallTs[4][0]);
    Render3(Lit("find "), Ref("buildroot"), Lit(" -name \"RECORD\" -exec rm -rf {} \\;"));
    Render1(SourceInstallTs[6][0]);
    Render4(Lit("# venvctrl-relocate --source="), Ref("venv_dir"), Lit(" --destination=/"), Ref("venv_install_dir"));
  }

  /** The line that strips native modules. */
  const StripLine: string := "find " + MacroRef("venv_dir") + "/lib -type f -name \"*.so\" | xargs -r strip"

  /** The strip comment (with the source's missing space) and the strip
      line. */
  lemma StripRendered()
    ensures RenderAll(StripTs)
         == ["# Strip native modules as they contain buildroot paths intheir debug information", StripLine]
  {
    Render1(StripCommentT[0]);
    Render3(StripT[0], StripT[1], StripT[2]);
  }

  /** The shebang rewrite: `pathfix.py` over the installed virtualenv's
      files whose `#!/usr/bin/env python` line it replaces. */
  const PathfixLine: string := PathfixCmd + PathfixDir + PathfixGrep + PathfixFilter
  const PathfixCmd: string := "pathfix.py -pni \"" + MacroRef("__python3") + " " + MacroRef("py3_shbang_opts") + "\" "
  const PathfixDir: string := MacroRef("buildroot") + "/" + MacroRef("venv_install_dir")
  const PathfixGrep: string := " `grep -lr \"^#!/usr/bin/env python$\" " + PathfixDir
  const PathfixFilter: string := " | grep \"\\.py\" | egrep \"\\-[^/]+$\"`"

  lemma RenderFour(a: Template, b: Template, c: Template, d: Template)
    ensures Render(a + b + c + d) == Render(a) + Render(b) + Render(c) + Render(d)
  {
    RenderAppend(a + b + c, d);
    RenderAppend(a + b, c);
    RenderAppend(a, b);
  }

  lemma PathfixRendered()
    ensures Render(PathfixT) == PathfixLine
  {
    RenderFour(PathfixCmdT, PathfixDirT, PathfixGrepT, PathfixFilterT);
    Render5(PathfixCmdT[0], PathfixCmdT[1], PathfixCmdT[2], PathfixCmdT[3], PathfixCmdT[4]);
    Render3(PathfixDirT[0], PathfixDirT[1], PathfixDirT[2]);
    Render4(PathfixGrepT[0], PathfixGrepT[1], PathfixGrepT[2], PathfixGrepT[3]);
    Render1(PathfixFilterT[0]);
  }

  /** The symlink comment, the symlink replacement and the shebang
      rewrite. */
  lemma FinalRendered()
    ensures var l := RenderAll(FinalTs);
      && l[0] == "# Remove symlink directories (lib64 -> lib)"
      && l[1] == "for link in `find " + MacroRef("venv_dir")
                 + " -type l` ; do source=`readlink -f $link` ; unlink $link ; cp -r $source $link ; done"
      && l[2] == PathfixLine
  {
    Render1(SymlinkCommentT[0]);
    Render3(SymlinkT[0], SymlinkT[1], SymlinkT[2]);
    PathfixRendered();
  }

  /** Where the parts of a five-part concatenation sit. */
  lemma PartsAt(l: seq<string>, h: seq<string>, r: seq<string>, s: seq<string>, x: seq<string>, f: seq<string>)
    requires l == h + r + (s + x + f)
    ensures forall k :: 0 <= k < |s| ==> l[|h| + |r| + k] == s[k]
    ensures forall k :: 0 <= k < |x| ==> l[|l| - |f| - |x| + k] == x[k]
    ensures forall k :: 0 <= k < |f| ==> l[|l| - |f| + k] == f[k]
  {
  }

  /** After the requirements: install the package from its sources and
      remove the wheel RECORD files. */
  lemma SourceInstallLines(cfg: Config)
    ensures var l, b := InstallLines(cfg), HeadLength(cfg) + |cfg.requirements|;
      && l[b] == "cd " + MacroRef("SOURCE0")
      && l[b + 1] == MacroRef("venv_python") + " setup.py install"
      && l[b + 2] == "cd -"
      && l[b + 5] == "find " + MacroRef("buildroot") + " -name \"RECORD\" -exec rm -rf {} \\;"
      && l[b + 7] == "# venvctrl-relocate --source=" + MacroRef("venv_dir") + " --destination=/" + MacroRef("venv_install_dir")
  {
    var strip := if cfg.stripBinaries then RenderAll(StripTs) else [];
    InstallTailRendered(cfg);
    PartsAt(InstallLines(cfg), RenderAll(InstallHeadTs(cfg)), RenderAll(RequirementTs(cfg.requirements)),
            RenderAll(SourceInstallTs), strip, RenderAll(FinalTs));
    SourceInstallRendered();
  }

  /** Between those commands, the comments on the RECORD files and on the
      relocation of the virtualenv. */
  lemma SourceInstallComments(cfg: Config)
    ensures var l, b := InstallLines(cfg), HeadLength(cfg) + |cfg.requirements|;
      && l[b + 3] == "# RECORD files are used by wheels for checksum. They contain path names which"
      && l[b + 4] == "# match the buildroot and must be removed or the package will fail to build."
      && l[b + 6] == "# Change the virtualenv path to the target installation direcotry."
  {
    var strip := if cfg.stripBinaries then RenderAll(StripTs) else [];
    InstallTailRendered(cfg);
    PartsAt(InstallLines(cfg), RenderAll(InstallHeadTs(cfg)), RenderAll(RequirementTs(cfg.requirements)),
            RenderAll(SourceInstallTs), strip, RenderAll(FinalTs));
    SourceInstallRendered();
  }

  /** The last three lines are always the symlink comment, the symlink
      replacement and the shebang rewrite. */
  lemma InstallEnd(cfg: Config)
    ensures var l := InstallLines(cfg);
      && l[|l| - 3] == "# Remove symlink directories (lib64 -> lib)"
      && l[|l| - 2] == "for link in `find " + MacroRef("venv_dir")
                       + " -type l` ; do source=`readlink -f $link` ; unlink $link ; cp -r $source $link ; done"
      && l[|l| - 1] == PathfixLine
  {
    var strip := if cfg.stripBinaries then RenderAll(StripTs) else [];
    InstallTailRendered(cfg);
    PartsAt(InstallLines(cfg), RenderAll(InstallHeadTs(cfg)), RenderAll(RequirementTs(cfg.requirements)),
            RenderAll(SourceInstallTs), strip, RenderAll(FinalTs));
    FinalRendered();
  }

  /** With stripping on, the strip comment and the strip line come right
      before the last three lines. */
  lemma StripBeforeEnd(cfg: Config)
    requires cfg.stripBinaries
    ensures var l := InstallLines(cfg);
      && l[|l| - 5] == "# Strip native modules as they contain buildroot paths intheir debug information"
      && l[|l| - 4] == StripLine
  {
    InstallTailRendered(cfg);
    PartsAt(InstallLines(cfg), RenderAll(InstallHeadTs(cfg)), RenderAll(RequirementTs(cfg.requirements)),
            RenderAll(SourceInstallTs), RenderAll(StripTs), RenderAll(FinalTs));
    StripRendered();
  }

  /** The line that creates the parent of the target directory. */
  const MkdirParentLine: string := "mkdir -p `dirname " + MacroRef("venv_dir") + "`"

  /** Two strings that differ at some index differ. */
  lemma DifferAt(a: string, b: string, i: nat)
    requires i < |a| && i < |b| && a[i] != b[i]
    ensures a != b
  {
  }

  /** Two strings whose last characters differ differ. */
  lemma DifferAtEnd(a: string, b: string)
    requires |a| > 0 && |b| > 0 && a[|a| - 1] != b[|b| - 1]
    ensures a != b
  {
  }

  /** The source install lines hold neither the parent-directory line nor
      the strip line: each ends in a different character. */
  lemma SourceInstallAvoids()
    ensures MkdirParentLine !in RenderAll(SourceInstallTs)
    ensures StripLine !in RenderAll(SourceInstallTs)
  {
    var l := RenderAll(SourceInstallTs);
    SourceInstallRendered();
    forall k | 0 <= k < |l|
      ensures l[k] != MkdirParentLine && l[k] != StripLine
    {
      if k == 0 { Unequal(l[0], '}'); }
      else if k == 1 { Unequal(l[1], 'l'); }
      else if k == 2 { Unequal(l[2], '-'); }
      else if k == 3 { Unequal(l[3], 'h'); }
      else if k == 4 { Unequal(l[4], '.'); }
      else if k == 5 { Unequal(l[5], ';'); }
      else if k == 6 { Unequal(l[6], '.'); }
      else { Unequal(l[7], '}'); }
    }
  }

  /** A line ending in `last` is neither the parent-directory line nor the
      strip line, when `last` is neither of their last characters. */
  lemma Unequal(line: string, last: char)
    requires |line| > 0 && line[|line| - 1] == last && last != '`' && last != 'p'
    ensures line != MkdirParentLine && line != StripLine
  {
    DifferAtEnd(line, MkdirParentLine);
    DifferAtEnd(line, StripLine);
  }

  /** The last three lines hold neither the parent-directory line nor the
      strip line. */
  lemma FinalAvoids()
    ensures MkdirParentLine !in RenderAll(FinalTs)
    ensures StripLine !in RenderAll(FinalTs)
  {
    var l := RenderAll(FinalTs);
    FinalRendered();
    Unequal(l[0], ')');
    Unequal(l[1], 'e');
    PathfixDiffers();
    NotAmongThree(l, MkdirParentLine);
    NotAmongThree(l, StripLine);
  }

  /** A string unequal to each of three elements is not among them. */
  lemma NotAmongThree(l: seq<string>, w: string)
    requires |l| == 3 && l[0] != w && l[1] != w && l[2] != w
    ensures w !in l
  {
  }

  /** The shebang rewrite starts with `p`, which neither line does. */
  lemma PathfixDiffers()
    ensures Render(PathfixT) != MkdirParentLine && Render(PathfixT) != StripLine
  {
    RenderFirstChar(PathfixT);
    DifferAt(Render(PathfixT), MkdirParentLine, 0);
    DifferAt(Render(PathfixT), StripLine, 0);
  }

  /** The strip block holds the strip line once and no parent-directory
      line. */
  lemma StripCounts()
    ensures multiset(RenderAll(StripTs))[StripLine] == 1
    ensures MkdirParentLine !in RenderAll(StripTs)
  {
    StripRendered();
    Unequal(RenderAll(StripTs)[0], 'n');
  }

  /** The lines before the requirements hold no strip line. */
  lemma HeadAvoidsStrip(cfg: Config)
    ensures StripLine !in RenderAll(InstallHeadTs(cfg))
  {
    var l := RenderAll(InstallHeadTs(cfg));
    var h := HeadLength(cfg);
    Render3(Lit("mkdir -p `dirname "), Ref("venv_dir"), Lit("`"));
    Render3(Ref("venv_cmd"), Lit(" "), Ref("venv_dir"));
    Render2(Lit("cd "), Ref("SOURCE0"));
    Unequal(l[h - 2], '}');
    Unequal(l[h - 1], '}');
    if IsSet(cfg.sourceVenv) {
      DifferAtEnd(l[0], StripLine);
    }
  }

  /** The lines before the requirements hold the parent-directory line
      once when copying and not otherwise. */
  lemma HeadCountsMkdirParent(cfg: Config)
    ensures multiset(RenderAll(InstallHeadTs(cfg)))[MkdirParentLine] == if IsSet(cfg.sourceVenv) then 1 else 0
  {
    var l := RenderAll(InstallHeadTs(cfg));
    var h := HeadLength(cfg);
    Render3(Lit("mkdir -p `dirname "), Ref("venv_dir"), Lit("`"));
    Render3(Ref("venv_cmd"), Lit(" "), Ref("venv_dir"));
    Render2(Lit("cd "), Ref("SOURCE0"));
    Unequal(l[h - 2], '}');
    Unequal(l[h - 1], '}');
    if IsSet(cfg.sourceVenv) {
      assert l == [MkdirParentLine] + l[1..];
      assert MkdirParentLine !in l[1..];
    } else {
      assert MkdirParentLine !in l;
    }
  }

  /** Requirement lines start with `%`, which neither the
      parent-directory line nor the strip line does. */
  lemma RequirementsAvoid(requirements: seq<string>)
    ensures MkdirParentLine !in RenderAll(RequirementTs(requirements))
    ensures StripLine !in RenderAll(RequirementTs(requirements))
  {
    var l := RenderAll(RequirementTs(requirements));
    forall k | 0 <= k < |l|
      ensures l[k] != MkdirParentLine && l[k] != StripLine
    {
      RequirementLine(requirements[k]);
      DifferAt(l[k], MkdirParentLine, 0);
      DifferAt(l[k], StripLine, 0);
    }
  }

  /** How often a line occurs in a five-part concatenation when it can
      only occur in the first and fourth parts. */
  lemma CountParts(l: seq<string>, h: seq<string>, r: seq<string>, s: seq<string>, x: seq<string>, f: seq<string>,
                   w: string, n: nat)
    requires l == h + r + (s + x + f)
    requires w !in r && w !in s && w !in f
    requires multiset(h)[w] + multiset(x)[w] == n
    ensures multiset(l)[w] == n
    ensures w in l <==> n > 0
  {
    assert multiset(r)[w] == 0 && multiset(s)[w] == 0 && multiset(f)[w] == 0;
  }

  /** The parent-directory line is written once when a pre-built
      virtualenv is copied, and not at all otherwise. */
  lemma MkdirParentExactlyWhenCopying(cfg: Config)
    ensures multiset(InstallLines(cfg))[MkdirParentLine] == if IsSet(cfg.sourceVenv) then 1 else 0
    ensures MkdirParentLine in InstallLines(cfg) <==> IsSet(cfg.sourceVenv)
  {
    var strip := if cfg.stripBinaries then RenderAll(StripTs) else [];
    InstallTailRendered(cfg);
    HeadCountsMkdirParent(cfg);
    RequirementsAvoid(cfg.requirements);
    SourceInstallAvoids();
    StripCounts();
    FinalAvoids();
    CountParts(InstallLines(cfg), RenderAll(InstallHeadTs(cfg)), RenderAll(RequirementTs(cfg.requirements)),
               RenderAll(SourceInstallTs), strip, RenderAll(FinalTs), MkdirParentLine,
               if IsSet(cfg.sourceVenv) then 1 else 0);
  }

  /** The strip line is written once when stripping is on, and not at all
      otherwise. */
  lemma StripLineExactlyWhenStripping(cfg: Config)
    ensures multiset(InstallLines(cfg))[StripLine] == if cfg.stripBinaries then 1 else 0
    ensures StripLine in InstallLines(cfg) <==> cfg.stripBinaries
  {
    var strip := if cfg.stripBinaries then RenderAll(StripTs) else [];
    InstallTailRendered(cfg);
    HeadAvoidsStrip(cfg);
    RequirementsAvoid(cfg.requirements);
    SourceInstallAvoids();
    StripCounts();
    FinalAvoids();
    CountParts(InstallLines(cfg), RenderAll(InstallHeadTs(cfg)), RenderAll(RequirementTs(cfg.requirements)),
               RenderAll(SourceInstallTs), strip, RenderAll(FinalTs), StripLine,
               if cfg.stripBinaries then 1 else 0);
  }

  // ---------------------------------------------------------------------
  // References

  /** Macros the host defines: the build root, the unpacked sources, the
      system interpreter and its shebang options, the empty macro, and the
      host's own post-install hook. */
  const HostMacros: set<string> := {"buildroot", "SOURCE0", "__python3", "py3_shbang_opts", "nil", "__os_install_post"}

  /** The macros each macro value references. */
  lemma MacroRefs(cfg: Config)
    ensures Refs(BuildIdLinksT) == {}
    ensures Refs(VenvCmdT(cfg)) == {}
    ensures Refs(VenvNameT(cfg)) == {}
    ensures Refs(VenvInstallDirT(cfg)) == {"venv_name"}
    ensures Refs(VenvDirT) == {"buildroot", "venv_install_dir"}
    ensures Refs(VenvBinT) == {"venv_dir"}
    ensures Refs(VenvPythonT) == {"venv_bin"}
    ensures Refs(VenvPipT(cfg)) == {"venv_python", "venv_bin"}
    ensures Refs(PrelinkUndoT) == {"nil"}
  {
    Refs1(BuildIdLinksT[0]);
    if IsSet(cfg.sourceVenv) {
      Refs2(Lit("cp -r "), Val(cfg.sourceVenv.value));
    } else {
      Refs3(Val(cfg.cmd), Lit(" "), Val(Join(cfg.flags, " ")));
      if IsSet(cfg.python) {
        Refs2(Lit(" --python="), Val(cfg.python.value));
        RefsAppend(CreateCmdT(cfg), PythonArgT(cfg.python.value));
      }
    }
    Refs1(Val(cfg.name));
    Refs3(Val(cfg.path), Lit("/"), Ref("venv_name"));
    Refs3(Ref("buildroot"), Lit("/"), Ref("venv_install_dir"));
    Refs2(Ref("venv_dir"), Lit("/bin"));
    Refs2(Ref("venv_bin"), Lit("/python"));
    Refs5(Ref("venv_python"), Lit(" "), Ref("venv_bin"), Lit("/pip install "), Val(Join(cfg.pipFlags, " ")));
    Refs1(Ref("nil"));
  }

  /** Every macro referenced by a written macro value is defined after the
      call, by the extension or by the host. */
  lemma MacroValuesRefsDefined(cfg: Config)
    ensures forall k :: k in MacroTemplates(cfg) ==> Refs(MacroTemplates(cfg)[k]) <= MacroNames + HostMacros
  {
    MacroRefs(cfg);
  }

  /** Every macro referenced by the global, the `prep` line and the `files`
      line is defined after the call. */
  lemma OtherRefsDefined()
    ensures Refs(OsInstallPostT) <= HostMacros
    ensures Refs(PrepT) <= MacroNames + HostMacros
    ensures Refs(FilesT) <= MacroNames + HostMacros
  {
  }

  /** Every template of `ts` references only macros in `names`. */
  predicate RefsWithin(ts: seq<Template>, names: set<string>)
  {
    forall i :: 0 <= i < |ts| ==> Refs(ts[i]) <= names
  }

  lemma RefsWithinAppend(a: seq<Template>, b: seq<Template>, names: set<string>)
    requires RefsWithin(a, names) && RefsWithin(b, names)
    ensures RefsWithin(a + b, names)
  {
    forall i | 0 <= i < |a + b|
      ensures Refs((a + b)[i]) <= names
    {
      if i < |a| {
        assert (a + b)[i] == a[i];
      } else {
        assert (a + b)[i] == b[i - |a|];
      }
    }
  }

  lemma HeadRefs(cfg: Config)
    ensures RefsWithin(InstallHeadTs(cfg), MacroNames + HostMacros)
  {
  }

  lemma RequirementRefs(requirements: seq<string>)
    ensures RefsWithin(RequirementTs(requirements), MacroNames + HostMacros)
  {
  }

  lemma SourceInstallRefs()
    ensures RefsWithin(SourceInstallTs, MacroNames + HostMacros)
  {
  }

  lemma StripAndFinalRefs()
    ensures RefsWithin(StripTs, MacroNames + HostMacros)
    ensures RefsWithin(FinalTs, MacroNames + HostMacros)
  {
  }

  /** Every macro referenced by an `install` line is defined after the
      call. */
  lemma InstallRefsDefined(cfg: Config)
    ensures forall t :: t in InstallTemplates(cfg) ==> Refs(t) <= MacroNames + HostMacros
  {
    var names := MacroNames + HostMacros;
    var strip: seq<Template> := if cfg.stripBinaries then StripTs else [];
    HeadRefs(cfg);
    RequirementRefs(cfg.requirements);
    SourceInstallRefs();
    StripAndFinalRefs();
    RefsWithinAppend(InstallHeadTs(cfg), RequirementTs(cfg.requirements), names);
    RefsWithinAppend(SourceInstallTs, strip, names);
    RefsWithinAppend(SourceInstallTs + strip, FinalTs, names);
    RefsWithinAppend(InstallHeadTs(cfg) + RequirementTs(cfg.requirements), InstallTailTs(cfg), names);
  }

  /** The references tracked above are the ones in the written text: each
      shows up, in RPM syntax, in the string written for its template. */
  lemma RefsAppearInText(cfg: Config)
    ensures forall k, n :: k in MacroTemplates(cfg) && n in Refs(MacroTemplates(cfg)[k]) ==>
      Contains(GeneratedMacros(cfg)[k], MacroRef(n))
    ensures forall i, n :: 0 <= i < |InstallTemplates(cfg)| && n in Refs(InstallTemplates(cfg)[i]) ==>
      Contains(InstallLines(cfg)[i], MacroRef(n))
  {
    MacrosRenderTemplates(cfg);
    InstallLinesRendered(cfg);
    forall k, n | k in MacroTemplates(cfg) && n in Refs(MacroTemplates(cfg)[k])
      ensures Contains(GeneratedMacros(cfg)[k], MacroRef(n))
    {
      RefIsRendered(MacroTemplates(cfg)[k], n);
    }
    forall i, n | 0 <= i < |InstallTemplates(cfg)| && n in Refs(InstallTemplates(cfg)[i])
      ensures Contains(InstallLines(cfg)[i], MacroRef(n))
    {
      RefIsRendered(InstallTemplates(cfg)[i], n);
    }
  }

  // ---------------------------------------------------------------------
  // Copying a pre-built virtualenv

  /** When a pre-built virtualenv is copied, the creation command, its
      flags and the interpreter have no effect on what is written. */
  lemma CopyIgnoresCreationSettings(cfg: Config, cmd: string, flags: seq<string>, python: Option<string>)
    requires IsSet(cfg.sourceVenv)
    ensures GeneratedMacros(cfg.(cmd := cmd, flags := flags, python := python)) == GeneratedMacros(cfg)
    ensures InstallLines(cfg.(cmd := cmd, flags := flags, python := python)) == InstallLines(cfg)
  {
  }

  // ---------------------------------------------------------------------
  // The defaults and two configurations

  /** With only a name given, the virtualenv is created by `virtualenv`
      with no flags (so `venv_cmd` ends in a space) and installed under
      `/usr/share/python`. */
  lemma DefaultMacros(name: string)
    ensures var cfg := DefaultConfig(name);
      && GeneratedMacros(cfg)["venv_cmd"] == "virtualenv" + " "
      && GeneratedMacros(cfg)["venv_install_dir"] == "/usr/share/python" + "/" + MacroRef("venv_name")
  {
    var cfg := DefaultConfig(name);
    VenvCmdCreates(cfg);
    InstallDirMacros(cfg);
  }

  /** With only a name given, `requirements.txt` is installed and binaries
      are stripped. */
  lemma DefaultInstall(name: string)
    ensures var cfg := DefaultConfig(name);
      && |InstallLines(cfg)| == 16
      && InstallLines(cfg)[2] == MacroRef("venv_pip") + " -r " + MacroRef("SOURCE0") + "/" + "requirements.txt"
      && StripLine in InstallLines(cfg)
  {
    var cfg := DefaultConfig(name);
    RequirementLines(cfg);
    StripLineExactlyWhenStripping(cfg);
  }

  /** Name `myapp`, installed under `/opt/app`, two requirements files. */
  lemma TwoRequirementsScenario()
    ensures var cfg := DefaultConfig("myapp").(path := "/opt/app", requirements := ["base.txt", "extra.txt"]);
      var l := InstallLines(cfg);
      && GeneratedMacros(cfg)["venv_name"] == "myapp"
      && GeneratedMacros(cfg)["venv_install_dir"] == "/opt/app" + "/" + MacroRef("venv_name")
      && |l| == 17
      && l[0] == MacroRef("venv_cmd") + " " + MacroRef("venv_dir")
      && l[1] == "cd " + MacroRef("SOURCE0")
      && l[2] == MacroRef("venv_pip") + " -r " + MacroRef("SOURCE0") + "/" + "base.txt"
      && l[3] == MacroRef("venv_pip") + " -r " + MacroRef("SOURCE0") + "/" + "extra.txt"
      && l[4] == "cd " + MacroRef("SOURCE0")
      && l[13] == StripLine
  {
    var cfg := DefaultConfig("myapp").(path := "/opt/app", requirements := ["base.txt", "extra.txt"]);
    InstallDirMacros(cfg);
    InstallHead(cfg);
    RequirementLines(cfg);
    SourceInstallLines(cfg);
    StripBeforeEnd(cfg);
  }

  /** Name `x`, copying the virtualenv in `/tmp/prebuilt`. */
  lemma PrebuiltScenario()
    ensures var cfg := DefaultConfig("x").(sourceVenv := Some("/tmp/prebuilt"));
      var l := InstallLines(cfg);
      && GeneratedMacros(cfg)["venv_cmd"] == "cp -r " + "/tmp/prebuilt"
      && |l| == 17
      && l[0] == MkdirParentLine
      && l[1] == MacroRef("venv_cmd") + " " + MacroRef("venv_dir")
  {
    var cfg := DefaultConfig("x").(sourceVenv := Some("/tmp/prebuilt"));
    VenvCmdCopies(cfg);
    InstallHead(cfg);
  }
}
