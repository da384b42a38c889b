# rpmvenv-centos: the `python_centos_venv` extension in Dafny

`rpmvenv` builds an RPM spec file from a configuration. Extensions fill in
the spec. This project models the `python_centos_venv` extension, which
embeds a Python virtualenv in the package. Its one operation, `generate`,
takes the `python_centos_venv` configuration section and the package spec
object and writes into the spec:

- nine macros: `_build_id_links`, `venv_cmd`, `venv_name`, `venv_install_dir`,
  `venv_dir`, `venv_bin`, `venv_python`, `venv_pip`, `__prelink_undo_cmd`;
- one global: `__os_install_post`;
- three tags: `AutoReq`, `AutoProv`, `BuildRequires`;
- one line each in the `prep` and `files` blocks;
- the `install` block: create or copy the virtualenv, install each
  requirements file, install the package, clean up, optionally strip
  native modules, replace symlinks and rewrite shebangs.

The project has six files:

- `config.dfy` (module `VenvConfig`): the configuration record, with an
  unset optional string modelled as `None`. `IsSet` is Python truthiness:
  present and non-empty. `DefaultConfig` holds the option defaults.
- `package_spec.dfy` (module `RpmSpec`): the spec object. It is a class
  with three string maps and a `Blocks` object that holds three line lists.
  `generate` updates all of these in place.
- `text.dfy` (module `Text`): `Join` models Python's `sep.join`, and
  substring predicates.
- `template.dfy` (module `Template`): every string the extension writes is
  a template made of three kinds of piece:
  - fixed text of the extension (`Lit`);
  - text taken from the configuration (`Val`);
  - an RPM macro reference `%{name}` (`Ref`).

  `Render` gives the exact string. `Refs` gives the macros a template
  references. `MacroRef(n)` is the text `%{n}`.
- `centos_venv.dfy` (module `CentosVenv`):
  - the templates of every written string, copied from the source;
  - functions for what a call writes (`GeneratedMacros`,
    `GeneratedGlobals`, `GeneratedTags`, `InstallLines`);
  - the imperative `Generate` method, with one step method per stretch of
    the source.
- `properties.dfy` (module `CentosVenvProperties`): lemmas about those
  functions. They cover:
  - the value of each macro;
  - the number, order and content of the `install` lines;
  - "exactly when" facts for the parent-directory line and the strip line;
  - that every referenced macro is defined;
  - that a copied virtualenv ignores the creation settings;
  - the defaults and two concrete configurations.

Several statements use `MacroRef("venv_dir")` where the source writes
`%{venv_dir}` inside a longer string literal. The two are the same text.
Stating it this way keeps the proofs about long string literals tractable.

Two behaviours of the code are worth knowing, and the model keeps both:

- With `source_venv` set, the text `virtualenv` still appears in the output, in the fixed relocate comment (centos_venv.py:147-148). `CopyIgnoresCreationSettings` states what does hold: the output does not depend on `cmd`, `flags` or `python`.
- `venv_cmd` keeps its trailing space when `flags` is empty (centos_venv.py:81-86). So does the model (`TrailingSpaces`).

## Model

Source paths are relative to the repository root; `centos_venv.py` is `rpmvenv_centos/extensions/python/centos_venv.py`.

| member | source | states |
|---|---|---|
| CentosVenv.Generate | rpmvenv_centos/extensions/python/centos_venv.py:75-165 | Returns the same spec object. Each map becomes its old contents overridden by the keys the extension writes, so unwritten keys keep their values. `prep` and `files` each get exactly one line appended after their old contents. `install` gets exactly `InstallLines(cfg)` appended after its old contents. |
| VenvConfig.IsSet | rpmvenv_centos/extensions/python/centos_venv.py:78 | An optional string option counts as set exactly when it is neither absent (`None`) nor the empty string, as Python's truthiness tests at lines 78, 87 and 125 decide. |
| VenvConfig.DefaultConfig | rpmvenv_centos/extensions/python/centos_venv.py:17-62 | With only a name given: no pre-built virtualenv and no interpreter (so a new virtualenv is created with the default interpreter), `cmd` `virtualenv` with no flags, path `/usr/share/python`, the one requirements file `requirements.txt`, no pip flags, and stripping on. |
| CentosVenv.WriteMacros | rpmvenv_centos/extensions/python/centos_venv.py:77-109 | After the nine macro writes in source order, the macros are the old macros overridden by `GeneratedMacros(cfg)`. This includes the read-back and rewrite of `venv_cmd` when an interpreter is given. |
| CentosVenv.WriteGlobalsAndTags | rpmvenv_centos/extensions/python/centos_venv.py:111-119 | The globals are the old globals plus the `__os_install_post` key. The tags are the old tags plus `AutoReq`, `AutoProv` and `BuildRequires`. |
| CentosVenv.AppendInstallHead | rpmvenv_centos/extensions/python/centos_venv.py:125-128 | Appends the parent-directory line only when copying, then the create/copy line and the `cd` into the sources. Earlier lines are kept as a prefix. |
| CentosVenv.AppendRequirements | rpmvenv_centos/extensions/python/centos_venv.py:130-136 | The loop appends one rendered `pip install -r` line per requirements file, in list order, after the old lines. |
| CentosVenv.AppendInstallTail | rpmvenv_centos/extensions/python/centos_venv.py:138-163 | Appends the source-install block, then the strip block only when stripping is on, then the symlink and shebang lines. |
| CentosVenv.AppendInstall | rpmvenv_centos/extensions/python/centos_venv.py:125-163 | `install` becomes its old lines followed by exactly `InstallLines(cfg)`: the head, the requirement lines, then the tail. |
| CentosVenv.InstallLinesRendered | rpmvenv_centos/extensions/python/centos_venv.py:125-163 | The appended `install` lines are, one for one, the renderings of the `install` templates in order. |
| Text.Join | rpmvenv_centos/extensions/python/centos_venv.py:83-85 | The empty list joins to "". A single element joins to itself. The length is the total of the parts plus one separator between each pair. The result starts with the first part and ends with the last. |
| Template.RefIsRendered | rpmvenv_centos/extensions/python/centos_venv.py:97-99 | Every macro a template references appears as `%{name}` in its rendered text. |
| CentosVenvProperties.VenvCmdCopies | rpmvenv_centos/extensions/python/centos_venv.py:78-79 | With a non-empty `source_venv`, `venv_cmd` is `cp -r ` followed by that path. |
| CentosVenvProperties.VenvCmdCreates | rpmvenv_centos/extensions/python/centos_venv.py:80-92 | Otherwise `venv_cmd` is `cmd + " " + join(flags, " ")`. ` --python=<python>` follows exactly when `python` is non-empty. |
| CentosVenvProperties.TrailingSpaces | rpmvenv_centos/extensions/python/centos_venv.py:81-108 | With no flags (and no copy or interpreter), `venv_cmd` is `cmd` plus a trailing space. With no pip flags, `venv_pip` ends in `pip install ` with a trailing space. |
| CentosVenvProperties.InstallDirMacros | rpmvenv_centos/extensions/python/centos_venv.py:93-96 | `venv_name` is the configured name. `venv_install_dir` is `path + "/%{venv_name}"`. |
| CentosVenvProperties.PathMacros | rpmvenv_centos/extensions/python/centos_venv.py:97-99 | `venv_dir` is `%{buildroot}/%{venv_install_dir}`. `venv_bin` is `%{venv_dir}/bin`. `venv_python` is `%{venv_bin}/python`. |
| CentosVenvProperties.PipMacro | rpmvenv_centos/extensions/python/centos_venv.py:100-108 | `venv_pip` is `%{venv_python} %{venv_bin}/pip install ` followed by the pip flags joined by spaces. |
| CentosVenvProperties.FixedMacros | rpmvenv_centos/extensions/python/centos_venv.py:77-109 | `_build_id_links` is `none` and `__prelink_undo_cmd` is `%{nil}` for every configuration. |
| CentosVenv.GeneratedMacros | rpmvenv_centos/extensions/python/centos_venv.py:77-109 | The macros a call writes are exactly the nine names of `MacroNames`, whatever the configuration; the value of each is given by the lemmas below. |
| CentosVenvProperties.MacrosRenderTemplates | rpmvenv_centos/extensions/python/centos_venv.py:77-109 | Every macro value is the rendering of its template, with the same key set. |
| CentosVenvProperties.UnwrittenKeysKept | rpmvenv_centos/extensions/python/centos_venv.py:77-109 | A macro key the extension does not write keeps its presence and its value. |
| CentosVenvProperties.TagsAndGlobals | rpmvenv_centos/extensions/python/centos_venv.py:111-119 | The tags are `AutoReq`=`No`, `AutoProv`=`No` and `BuildRequires`=`/usr/bin/pathfix.py`. The only global is `__os_install_post`: the host's own hook piped through `sed` to drop the `brp-python-bytecompile` step. |
| CentosVenv.InstallLines | rpmvenv_centos/extensions/python/centos_venv.py:125-163 | The lines appended to `install` number `HeadLength(cfg)` (3 when copying, else 2) + the number of requirements files + `TailLength(cfg)` (13 when stripping, else 11); their content and order are given by the lemmas below. |
| CentosVenvProperties.InstallHead | rpmvenv_centos/extensions/python/centos_venv.py:125-128 | When copying, the first line is ``mkdir -p `dirname %{venv_dir}` ``. Then come `%{venv_cmd} %{venv_dir}` and `cd %{SOURCE0}`. |
| CentosVenvProperties.RequirementLine | rpmvenv_centos/extensions/python/centos_venv.py:132-136 | One requirements file gives the line `%{venv_pip} -r %{SOURCE0}/<file>`. |
| CentosVenvProperties.RequirementsRendered | rpmvenv_centos/extensions/python/centos_venv.py:130-136 | The requirement lines are one per requirements file, in order, each the `pip install -r` line for that file. |
| CentosVenvProperties.RequirementLines | rpmvenv_centos/extensions/python/centos_venv.py:130-136 | Right after the head, line i is the `pip install -r` line for the i-th requirements file, for every i. |
| CentosVenvProperties.SourceInstallRendered | rpmvenv_centos/extensions/python/centos_venv.py:138-151 | Gives the exact text of each of the eight source-install lines, including the "direcotry" comment. |
| CentosVenvProperties.SourceInstallLines | rpmvenv_centos/extensions/python/centos_venv.py:138-151 | After the requirement lines come `cd %{SOURCE0}`, `%{venv_python} setup.py install`, `cd -`, the RECORD cleanup (offset 5) and the commented-out `venvctrl-relocate` line (offset 7), counted from the end of the requirement lines. |
| CentosVenvProperties.SourceInstallComments | rpmvenv_centos/extensions/python/centos_venv.py:142-148 | The two RECORD comment lines sit at offsets 3 and 4 and the relocation comment, with the source's spelling "direcotry", at offset 6 of the source-install block. |
| CentosVenvProperties.StripRendered | rpmvenv_centos/extensions/python/centos_venv.py:153-158 | The strip block is the comment with "intheir" followed by the `xargs -r strip` line. |
| CentosVenvProperties.FinalRendered | rpmvenv_centos/extensions/python/centos_venv.py:159-163 | Gives the exact text of the symlink comment, the symlink loop and the `pathfix.py` shebang rewrite. |
| CentosVenvProperties.PathfixRendered | rpmvenv_centos/extensions/python/centos_venv.py:162 | The shebang rewrite is `pathfix.py -pni "%{__python3} %{py3_shbang_opts}" %{buildroot}/%{venv_install_dir}` followed by the `grep`/`egrep` pipeline over the same directory, character for character. |
| CentosVenvProperties.InstallEnd | rpmvenv_centos/extensions/python/centos_venv.py:159-163 | The last three `install` lines are always the symlink comment, the symlink loop and the `pathfix.py` rewrite, each with its exact text. |
| CentosVenvProperties.StripBeforeEnd | rpmvenv_centos/extensions/python/centos_venv.py:153-163 | With stripping on, the strip comment and the strip line come right before the last three lines. |
| CentosVenvProperties.SourceInstallAvoids | rpmvenv_centos/extensions/python/centos_venv.py:138-151 | No source-install line is the parent-directory line or the strip line. |
| CentosVenvProperties.FinalAvoids | rpmvenv_centos/extensions/python/centos_venv.py:159-163 | None of the last three lines is the parent-directory line or the strip line. |
| CentosVenvProperties.PathfixDiffers | rpmvenv_centos/extensions/python/centos_venv.py:162 | The shebang rewrite is neither the parent-directory line nor the strip line. |
| CentosVenvProperties.StripCounts | rpmvenv_centos/extensions/python/centos_venv.py:153-158 | The strip block holds the strip line exactly once and no parent-directory line. |
| CentosVenvProperties.HeadAvoidsStrip | rpmvenv_centos/extensions/python/centos_venv.py:125-128 | No line before the requirements is the strip line. |
| CentosVenvProperties.HeadCountsMkdirParent | rpmvenv_centos/extensions/python/centos_venv.py:125-128 | The lines before the requirements hold the parent-directory line once when copying, and not at all otherwise. |
| CentosVenvProperties.RequirementsAvoid | rpmvenv_centos/extensions/python/centos_venv.py:130-136 | No requirement line is the parent-directory line or the strip line. |
| CentosVenvProperties.MkdirParentExactlyWhenCopying | rpmvenv_centos/extensions/python/centos_venv.py:125-126 | The parent-directory line occurs in the appended lines exactly once when `source_venv` is non-empty, and never otherwise (both directions). |
| CentosVenvProperties.StripLineExactlyWhenStripping | rpmvenv_centos/extensions/python/centos_venv.py:153-158 | The strip line occurs exactly once when `strip_binaries` is true, and never otherwise (both directions). |
| CentosVenvProperties.MacroRefs | rpmvenv_centos/extensions/python/centos_venv.py:77-109 | Gives the exact set of macros each of the nine macro values references; for example `venv_dir` references `buildroot` and `venv_install_dir`, and `venv_cmd` references nothing. |
| CentosVenvProperties.MacroValuesRefsDefined | rpmvenv_centos/extensions/python/centos_venv.py:93-109 | Every macro a written macro value references is one of the nine macros the extension writes or a host macro. |
| CentosVenvProperties.OtherRefsDefined | rpmvenv_centos/extensions/python/centos_venv.py:111-123 | The global references only the host's hook. The `prep` and `files` lines reference only defined macros. |
| CentosVenvProperties.InstallRefsDefined | rpmvenv_centos/extensions/python/centos_venv.py:125-163 | Every macro an `install` line references is defined after the call, by the extension or by the host. |
| CentosVenvProperties.RefsAppearInText | rpmvenv_centos/extensions/python/centos_venv.py:93-163 | Each reference tracked for a macro value or an `install` line appears as `%{name}` in the string actually written. |
| CentosVenvProperties.CopyIgnoresCreationSettings | rpmvenv_centos/extensions/python/centos_venv.py:78-92 | When copying, changing `cmd`, `flags` or `python` changes neither the macros nor the `install` lines. |
| CentosVenvProperties.DefaultMacros | rpmvenv_centos/extensions/python/centos_venv.py:24-40 | With only a name given, `venv_cmd` is `virtualenv` with a trailing space and the install directory is under `/usr/share/python`. |
| CentosVenvProperties.DefaultInstall | rpmvenv_centos/extensions/python/centos_venv.py:45-59 | With only a name given, `install` gets 16 lines: `requirements.txt` is installed and binaries are stripped. |
| CentosVenvProperties.TwoRequirementsScenario | rpmvenv_centos/extensions/python/centos_venv.py:93-158 | Concrete case: name `myapp`, path `/opt/app`, files `base.txt` and `extra.txt`. `install` gets 17 lines: the create line, `cd`, the two pip lines in order, the source install, and the strip line fourth from last. |
| CentosVenvProperties.PrebuiltScenario | rpmvenv_centos/extensions/python/centos_venv.py:78-128 | Concrete case: name `x`, copying `/tmp/prebuilt`. `venv_cmd` is `cp -r /tmp/prebuilt`. `install` gets 17 lines, starting with the parent-directory line and then the copy line. |

## Left out

- The `confpy` configuration machinery (`Configuration`, `Namespace`, the option classes) and its validation (centos_venv.py:8-12, 17-62). The model takes the validated record with its defaults filled in. `name` is always present and every value already has its declared type.
- The `interface.Extension` base class and the plugin attributes `name`, `description`, `version` and `requirements` (centos_venv.py:14, 65-72). These are plugin plumbing with no behaviour.
- `setup.py`, which holds only packaging metadata and the entry-point registration. Its entry point names the module `rpmvenv_centos.extensions.centos_venv`, but the file lives under `extensions/python/`. That import path is not checked.
- What the emitted shell commands do (`sed`, `find`, `strip`, `readlink`/`cp`, `pathfix.py`). Written lines are exact strings checked by text and position only.
- RPM macro expansion. How the host turns the spec object into a spec file is also not part of this model.
- Host-defined macros (`buildroot`, `SOURCE0`, `__python3`, `py3_shbang_opts`, `nil`, the host's `__os_install_post`) are assumed to exist. They are listed in `HostMacros` rather than defined.
- InstallRefsDefined: tracks references as the `Ref` pieces of the templates. Two things are not proved:
  - that the fixed text copied from the source holds no further `%{`. Checking every character of the long literals is too costly for the verifier;
  - anything about configuration values. `Val` text is opaque, so a `%{` inside a name, path or requirements file name is not tracked.
- MacroValuesRefsDefined: the same limit as `InstallRefsDefined`.
- OtherRefsDefined: the same limit as `InstallRefsDefined`. Only the `Ref` pieces of the global, `prep` and `files` templates are bounded. A `%{` inside their fixed text is not ruled out.
- Generate: the source is one function. The model splits it into step methods, one per stretch of the source, called in the source's order. The order of writes within each map is modelled, but it has no effect on the final maps.

