/** The extension locator: the kind-indexed path tables. The manifest file
    name, the directory holding the manifest and the base directory of the
    listed files are side by side, since they must agree on the kinds. */
module Locator {
  import opened Common
  import opened Config

  /** The eight kinds of extension the packager knows. */
  datatype Kind = Component | Module | Plugin | Template | Language | File | Library | Package

  /** The value of the `type` option that selects each kind. */
  function KindName(k: Kind): string
  {
    match k
    case Component => "component"
    case Module => "module"
    case Plugin => "plugin"
    case Template => "template"
    case Language => "language"
    case File => "file"
    case Library => "library"
    case Package => "package"
  }

  /** The kind a `type` value selects, or None for a value no switch handles. */
  function KindOf(t: string): (r: Option<Kind>)
    ensures r.Some? ==> KindName(r.value) == t
    ensures r.None? ==> forall k :: KindName(k) != t
  {
    if t == "component" then Some(Component)
    else if t == "module" then Some(Module)
    else if t == "plugin" then Some(Plugin)
    else if t == "template" then Some(Template)
    else if t == "language" then Some(Language)
    else if t == "file" then Some(File)
    else if t == "library" then Some(Library)
    else if t == "package" then Some(Package)
    else None
  }

  /** Every kind is selected by its own name, so `KindOf` and `KindName` are inverse. */
  lemma KindOfName(k: Kind)
    ensures KindOf(KindName(k)) == Some(k)
  {
  }

  /** The kind the options select, if any. */
  function KindOption(o: Options): Option<Kind>
  {
    KindOf(Lookup(o, Type))
  }

  predicate ValidKind(o: Options)
  {
    KindOption(o).Some?
  }

  /** The strict comparison `group === 'admin'`: a missing group is not "admin". */
  predicate IsAdminGroup(o: Options)
  {
    Group in o && o[Group] == "admin"
  }

  /** The name of the manifest file of an extension of type `t` named `name`. */
  function ManifestFilename(t: string, name: string): (r: Result<string>)
    ensures r.Err? <==> KindOf(t).None?
    ensures r.Err? ==> r.error == InvalidType
    ensures t in {"component", "plugin", "file", "library", "package"} ==> r == Ok(name + ".xml")
    ensures t == "module" ==> r == Ok("mod_" + name + ".xml")
    ensures t == "template" ==> r == Ok("templateDetails.xml")
    ensures t == "language" ==> r == Ok("install.xml")
  {
    match KindOf(t)
    case None => Err(InvalidType)
    case Some(k) =>
      match k
      case Component | Plugin | File | Library | Package => Ok(name + ".xml")
      case Module => Ok("mod_" + name + ".xml")
      case Template => Ok("templateDetails.xml")
      case Language => Ok("install.xml")
  }

  /** The directory that holds the extension's manifest. */
  function ExtensionPath(o: Options): (r: Result<string>)
    ensures r.Err? <==> !ValidKind(o)
    ensures r.Err? ==> r.error == InvalidType
  {
    var name := Lookup(o, Name);
    match KindOption(o)
    case None => Err(InvalidType)
    case Some(k) =>
      match k
      case Component => Ok(Lookup(o, Administrator) + "/components/com_" + name)
      case Module =>
        Ok((if IsAdminGroup(o) then Lookup(o, Administrator) else Lookup(o, Joomla)) + "/modules/mod_" + name)
      case Plugin => Ok(Lookup(o, Plugins) + "/" + Lookup(o, Group) + "/" + name)
      case Template =>
        Ok((if IsAdminGroup(o) then Lookup(o, AdminTemplates) else Lookup(o, Templates)) + "/" + name)
      case Language =>
        Ok((if IsAdminGroup(o) then Lookup(o, Administrator) else Lookup(o, Joomla)) + "/language/" + name)
      case File => Ok(Lookup(o, Manifests) + "/files")
      case Library => Ok(Lookup(o, Manifests) + "/libraries")
      case Package => Ok(Lookup(o, Manifests) + "/packages")
  }

  /** The directory the entries of a `files` section are relative to; `admin`
      asks for the administrator side of the extension. */
  function FilesPath(o: Options, admin: bool): (r: Result<string>)
    ensures r.Err? <==> !ValidKind(o)
    ensures r.Err? ==> r.error == InvalidType
  {
    var name := Lookup(o, Name);
    var adminSide := admin || IsAdminGroup(o);
    match KindOption(o)
    case None => Err(InvalidType)
    case Some(k) =>
      match k
      case Component =>
        Ok((if admin then Lookup(o, Administrator) else Lookup(o, Joomla)) + "/components/com_" + name)
      case Module =>
        Ok((if adminSide then Lookup(o, Administrator) else Lookup(o, Joomla)) + "/modules/mod_" + name)
      case Plugin => Ok(Lookup(o, Plugins) + "/" + Lookup(o, Group) + "/" + name)
      case Template =>
        Ok((if adminSide then Lookup(o, AdminTemplates) else Lookup(o, Templates)) + "/" + name)
      case Language =>
        Ok((if adminSide then Lookup(o, Administrator) else Lookup(o, Joomla)) + "/language/")
      case File => Ok(Lookup(o, Joomla))
      case Library => Ok(Lookup(o, Libraries))
      case Package => Ok("")
  }

  /** The directory the entries of a `languages` section are relative to. */
  function LanguagesPath(o: Options, admin: bool): string
  {
    (if admin then Lookup(o, Administrator) else Lookup(o, Joomla)) + "/language"
  }

  /** The languages path depends only on the side asked for: the extension's
      type and group do not move it, and each side reads only its own root. */
  lemma LanguagesPathSide(o: Options, admin: bool, t: string, g: string, root: string)
    ensures LanguagesPath(o[Type := t][Group := g], admin) == LanguagesPath(o, admin)
    ensures admin ==> LanguagesPath(o[Joomla := root], admin) == LanguagesPath(o, admin)
    ensures !admin ==> LanguagesPath(o[Administrator := root], admin) == LanguagesPath(o, admin)
  {
  }

  /** A module or template in the group "admin" takes its site-level files
      from the administrator side, while its site-level languages stay
      below the Joomla root. */
  lemma AdminGroupSiteSections(o: Options)
    requires KindOption(o) in {Some(Module), Some(Template)} && IsAdminGroup(o)
    ensures FilesPath(o, false) == FilesPath(o, true)
    ensures KindOption(o) == Some(Module) ==>
      FilesPath(o, false) == Ok(Lookup(o, Administrator) + "/modules/mod_" + Lookup(o, Name))
    ensures KindOption(o) == Some(Template) ==>
      FilesPath(o, false) == Ok(Lookup(o, AdminTemplates) + "/" + Lookup(o, Name))
    ensures LanguagesPath(o, false) == Lookup(o, Joomla) + "/language"
    ensures LanguagesPath(o, false) != LanguagesPath(o, true) <==> Lookup(o, Joomla) != Lookup(o, Administrator)
  {
    var j, a := Lookup(o, Joomla), Lookup(o, Administrator);
    if j != a {
      assert (j + "/language")[..|j|] == j && (a + "/language")[..|a|] == a;
      if |j| == |a| {
        assert LanguagesPath(o, false)[..|j|] == j;
      } else {
        assert |LanguagesPath(o, false)| != |LanguagesPath(o, true)|;
      }
    }
  }

  /** The manifest file name and the manifest directory fail on exactly the
      `type` values that the files path fails on. */
  lemma LocatorFailsTogether(o: Options, admin: bool)
    ensures ManifestFilename(Lookup(o, Type), Lookup(o, Name)).Err?
        <==> ExtensionPath(o).Err?
        <==> FilesPath(o, admin).Err?
        <==> !ValidKind(o)
  {
  }

  /** How the manifest directory relates to the files path: plugins, and
      modules and templates on their own side, keep their files beside the
      manifest; a component's manifest sits with its administrator files; a
      language pack's manifest sits in the pack's folder below the files path. */
  lemma ExtensionPathFromFilesPath(o: Options)
    ensures KindOption(o) == Some(Plugin) ==> ExtensionPath(o) == FilesPath(o, false) == FilesPath(o, true)
    ensures KindOption(o) in {Some(Module), Some(Template)} ==> ExtensionPath(o) == FilesPath(o, IsAdminGroup(o))
    ensures KindOption(o) == Some(Component) ==> ExtensionPath(o) == FilesPath(o, true)
    ensures KindOption(o) == Some(Language) ==> ExtensionPath(o) == Ok(FilesPath(o, false).value + Lookup(o, Name))
  {
  }

  /** The `admin` flag of the files path has the effect of the group "admin"
      for modules, templates and language packs, and no effect on plugins,
      files, libraries and packages. */
  lemma FilesPathAdminFlag(o: Options)
    ensures KindOption(o) in {Some(Module), Some(Template), Some(Language)} ==>
      FilesPath(o, true) == FilesPath(o[Group := "admin"], false)
    ensures KindOption(o) in {Some(Plugin), Some(File), Some(Library), Some(Package)} ==>
      FilesPath(o, true) == FilesPath(o, false)
  {
  }

  /** For a language pack the files path is the languages path with one more
      slash, so the sources of its files contain "//", and its manifest
      directory is the languages path of the pack's own side plus its name. */
  lemma LanguageFilesPath(o: Options, admin: bool)
    ensures KindOption(o) == Some(Language) ==>
      FilesPath(o, admin) == Ok(LanguagesPath(o, admin || IsAdminGroup(o)) + "/")
    ensures KindOption(o) == Some(Language) ==>
      ExtensionPath(o) == Ok(LanguagesPath(o, IsAdminGroup(o)) + "/" + Lookup(o, Name))
  {
    var root := if admin || IsAdminGroup(o) then Lookup(o, Administrator) else Lookup(o, Joomla);
    calc {
      LanguagesPath(o, admin || IsAdminGroup(o)) + "/";
      (root + "/language") + "/";
      root + ("/language" + "/");
      { assert "/language" + "/" == "/language/"; }
      root + "/language/";
    }
    var own := if IsAdminGroup(o) then Lookup(o, Administrator) else Lookup(o, Joomla);
    var name := Lookup(o, Name);
    calc {
      LanguagesPath(o, IsAdminGroup(o)) + "/" + name;
      own + ("/language" + "/") + name;
      { assert "/language" + "/" == "/language/"; }
      own + "/language/" + name;
    }
  }

  /** Modules, templates and language packs take their manifest directory from
      the administrator-side roots exactly when the group is "admin": the site
      roots are then irrelevant, and otherwise the administrator roots are. */
  lemma ExtensionPathSide(o: Options, x: string, y: string)
    requires KindOption(o) in {Some(Module), Some(Template), Some(Language)}
    ensures IsAdminGroup(o) ==> ExtensionPath(o) == ExtensionPath(o[Joomla := x][Templates := y])
    ensures !IsAdminGroup(o) ==> ExtensionPath(o) == ExtensionPath(o[Administrator := x][AdminTemplates := y])
  {
  }

  /** The manifest directory of each kind: a component below the
      administrator's components, a plugin in its group's folder, the file,
      library and package manifests in their own folders below `manifests`,
      and a module, template or language pack on the side its group picks. */
  lemma ExtensionPathTable(o: Options)
    ensures var name, admin := Lookup(o, Name), IsAdminGroup(o);
      var r := ExtensionPath(o);
      && (KindOption(o) == Some(Component) ==> r == Ok(Lookup(o, Administrator) + "/components/com_" + name))
      && (KindOption(o) == Some(Module) ==>
            r == Ok((if admin then Lookup(o, Administrator) else Lookup(o, Joomla)) + "/modules/mod_" + name))
      && (KindOption(o) == Some(Plugin) ==> r == Ok(Lookup(o, Plugins) + "/" + Lookup(o, Group) + "/" + name))
      && (KindOption(o) == Some(Template) ==>
            r == Ok((if admin then Lookup(o, AdminTemplates) else Lookup(o, Templates)) + "/" + name))
      && (KindOption(o) == Some(Language) ==>
            r == Ok((if admin then Lookup(o, Administrator) else Lookup(o, Joomla)) + "/language/" + name))
      && (KindOption(o) == Some(File) ==> r == Ok(Lookup(o, Manifests) + "/files"))
      && (KindOption(o) == Some(Library) ==> r == Ok(Lookup(o, Manifests) + "/libraries"))
      && (KindOption(o) == Some(Package) ==> r == Ok(Lookup(o, Manifests) + "/packages"))
  {
  }

  /** Files, libraries and packages keep their files in fixed places: the
      Joomla root, the libraries folder, and paths taken as they are written. */
  lemma FilesPathFlatKinds(o: Options, admin: bool)
    ensures KindOption(o) == Some(File) ==> FilesPath(o, admin) == Ok(Lookup(o, Joomla))
    ensures KindOption(o) == Some(Library) ==> FilesPath(o, admin) == Ok(Lookup(o, Libraries))
    ensures KindOption(o) == Some(Package) ==> FilesPath(o, admin) == Ok("")
  {
  }

  /** A component's files sit in its folder below the Joomla root on the site
      side and below the administrator folder on the administrator side,
      whatever its group. */
  lemma ComponentFilesPath(o: Options, admin: bool, g: string)
    requires KindOption(o) == Some(Component)
    ensures FilesPath(o, admin)
      == Ok((if admin then Lookup(o, Administrator) else Lookup(o, Joomla)) + "/components/com_" + Lookup(o, Name))
    ensures FilesPath(o[Group := g], admin) == FilesPath(o, admin)
  {
  }
}
