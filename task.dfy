/** The packaging task: resolve the options, locate the manifest, resolve the
    parsed manifest into the copy list, and add the manifest file itself. */
module Task {
  import opened Common
  import opened Config
  import opened Locator
  import opened Manifest
  import opened Resolver

  /** The copy instruction for the manifest file: from the manifest
      directory to the package root. */
  function ManifestEntry(extensionPath: string, manifestFile: string): Mapping
  {
    Mapping(extensionPath + "/" + manifestFile, "/" + manifestFile)
  }

  /** Why the task stops, checked in the task's order: a bad `type` stops it
      before the manifest is read, a manifest without `<extension>` before
      the resolver runs. */
  predicate TaskFails(o: Options, doc: Document)
  {
    !ValidKind(o) || doc.extension.None? || Fails(doc.extension.value, o)
  }

  /** The complete copy list of one run on the user's options and the
      parsed manifest, or the error that stops the run. */
  function TaskMapping(user: Options, doc: Document): (r: Result<seq<Mapping>>)
    ensures r.Err? <==> TaskFails(GetOptions(user), doc)
    ensures r.Err? && !ValidKind(GetOptions(user)) ==> r.error == InvalidType
    ensures r.Err? && ValidKind(GetOptions(user)) && doc.extension.None? ==> r.error == MissingExtension
    ensures r.Err? && ValidKind(GetOptions(user)) && doc.extension.Some? ==> r.error == UntaggedLanguage
  {
    var o := GetOptions(user);
    var manifestFile :- ManifestFilename(Lookup(o, Type), Lookup(o, Name));
    // a type with a manifest file name always has a manifest directory
    var extensionPath := ExtensionPath(o).value;
    if doc.extension.None? then Err(MissingExtension)
    else
      var mapping :- MappingSpec(doc.extension.value, o);
      Ok(mapping + [ManifestEntry(extensionPath, manifestFile)])
  }

  /** A successful run copies what the manifest lists, in the resolver's
      order, and then exactly one more file: the manifest, taken from the
      manifest directory and placed at the package root under its own name. */
  lemma TaskMappingEndsWithManifest(user: Options, doc: Document)
    requires TaskMapping(user, doc).Ok?
    ensures var o := GetOptions(user);
      var ms := TaskMapping(user, doc).value;
      && doc.extension.Some?
      && MappingSpec(doc.extension.value, o).Ok?
      && |ms| == |MappingSpec(doc.extension.value, o).value| + 1
      && ms[..|ms| - 1] == MappingSpec(doc.extension.value, o).value
      && ms[|ms| - 1].dest == "/" + ManifestFilename(Lookup(o, Type), Lookup(o, Name)).value
      && ms[|ms| - 1].src == ExtensionPath(o).value + ms[|ms| - 1].dest
  {
    var o := GetOptions(user);
    var spec := MappingSpec(doc.extension.value, o).value;
    var entry := ManifestEntry(ExtensionPath(o).value, ManifestFilename(Lookup(o, Type), Lookup(o, Name)).value);
    assert TaskMapping(user, doc).value == spec + [entry];
    assert (spec + [entry])[..|spec|] == spec;
  }

  /** Every destination of a successful run starts with a slash. */
  lemma TaskMappingRooted(user: Options, doc: Document)
    requires TaskMapping(user, doc).Ok?
    ensures AllRooted(TaskMapping(user, doc).value)
  {
    var o := GetOptions(user);
    MappingSpecRooted(doc.extension.value, o);
    var entry := ManifestEntry(ExtensionPath(o).value, ManifestFilename(Lookup(o, Type), Lookup(o, Name)).value);
    assert Rooted(entry.dest);
    assert TaskMapping(user, doc).value == MappingSpec(doc.extension.value, o).value + [entry];
  }

  /** The task body as it runs: the locating steps, then the resolver's
      list, to which the manifest entry is pushed. */
  method Package(user: Options, doc: Document) returns (r: Result<seq<Mapping>>)
    ensures r == TaskMapping(user, doc)
  {
    var options := GetOptions(user);
    var manifestFile := ManifestFilename(Lookup(options, Type), Lookup(options, Name));
    if manifestFile.Err? {
      return Err(manifestFile.error);
    }
    // the type is one of the eight kinds, so the manifest directory exists
    var extensionPath := ExtensionPath(options);
    if doc.extension.None? {
      return Err(MissingExtension);
    }
    var mapping := GetMapping(doc.extension.value, options);
    if mapping.Err? {
      return mapping;
    }
    var list := mapping.value;
    list := list + [ManifestEntry(extensionPath.value, manifestFile.value)];
    return Ok(list);
  }

  // ---------------------------------------------------------------------
  // worked runs

  /** A manifest that lists one file and nothing else copies that file from
      the site files path to a slash followed by its own name. */
  lemma SingleFileMapping(o: Options, file: string)
    requires ValidKind(o)
    ensures MappingSpec(Extension([Section(map[], [Plain(file)], [], [])], [], [], []), o)
      == Ok([Mapping(FilesPath(o, false).value + "/" + file, "/" + file)])
  {
    var ext := Extension([Section(map[], [Plain(file)], [], [])], [], [], []);
    var base := FilesPath(o, false).value;
    var m := Mapping(base + "/" + file, "/" + file);
    assert [Plain(file)][..0] == [];
    assert "" + "/" + file == "/" + file;
    assert MapEntries(base, "", [Plain(file)], true) == [] + [m];
    assert [] + [m] == [m];
    assert ext.files[..0] == [];
    assert FilesSections(base, ext.files) == [] + ([m] + []);
    assert [] + ([m] + []) == [m];
    assert SiteMapping(ext, o) == Ok([m] + [] + []);
    assert [m] + [] + [] == [m];
    assert MappingSpec(ext, o) == Ok([m] + []);
    assert [m] + [] == [m];
  }

  /** A site component: its files come from the component folder below the
      Joomla root, while its manifest comes from the administrator side. */
  lemma ComponentRun(user: Options, file: string)
    requires Type in user && user[Type] == "component"
    requires Name in user && Joomla in user && Administrator !in user
    ensures var joomla, name := user[Joomla], user[Name];
      var ext := Extension([Section(map[], [Plain(file)], [], [])], [], [], []);
      TaskMapping(user, Document(Some(ext)))
        == Ok([ Mapping(joomla + "/components/com_" + name + "/" + file, "/" + file),
                Mapping(joomla + "/administrator" + "/components/com_" + name + "/" + (name + ".xml"), "/" + (name + ".xml")) ])
  {
    var joomla, name := user[Joomla], user[Name];
    var ext := Extension([Section(map[], [Plain(file)], [], [])], [], [], []);
    var o := GetOptions(user);
    OptionKeys(user);
    ResolvedOptions(user);
    assert Lookup(o, Type) == "component" && Lookup(o, Name) == name;
    assert o[Administrator] == joomla + "/administrator";
    KindOfName(Component);
    var base := joomla + "/components/com_" + name;
    assert FilesPath(o, false) == Ok(base);
    SingleFileMapping(o, file);
    var m := Mapping(base + "/" + file, "/" + file);
    var manifestFile := name + ".xml";
    var extensionPath := joomla + "/administrator" + "/components/com_" + name;
    assert ManifestFilename(Lookup(o, Type), Lookup(o, Name)) == Ok(manifestFile);
    assert ExtensionPath(o) == Ok(extensionPath);
    var e := ManifestEntry(extensionPath, manifestFile);
    assert TaskMapping(user, Document(Some(ext))) == Ok([m] + [e]);
    assert [m] + [e] == [m, e];
  }

  /** A language pack's files path ends in a slash, so the sources of its
      files carry a doubled slash after the language folder. */
  lemma LanguageFileRun(o: Options, file: string)
    requires KindOption(o) == Some(Language) && !IsAdminGroup(o)
    ensures MappingSpec(Extension([Section(map[], [Plain(file)], [], [])], [], [], []), o)
      == Ok([Mapping(LanguagesPath(o, false) + "/" + "/" + file, "/" + file)])
  {
    SingleFileMapping(o, file);
    LanguageFilesPath(o, false);
  }
}
