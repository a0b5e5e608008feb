/** The manifest mapping resolver: the parsed `<extension>` element and the
    options become the ordered list of files to copy. Each section kind has a
    specification function, and a method that builds the list by appending,
    as the packager does, proved to produce what the function specifies. */
module Resolver {
  import opened Common
  import opened Config
  import opened Locator
  import opened Paths
  import opened Manifest

  /** One copy instruction: a path in the installation, and the path it is
      copied to, which the task appends to the package folder. */
  datatype Mapping = Mapping(src: string, dest: string)

  /** A destination that starts with a slash. Its later segments are
      manifest text and may contain "..". */
  predicate Rooted(path: string)
  {
    |path| > 0 && path[0] == '/'
  }

  predicate AllRooted(ms: seq<Mapping>)
  {
    forall m :: m in ms ==> Rooted(m.dest)
  }

  /** `"/" + value` when the section's attribute `key` is present and not
      empty (a truthy JavaScript string), and "" otherwise. */
  function AttrPrefix(attrs: Attrs, key: string): (p: string)
    ensures p == "" || Rooted(p)
  {
    if key in attrs && attrs[key] != "" then "/" + attrs[key] else ""
  }

  // ---------------------------------------------------------------------
  // files and media sections

  /** The name an entry contributes to its paths. Files sections unwrap the
      text of an attributed entry; media sections (`unwrap` false) use the
      entry itself, which JavaScript turns into "[object Object]". */
  function EntryName(e: Entry, unwrap: bool): string
  {
    match e
    case Plain(t) => t
    case Tagged(t, _) => if unwrap then t else ObjectString()
  }

  /** What JavaScript makes of an object used as a string. */
  function ObjectString(): string
  {
    "[object Object]"
  }

  /** Appending in steps is appending once. */
  lemma AppendAssoc(a: seq<Mapping>, b: seq<Mapping>, c: seq<Mapping>)
    ensures a + b + c == a + (b + c)
  {
  }

  /** The mapping of one `<filename>` or `<folder>` entry. */
  function EntryMapping(base: string, prefix: string, e: Entry, unwrap: bool): Mapping
  {
    var name := EntryName(e, unwrap);
    Mapping(base + "/" + name, prefix + "/" + name)
  }

  /** One mapping per entry, in list order. */
  function MapEntries(base: string, prefix: string, es: seq<Entry>, unwrap: bool): (r: seq<Mapping>)
    ensures |r| == |es|
  {
    if es == [] then []
    else MapEntries(base, prefix, es[..|es| - 1], unwrap) + [EntryMapping(base, prefix, es[|es| - 1], unwrap)]
  }

  /** The entries of a files or media section: every `<filename>` entry,
      then every `<folder>` entry, sources below `src`, destinations below
      `dest`. */
  function SectionEntries(src: string, dest: string, s: Section, unwrap: bool): seq<Mapping>
  {
    MapEntries(src, dest, s.filename, unwrap) + MapEntries(src, dest, s.folder, unwrap)
  }

  /** A `<files>` section relative to `base`: destinations below its `folder` attribute. */
  function FilesSection(base: string, s: Section): seq<Mapping>
  {
    SectionEntries(base, AttrPrefix(s.attrs, "folder"), s, true)
  }

  /** A `<media>` section relative to `base`: sources below its `destination`
      attribute, destinations below its `folder` attribute, and the entries
      not unwrapped. */
  function MediaSection(base: string, s: Section): seq<Mapping>
  {
    SectionEntries(base + AttrPrefix(s.attrs, "destination"), AttrPrefix(s.attrs, "folder"), s, false)
  }

  /** An entry is copied from the same path below `base` as it is copied to
      below `prefix`: "/" and its name. */
  lemma EntryMappingShape(base: string, prefix: string, e: Entry, unwrap: bool)
    ensures var m := EntryMapping(base, prefix, e, unwrap);
      && |base| < |m.src| && m.src[..|base|] == base
      && m.src[|base|..] == "/" + EntryName(e, unwrap)
      && m.dest == prefix + m.src[|base|..]
      && ((prefix == "" || Rooted(prefix)) ==> Rooted(m.dest))
  {
    var name := EntryName(e, unwrap);
    assert (base + "/" + name)[..|base|] == base;
    assert (base + "/" + name)[|base|..] == "/" + name;
  }

  /** Exactly one mapping per entry, in list order. */
  lemma {:induction false} MapEntriesAt(base: string, prefix: string, es: seq<Entry>, unwrap: bool)
    ensures |MapEntries(base, prefix, es, unwrap)| == |es|
    ensures forall i :: 0 <= i < |es| ==> MapEntries(base, prefix, es, unwrap)[i] == EntryMapping(base, prefix, es[i], unwrap)
  {
    if es != [] {
      MapEntriesAt(base, prefix, es[..|es| - 1], unwrap);
    }
  }

  /** A files or media section yields one mapping per `<filename>` entry and
      then one per `<folder>` entry, in list order. */
  lemma SectionEntriesOrder(src: string, dest: string, s: Section, unwrap: bool)
    ensures |SectionEntries(src, dest, s, unwrap)| == |s.filename| + |s.folder|
    ensures forall i :: 0 <= i < |s.filename| ==>
      SectionEntries(src, dest, s, unwrap)[i] == EntryMapping(src, dest, s.filename[i], unwrap)
    ensures forall j :: 0 <= j < |s.folder| ==>
      SectionEntries(src, dest, s, unwrap)[|s.filename| + j] == EntryMapping(src, dest, s.folder[j], unwrap)
  {
    var a := MapEntries(src, dest, s.filename, unwrap);
    var b := MapEntries(src, dest, s.folder, unwrap);
    MapEntriesAt(src, dest, s.filename, unwrap);
    MapEntriesAt(src, dest, s.folder, unwrap);
    assert SectionEntries(src, dest, s, unwrap) == a + b;
    forall i | 0 <= i < |s.filename|
      ensures (a + b)[i] == EntryMapping(src, dest, s.filename[i], unwrap)
    {
      assert (a + b)[i] == a[i];
    }
    forall j | 0 <= j < |s.folder|
      ensures (a + b)[|s.filename| + j] == EntryMapping(src, dest, s.folder[j], unwrap)
    {
      assert (a + b)[|a| + j] == b[j];
    }
  }

  /** An attributed entry contributes its text in a files section but the
      text "[object Object]" in a media section, on both sides of the mapping. */
  lemma AttributedEntryNames(base: string, s: Section, i: nat)
    requires i < |s.filename| && s.filename[i].Tagged?
    ensures FilesSection(base, s)[i].dest == AttrPrefix(s.attrs, "folder") + "/" + s.filename[i].text
    ensures MediaSection(base, s)[i].src == base + AttrPrefix(s.attrs, "destination") + "/" + ObjectString()
    ensures MediaSection(base, s)[i].dest == AttrPrefix(s.attrs, "folder") + "/" + ObjectString()
  {
    SectionEntriesOrder(base, AttrPrefix(s.attrs, "folder"), s, true);
    SectionEntriesOrder(base + AttrPrefix(s.attrs, "destination"), AttrPrefix(s.attrs, "folder"), s, false);
  }

  // ---------------------------------------------------------------------
  // languages sections

  predicate AllTagged(es: seq<Entry>)
  {
    forall i :: 0 <= i < |es| ==> es[i].Tagged?
  }

  predicate SectionsTagged(ss: seq<Section>)
  {
    forall i :: 0 <= i < |ss| ==> AllTagged(ss[i].language)
  }

  /** The mapping of one attributed `<language>` entry. */
  function LanguageMapping(base: string, prefix: string, e: Entry): Mapping
    requires e.Tagged?
  {
    Mapping(base + "/" + Lookup(e.attrs, "tag") + "/" + Basename(e.text), prefix + "/" + e.text)
  }

  /** One mapping per `<language>` entry, in list order, or the error for a
      bare-text entry. */
  function MapLanguages(base: string, prefix: string, es: seq<Entry>): (r: Result<seq<Mapping>>)
    ensures r.Ok? <==> AllTagged(es)
    ensures r.Err? ==> r.error == UntaggedLanguage
  {
    if es == [] then Ok([])
    else
      var init :- MapLanguages(base, prefix, es[..|es| - 1]);
      var e := es[|es| - 1];
      if e.Plain? then Err(UntaggedLanguage)
      else Ok(init + [LanguageMapping(base, prefix, e)])
  }

  /** A `<languages>` section relative to `base`. */
  function LanguagesSection(base: string, s: Section): (r: Result<seq<Mapping>>)
    ensures r.Ok? <==> AllTagged(s.language)
    ensures r.Err? ==> r.error == UntaggedLanguage
  {
    MapLanguages(base, AttrPrefix(s.attrs, "folder"), s.language)
  }

  /** A successful languages section has exactly one mapping per entry, in list order. */
  lemma {:induction false} MapLanguagesAt(base: string, prefix: string, es: seq<Entry>)
    requires AllTagged(es)
    ensures |MapLanguages(base, prefix, es).value| == |es|
    ensures forall i :: 0 <= i < |es| ==> MapLanguages(base, prefix, es).value[i] == LanguageMapping(base, prefix, es[i])
  {
    if es != [] {
      MapLanguagesAt(base, prefix, es[..|es| - 1]);
    }
  }

  /** The source of a language file is its basename in the folder named by
      its `tag` attribute; the destination keeps the declared path. */
  lemma LanguageMappingShape(base: string, prefix: string, e: Entry)
    requires e.Tagged?
    ensures var m := LanguageMapping(base, prefix, e);
      && m.dest == prefix + "/" + e.text
      && m.src == base + "/" + Lookup(e.attrs, "tag") + "/" + Basename(e.text)
      && NoSlash(Basename(e.text))
      && ((prefix == "" || Rooted(prefix)) ==> Rooted(m.dest))
  {
    BasenameShape(e.text);
  }

  /** A source below a language folder drops the declared sub-directory; the
      destination keeps it. */
  lemma LanguageSourceIsFlat(base: string, prefix: string, e: Entry, dir: string, name: string)
    requires e.Tagged? && e.text == dir + "/" + name
    requires NoSlash(name) && name != []
    ensures LanguageMapping(base, prefix, e).src == base + "/" + Lookup(e.attrs, "tag") + "/" + name
    ensures LanguageMapping(base, prefix, e).dest == prefix + "/" + dir + "/" + name
  {
    BasenameOfJoin(dir, name);
  }

  // ---------------------------------------------------------------------
  // lists of sections, in document order

  function FilesSections(base: string, ss: seq<Section>): seq<Mapping>
  {
    if ss == [] then [] else FilesSections(base, ss[..|ss| - 1]) + FilesSection(base, ss[|ss| - 1])
  }

  function MediaSections(base: string, ss: seq<Section>): seq<Mapping>
  {
    if ss == [] then [] else MediaSections(base, ss[..|ss| - 1]) + MediaSection(base, ss[|ss| - 1])
  }

  function LanguagesSections(base: string, ss: seq<Section>): (r: Result<seq<Mapping>>)
    ensures r.Ok? <==> SectionsTagged(ss)
    ensures r.Err? ==> r.error == UntaggedLanguage
  {
    if ss == [] then Ok([])
    else
      SectionsTaggedSnoc(ss);
      var init :- LanguagesSections(base, ss[..|ss| - 1]);
      var last :- LanguagesSection(base, ss[|ss| - 1]);
      Ok(init + last)
  }

  /** A list of sections is tagged when its prefix and its last section are. */
  lemma SectionsTaggedSnoc(ss: seq<Section>)
    requires ss != []
    ensures SectionsTagged(ss) <==> SectionsTagged(ss[..|ss| - 1]) && AllTagged(ss[|ss| - 1].language)
  {
    var n := |ss| - 1;
    assert forall i :: 0 <= i < n ==> ss[..n][i] == ss[i];
  }

  /** The files sections of the site (`admin` false) or of an `<administration>`
      element: their base path is computed only when there are any. */
  function FilesOf(o: Options, admin: bool, ss: seq<Section>): (r: Result<seq<Mapping>>)
    ensures r.Err? <==> ss != [] && !ValidKind(o)
    ensures r.Err? ==> r.error == InvalidType
  {
    if ss == [] then Ok([])
    else
      var base :- FilesPath(o, admin);
      Ok(FilesSections(base, ss))
  }

  predicate AdminFails(o: Options, a: Administration)
  {
    (a.files != [] && !ValidKind(o)) || !SectionsTagged(a.languages)
  }

  /** What one `<administration>` element contributes: its files, then its
      languages, both on the administrator side. */
  function AdminContribution(o: Options, a: Administration): (r: Result<seq<Mapping>>)
    ensures r.Err? <==> AdminFails(o, a)
    ensures r.Err? ==> r.error == if a.files != [] && !ValidKind(o) then InvalidType else UntaggedLanguage
  {
    var files :- FilesOf(o, true, a.files);
    var languages :- LanguagesSections(LanguagesPath(o, true), a.languages);
    Ok(files + languages)
  }

  function AdminSections(o: Options, admins: seq<Administration>): (r: Result<seq<Mapping>>)
    ensures r.Err? <==> exists i :: 0 <= i < |admins| && AdminFails(o, admins[i])
    ensures r.Err? ==> r.error == InvalidType || r.error == UntaggedLanguage
    ensures r.Err? && ValidKind(o) ==> r.error == UntaggedLanguage
  {
    if admins == [] then Ok([])
    else
      var n := |admins| - 1;
      AdminsFailSnoc(o, admins);
      var init :- AdminSections(o, admins[..n]);
      var last :- AdminContribution(o, admins[n]);
      Ok(init + last)
  }

  predicate SomeAdminFails(o: Options, admins: seq<Administration>)
  {
    exists i :: 0 <= i < |admins| && AdminFails(o, admins[i])
  }

  /** Some element of a list fails when one of its prefix or its last one does. */
  lemma AdminsFailSnoc(o: Options, admins: seq<Administration>)
    requires admins != []
    ensures SomeAdminFails(o, admins) <==> SomeAdminFails(o, admins[..|admins| - 1]) || AdminFails(o, admins[|admins| - 1])
  {
    var n := |admins| - 1;
    assert forall i :: 0 <= i < n ==> admins[..n][i] == admins[i];
  }

  /** Once some elements fail, the whole list fails with their error. */
  lemma {:induction false} AdminSectionsFailFirst(o: Options, admins: seq<Administration>, k: nat)
    requires k <= |admins| && AdminSections(o, admins[..k]).Err?
    ensures AdminSections(o, admins) == AdminSections(o, admins[..k])
  {
    if k < |admins| {
      var init := admins[..|admins| - 1];
      assert init[..k] == admins[..k];
      AdminSectionsFailFirst(o, init, k);
    } else {
      assert admins[..k] == admins;
    }
  }

  /** When the mapping fails: a files section on a kind no switch handles, or
      a bare-text `<language>` entry. */
  predicate Fails(ext: Extension, o: Options)
  {
    || (ext.files != [] && !ValidKind(o))
    || !SectionsTagged(ext.languages)
    || exists i :: 0 <= i < |ext.administration| && AdminFails(o, ext.administration[i])
  }

  /** What the `<extension>` element contributes directly: its files
      sections, then its languages sections, then its media sections. */
  function SiteMapping(ext: Extension, o: Options): (r: Result<seq<Mapping>>)
    ensures r.Err? <==> (ext.files != [] && !ValidKind(o)) || !SectionsTagged(ext.languages)
    ensures r.Err? ==> r.error == if ext.files != [] && !ValidKind(o) then InvalidType else UntaggedLanguage
  {
    var files :- FilesOf(o, false, ext.files);
    var languages :- LanguagesSections(LanguagesPath(o, false), ext.languages);
    var media := MediaSections(Lookup(o, Joomla) + "/media", ext.media);
    Ok(files + languages + media)
  }

  /** The whole mapping: the extension's own sections, then each
      `<administration>` element's files and languages, in document order;
      a missing section contributes nothing. */
  function MappingSpec(ext: Extension, o: Options): (r: Result<seq<Mapping>>)
    ensures r.Err? <==> Fails(ext, o)
    ensures r.Err? ==> r.error == InvalidType || r.error == UntaggedLanguage
    ensures r.Err? && ValidKind(o) ==> r.error == UntaggedLanguage
  {
    var site :- SiteMapping(ext, o);
    var admin :- AdminSections(o, ext.administration);
    Ok(site + admin)
  }

  /** One more `<administration>` element appends its contribution, or fails with its error. */
  lemma AdminSectionsSnoc(o: Options, admins: seq<Administration>, k: nat)
    requires k < |admins| && AdminSections(o, admins[..k]).Ok?
    ensures var c := AdminContribution(o, admins[k]);
      AdminSections(o, admins[..k + 1]) == if c.Err? then Err(c.error) else Ok(AdminSections(o, admins[..k]).value + c.value)
  {
    assert admins[..k + 1][..k] == admins[..k];
  }

  // ---------------------------------------------------------------------
  // every destination starts with a slash

  /** One more section appends its mappings. */
  lemma MediaSectionsSnoc(base: string, ss: seq<Section>, k: nat)
    requires k < |ss|
    ensures MediaSections(base, ss[..k + 1]) == MediaSections(base, ss[..k]) + MediaSection(base, ss[k])
  {
    assert ss[..k + 1][..k] == ss[..k];
  }

  lemma {:induction false} MapEntriesRooted(base: string, prefix: string, es: seq<Entry>, unwrap: bool)
    requires prefix == "" || Rooted(prefix)
    ensures AllRooted(MapEntries(base, prefix, es, unwrap))
  {
    if es != [] {
      MapEntriesRooted(base, prefix, es[..|es| - 1], unwrap);
      EntryMappingShape(base, prefix, es[|es| - 1], unwrap);
    }
  }

  lemma SectionEntriesRooted(src: string, dest: string, s: Section, unwrap: bool)
    requires dest == "" || Rooted(dest)
    ensures AllRooted(SectionEntries(src, dest, s, unwrap))
  {
    MapEntriesRooted(src, dest, s.filename, unwrap);
    MapEntriesRooted(src, dest, s.folder, unwrap);
  }

  lemma {:induction false} FilesSectionsRooted(base: string, ss: seq<Section>)
    ensures AllRooted(FilesSections(base, ss))
  {
    if ss != [] {
      var s := ss[|ss| - 1];
      FilesSectionsRooted(base, ss[..|ss| - 1]);
      SectionEntriesRooted(base, AttrPrefix(s.attrs, "folder"), s, true);
    }
  }

  lemma {:induction false} MediaSectionsRooted(base: string, ss: seq<Section>)
    ensures AllRooted(MediaSections(base, ss))
  {
    if ss != [] {
      var s := ss[|ss| - 1];
      MediaSectionsRooted(base, ss[..|ss| - 1]);
      SectionEntriesRooted(base + AttrPrefix(s.attrs, "destination"), AttrPrefix(s.attrs, "folder"), s, false);
    }
  }

  lemma {:induction false} MapLanguagesRooted(base: string, prefix: string, es: seq<Entry>)
    requires prefix == "" || Rooted(prefix)
    requires AllTagged(es)
    ensures AllRooted(MapLanguages(base, prefix, es).value)
  {
    if es != [] {
      MapLanguagesRooted(base, prefix, es[..|es| - 1]);
      LanguageMappingShape(base, prefix, es[|es| - 1]);
    }
  }

  lemma {:induction false} LanguagesSectionsRooted(base: string, ss: seq<Section>)
    requires SectionsTagged(ss)
    ensures AllRooted(LanguagesSections(base, ss).value)
  {
    if ss != [] {
      var s := ss[|ss| - 1];
      LanguagesSectionsRooted(base, ss[..|ss| - 1]);
      MapLanguagesRooted(base, AttrPrefix(s.attrs, "folder"), s.language);
    }
  }

  lemma {:induction false} AdminSectionsRooted(o: Options, admins: seq<Administration>)
    requires AdminSections(o, admins).Ok?
    ensures AllRooted(AdminSections(o, admins).value)
  {
    if admins != [] {
      var a := admins[|admins| - 1];
      AdminSectionsRooted(o, admins[..|admins| - 1]);
      if a.files != [] {
        FilesSectionsRooted(FilesPath(o, true).value, a.files);
      }
      LanguagesSectionsRooted(LanguagesPath(o, true), a.languages);
    }
  }

  /** Every destination of a successful mapping starts with a slash. */
  lemma MappingSpecRooted(ext: Extension, o: Options)
    requires MappingSpec(ext, o).Ok?
    ensures AllRooted(MappingSpec(ext, o).value)
  {
    if ext.files != [] {
      FilesSectionsRooted(FilesPath(o, false).value, ext.files);
    }
    LanguagesSectionsRooted(LanguagesPath(o, false), ext.languages);
    MediaSectionsRooted(Lookup(o, Joomla) + "/media", ext.media);
    AdminSectionsRooted(o, ext.administration);
    assert SiteMapping(ext, o).Ok?;
  }

  // ---------------------------------------------------------------------
  // the packager's procedures, which append to a list


  /** Appends the mapping of each entry in turn. */
  method AppendEntries(ms: seq<Mapping>, base: string, prefix: string, es: seq<Entry>, unwrap: bool)
    returns (out: seq<Mapping>)
    ensures out == ms + MapEntries(base, prefix, es, unwrap)
  {
    out := ms;
    for i := 0 to |es|
      invariant out == ms + MapEntries(base, prefix, es[..i], unwrap)
    {
      assert es[..i + 1][..i] == es[..i];
      AppendAssoc(ms, MapEntries(base, prefix, es[..i], unwrap), [EntryMapping(base, prefix, es[i], unwrap)]);
      out := out + [EntryMapping(base, prefix, es[i], unwrap)];
    }
    assert es[..|es|] == es;
  }

  method ProcessFiles(base: string, files: Section) returns (mappings: seq<Mapping>)
    ensures mappings == FilesSection(base, files)
  {
    var dest := AttrPrefix(files.attrs, "folder");
    mappings := [];
    mappings := AppendEntries(mappings, base, dest, files.filename, true);
    mappings := AppendEntries(mappings, base, dest, files.folder, true);
  }

  method ProcessMedia(base: string, media: Section) returns (mappings: seq<Mapping>)
    ensures mappings == MediaSection(base, media)
  {
    var src := AttrPrefix(media.attrs, "destination");
    var dest := AttrPrefix(media.attrs, "folder");
    mappings := [];
    mappings := AppendEntries(mappings, base + src, dest, media.filename, false);
    mappings := AppendEntries(mappings, base + src, dest, media.folder, false);
  }

  method ProcessLanguages(base: string, languages: Section) returns (r: Result<seq<Mapping>>)
    ensures r == LanguagesSection(base, languages)
  {
    var dest := AttrPrefix(languages.attrs, "folder");
    var mappings: seq<Mapping> := [];
    for i := 0 to |languages.language|
      invariant MapLanguages(base, dest, languages.language[..i]) == Ok(mappings)
    {
      var file := languages.language[i];
      assert languages.language[..i + 1][..i] == languages.language[..i];
      if file.Plain? {
        return Err(UntaggedLanguage);
      }
      mappings := mappings + [LanguageMapping(base, dest, file)];
    }
    assert languages.language[..|languages.language|] == languages.language;
    return Ok(mappings);
  }

  /** Appends the mappings of every files section in turn. */
  method CollectFiles(mapping: seq<Mapping>, base: string, sections: seq<Section>) returns (out: seq<Mapping>)
    ensures out == mapping + FilesSections(base, sections)
  {
    out := mapping;
    for i := 0 to |sections|
      invariant out == mapping + FilesSections(base, sections[..i])
    {
      assert sections[..i + 1][..i] == sections[..i];
      var list := ProcessFiles(base, sections[i]);
      assert FilesSections(base, sections[..i + 1]) == FilesSections(base, sections[..i]) + list;
      AppendAssoc(mapping, FilesSections(base, sections[..i]), list);
      out := out + list;
    }
    assert sections[..|sections|] == sections;
  }

  /** Appends the mappings of every media section in turn. */
  method CollectMedia(mapping: seq<Mapping>, base: string, sections: seq<Section>) returns (out: seq<Mapping>)
    ensures out == mapping + MediaSections(base, sections)
  {
    out := mapping;
    for i := 0 to |sections|
      invariant out == mapping + MediaSections(base, sections[..i])
    {
      var list := ProcessMedia(base, sections[i]);
      MediaSectionsSnoc(base, sections, i);
      AppendAssoc(mapping, MediaSections(base, sections[..i]), list);
      out := out + list;
    }
    assert sections[..|sections|] == sections;
  }

  /** Appends the mappings of every languages section in turn, or fails. */
  method CollectLanguages(mapping: seq<Mapping>, base: string, sections: seq<Section>) returns (r: Result<seq<Mapping>>)
    ensures LanguagesSections(base, sections).Ok? ==> r == Ok(mapping + LanguagesSections(base, sections).value)
    ensures LanguagesSections(base, sections).Err? ==> r == Err(UntaggedLanguage)
  {
    var out := mapping;
    for i := 0 to |sections|
      invariant LanguagesSections(base, sections[..i]).Ok?
      invariant out == mapping + LanguagesSections(base, sections[..i]).value
    {
      assert sections[..i + 1][..i] == sections[..i];
      var list := ProcessLanguages(base, sections[i]);
      if list.Err? {
        return list;
      }
      AppendAssoc(mapping, LanguagesSections(base, sections[..i]).value, list.value);
      out := out + list.value;
    }
    assert sections[..|sections|] == sections;
    return Ok(out);
  }

  /** The contribution of one `<administration>` element appended to `mapping`. */
  method ProcessAdministration(options: Options, administration: Administration, mapping: seq<Mapping>)
    returns (r: Result<seq<Mapping>>)
    ensures var c := AdminContribution(options, administration);
      r == if c.Err? then Err(c.error) else Ok(mapping + c.value)
  {
    var out := mapping;
    if administration.files != [] {
      var filesPath := FilesPath(options, true);
      if filesPath.Err? {
        return Err(filesPath.error);
      }
      out := CollectFiles(out, filesPath.value, administration.files);
    }
    ghost var files := FilesOf(options, true, administration.files).value;
    assert out == mapping + files;
    if administration.languages != [] {
      var languages := CollectLanguages(out, LanguagesPath(options, true), administration.languages);
      if languages.Err? {
        return languages;
      }
      out := languages.value;
    }
    ghost var langs := LanguagesSections(LanguagesPath(options, true), administration.languages).value;
    assert AdminContribution(options, administration) == Ok(files + langs);
    AppendAssoc(mapping, files, langs);
    assert out == mapping + (files + langs);
    assert Ok(out) == Ok(mapping + AdminContribution(options, administration).value);
    return Ok(out);
  }

  /** The mapping list, built as the packager builds it: one shared base path
      reassigned before each kind of the extension's own sections, local base
      paths for the administrator side, and one list appended to. */
  method GetMapping(extension: Extension, options: Options) returns (r: Result<seq<Mapping>>)
    ensures r == MappingSpec(extension, options)
  {
    var mapping: seq<Mapping> := [];
    var path: string;
    if extension.files != [] {
      var filesPath := FilesPath(options, false);
      if filesPath.Err? {
        return Err(filesPath.error);
      }
      path := filesPath.value;
      mapping := CollectFiles(mapping, path, extension.files);
    }
    ghost var files := FilesOf(options, false, extension.files).value;
    assert mapping == files;
    if extension.languages != [] {
      path := LanguagesPath(options, false);
      var languages := CollectLanguages(mapping, path, extension.languages);
      if languages.Err? {
        return languages;
      }
      mapping := languages.value;
    }
    ghost var langs := LanguagesSections(LanguagesPath(options, false), extension.languages).value;
    assert mapping == files + langs;
    if extension.media != [] {
      path := Lookup(options, Joomla) + "/media";
      mapping := CollectMedia(mapping, path, extension.media);
    }
    assert mapping == files + langs + MediaSections(Lookup(options, Joomla) + "/media", extension.media);
    ghost var site := mapping;
    assert SiteMapping(extension, options) == Ok(site);
    var admins := extension.administration;
    for i := 0 to |admins|
      invariant AdminSections(options, admins[..i]).Ok?
      invariant mapping == site + AdminSections(options, admins[..i]).value
    {
      var next := ProcessAdministration(options, admins[i], mapping);
      AdminSectionsSnoc(options, admins, i);
      if next.Ok? {
        AppendAssoc(site, AdminSections(options, admins[..i]).value, AdminContribution(options, admins[i]).value);
      }
      if next.Err? {
        AdminSectionsFailFirst(options, admins, i + 1);
        return next;
      }
      mapping := next.value;
    }
    assert admins[..|admins|] == admins;
    return Ok(mapping);
  }
}
