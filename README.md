# Joomla extension packager, modelled in Dafny

The packager is a Grunt task. It copies the files of one Joomla extension from a
Joomla installation into a staging folder, from which an installable package can
be built. It does four things:

1. It resolves its options. The Joomla root defaults to `.` and the staging
   folder to `./dest`. The administrator, libraries, plugins, templates and
   manifests folders default to folders below the Joomla root. The
   administrator templates folder defaults to a folder below the resolved
   administrator folder. A value the user gives always wins.
2. It locates the extension's XML manifest from the extension's `type`, `name`
   and `group`.
3. It walks the parsed `<extension>` element and lists one copy instruction
   (`src`, `dest`) per file. The list holds, in order:
   - every `<files>` section;
   - then every `<languages>` section;
   - then every `<media>` section;
   - then, for each `<administration>` element, its `<files>` and then its
     `<languages>` sections.

   The list ends with one extra instruction that copies the manifest itself.
4. It copies the listed files.

The model covers steps 1–3 and the manifest entry. Each module follows one part
of `tasks/joomla_packager.js`:

- `Common`: option values, the three errors that stop the task, and the
  JavaScript property read (a missing property concatenates as "undefined").
- `Config`: option defaulting, as the source's three successive merges.
- `Locator`: the type switch, the manifest file name, the manifest directory,
  and the base paths of `files` and `languages` sections.
- `Paths`: POSIX `path.basename`.
- `Manifest`: the parsed manifest tree. An entry is either bare text or text
  with attributes. A section has attributes and `filename`, `folder` and
  `language` entry lists.
- `Resolver`: the mapping resolver.
- `Task`: the task body up to the final list.

The section processors and `getMapping` build their lists by appending, so they
are modelled as methods. Each method is proved equal to a specification
function, and the properties are proved about those functions. The path helpers
and the option defaulting are pure, so they are modelled as functions.

Quirks of the source that the model keeps as written:
- A component's site `files` sections resolve below the Joomla root
  (`/components/com_<name>`), while its manifest sits below the administrator
  folder. The model follows the code at `tasks/joomla_packager.js:254`, and
  `Task.ComponentRun` states the result.
- The files path of a language pack ends in a slash, so the sources of its
  files contain `//` (`Task.LanguageFileRun`).
- Media sections do not unwrap attributed entries. Such an entry contributes
  the text `[object Object]` (`Resolver.AttributedEntryNames`).
- Within a `files` or `media` section, all `filename` entries come before all
  `folder` entries (`Resolver.SectionEntriesOrder`).
- The `admin` flag of the files path does not affect plugins, files, libraries
  or packages (`Locator.FilesPathAdminFlag`).

## Model

| member | source | states |
|---|---|---|
| Config.MergeRoots | tasks/joomla_packager.js:86-89 | the first merge keeps every user option, and `joomla` and `dest` are the user's value or `.` and `./dest` |
| Config.PathDefaults | tasks/joomla_packager.js:92-98 | the second merge's defaults are exactly the five folders, each the Joomla root plus its folder name |
| Config.MergePaths | tasks/joomla_packager.js:92-98 | after the second merge, each of the five folders is the user's value or the resolved Joomla root plus its folder name; user options are kept unchanged |
| Config.GetOptions | tasks/joomla_packager.js:101-104 | the third merge adds only `adminTemplates`, which is the user's value or the administrator path from the second merge plus `/templates` |
| Config.OptionKeys | tasks/joomla_packager.js:83-105 | the resolved options hold exactly the user's options plus the eight resolved ones, and every user value is unchanged |
| Config.ResolvedOptions | tasks/joomla_packager.js:83-105 | each of the eight resolved options is the user's value when given, else its default, derived from the resolved `joomla` or the resolved `administrator` |
| Locator.KindOf | tasks/joomla_packager.js:117-136 | a `type` selects a kind exactly when it is that kind's name; every other string selects none |
| Locator.KindOfName | tasks/joomla_packager.js:117-136 | every kind's name selects that kind |
| Locator.ManifestFilename | tasks/joomla_packager.js:115-137 | fails with InvalidType exactly on unknown types; gives `name.xml` for component, plugin, file, library and package, `mod_name.xml` for module, `templateDetails.xml` for template and `install.xml` for language |
| Locator.ExtensionPath | tasks/joomla_packager.js:146-176 | fails with InvalidType exactly when the type is not one of the eight kinds |
| Locator.ExtensionPathTable | tasks/joomla_packager.js:146-176 | the manifest directory of each of the eight kinds, with the administrator-side root for module, template and language exactly when the group is "admin" |
| Locator.FilesPath | tasks/joomla_packager.js:249-280 | fails with InvalidType exactly when the type is not one of the eight kinds |
| Locator.LocatorFailsTogether | tasks/joomla_packager.js:115-280 | the manifest name, the manifest directory and the files path fail on exactly the same options |
| Locator.ExtensionPathFromFilesPath | tasks/joomla_packager.js:146-280 | a plugin's manifest directory is its files path for either flag; a module's or template's is the files path of its own side; a component's is the administrator files path; a language pack's is the site files path plus its name |
| Locator.FilesPathAdminFlag | tasks/joomla_packager.js:249-280 | the `admin` flag acts as group "admin" for module, template and language, and is ignored by plugin, file, library and package |
| Locator.ComponentFilesPath | tasks/joomla_packager.js:253-254 | for every option set, a component's files path is its folder below the Joomla root on the site side and below the administrator folder on the administrator side, and the group does not change it |
| Locator.FilesPathFlatKinds | tasks/joomla_packager.js:268-275 | file, library and package use the Joomla root, the libraries folder and the empty path, whatever the flag |
| Locator.LanguageFilesPath | tasks/joomla_packager.js:337-340 | a language pack's files path is the languages path of its side followed by one more slash, and its manifest directory is the languages path of the group's side followed by its name |
| Locator.LanguagesPathSide | tasks/joomla_packager.js:337-340 | the languages path ignores the extension's type and group, and each side reads only its own root |
| Locator.AdminGroupSiteSections | tasks/joomla_packager.js:256-263 | a module or template in the group "admin" takes its site-level files from the administrator side, while its site-level languages stay below the Joomla root, and the two languages paths differ exactly when the two roots do |
| Locator.ExtensionPathSide | tasks/joomla_packager.js:153-163 | for module, template and language, the site roots do not matter when the group is "admin", and the administrator roots do not matter otherwise |
| Paths.TrimTrailingSlashesShape | tasks/joomla_packager.js:381 | trimming keeps a prefix that does not end in a slash and drops only slashes |
| Paths.LastSegmentShape | tasks/joomla_packager.js:381 | the last segment is a slash-free suffix, either the whole string or preceded by a slash |
| Paths.BasenameShape | tasks/joomla_packager.js:381 | a basename contains no slash; for a path without a trailing slash it is the part after the last slash |
| Paths.LastSegmentOfJoin | tasks/joomla_packager.js:381 | the last segment of `dir/name`, with `name` slash-free, is `name` |
| Paths.BasenameOfJoin | tasks/joomla_packager.js:381 | the basename of `dir/name`, with `name` non-empty and slash-free, is `name` |
| Resolver.AttrPrefix | tasks/joomla_packager.js:294 | a `folder` or `destination` prefix is either empty or starts with a slash |
| Resolver.MapEntries | tasks/joomla_packager.js:296-304 | a list of entries gives exactly as many mappings |
| Resolver.EntryMappingShape | tasks/joomla_packager.js:315-326 | an entry's source is the base path, a slash and its name; its destination is the prefix followed by the same slash and name; a rooted or empty prefix gives a rooted destination |
| Resolver.MapEntriesAt | tasks/joomla_packager.js:296-304 | the i-th mapping of a list is the mapping of its i-th entry |
| Resolver.SectionEntriesOrder | tasks/joomla_packager.js:296-306 | a files or media section yields one mapping per `filename` entry, in order, followed by one per `folder` entry, in order |
| Resolver.AttributedEntryNames | tasks/joomla_packager.js:289-430 | an attributed entry contributes its text in a files section, and `[object Object]` on both sides of a media mapping |
| Resolver.MapLanguages | tasks/joomla_packager.js:356-384 | a list of `language` entries maps successfully exactly when every entry has attributes; otherwise it fails with UntaggedLanguage |
| Resolver.LanguagesSection | tasks/joomla_packager.js:349-385 | a `languages` section maps successfully exactly when every entry has attributes; otherwise it fails with UntaggedLanguage |
| Resolver.MapLanguagesAt | tasks/joomla_packager.js:356-361 | a successful languages list has one mapping per entry, and the i-th mapping belongs to the i-th entry |
| Resolver.LanguageMappingShape | tasks/joomla_packager.js:377-383 | a language file's source is in the folder named by its `tag` and keeps only the basename; its destination keeps the declared path below the prefix |
| Resolver.LanguageSourceIsFlat | tasks/joomla_packager.js:377-383 | for a declared path `dir/name`, the source drops `dir` and the destination keeps it |
| Resolver.LanguagesSections | tasks/joomla_packager.js:201-207 | a list of `languages` sections succeeds exactly when all their entries have attributes, and fails with UntaggedLanguage otherwise |
| Resolver.FilesOf | tasks/joomla_packager.js:193-199 | `files` sections fail with InvalidType exactly when some are present and the type is unknown; without sections the type is never looked at |
| Resolver.AdminContribution | tasks/joomla_packager.js:219-235 | one `administration` element fails exactly when it has files under an unknown type or a bare language entry; the files error comes first |
| Resolver.AdminSections | tasks/joomla_packager.js:217-236 | the `administration` elements fail exactly when one of them fails, with InvalidType or UntaggedLanguage, and only with UntaggedLanguage when the type is valid |
| Resolver.AdminSectionsFailFirst | tasks/joomla_packager.js:219-235 | once a prefix of the `administration` elements fails, the later elements do not change the outcome |
| Resolver.SiteMapping | tasks/joomla_packager.js:193-215 | the extension's own sections fail exactly on files under an unknown type or a bare language entry, and the files error comes first |
| Resolver.MappingSpec | tasks/joomla_packager.js:186-239 | the whole mapping fails exactly when a files section meets an unknown type or a language entry is bare, and under a valid type only with UntaggedLanguage |
| Resolver.MapEntriesRooted | tasks/joomla_packager.js:315-326 | with an empty or rooted prefix, every destination is rooted |
| Resolver.SectionEntriesRooted | tasks/joomla_packager.js:296-306 | every destination of a files or media section starts with a slash |
| Resolver.FilesSectionsRooted | tasks/joomla_packager.js:193-199 | every destination of a list of files sections starts with a slash |
| Resolver.MediaSectionsRooted | tasks/joomla_packager.js:209-215 | every destination of a list of media sections starts with a slash |
| Resolver.MapLanguagesRooted | tasks/joomla_packager.js:377-383 | every destination of a languages list starts with a slash |
| Resolver.LanguagesSectionsRooted | tasks/joomla_packager.js:201-207 | every destination of a list of languages sections starts with a slash |
| Resolver.AdminSectionsRooted | tasks/joomla_packager.js:217-236 | every destination from the `administration` elements starts with a slash |
| Resolver.MappingSpecRooted | tasks/joomla_packager.js:186-239 | every destination of a successful mapping starts with a slash |
| Resolver.AppendEntries | tasks/joomla_packager.js:296-304 | appending each entry's mapping in turn appends the mappings of the whole list |
| Resolver.ProcessFiles | tasks/joomla_packager.js:289-327 | builds exactly the files section's mapping list |
| Resolver.ProcessMedia | tasks/joomla_packager.js:394-430 | builds exactly the media section's mapping list |
| Resolver.ProcessLanguages | tasks/joomla_packager.js:349-385 | builds exactly the languages section's mapping list, or stops with UntaggedLanguage at the first bare entry |
| Resolver.CollectFiles | tasks/joomla_packager.js:193-199 | appends the mappings of every files section in document order |
| Resolver.CollectMedia | tasks/joomla_packager.js:209-215 | appends the mappings of every media section in document order |
| Resolver.CollectLanguages | tasks/joomla_packager.js:201-207 | appends the mappings of every languages section in document order, or fails with UntaggedLanguage |
| Resolver.ProcessAdministration | tasks/joomla_packager.js:219-235 | appends one `administration` element's files and then its languages, or gives its error |
| Resolver.GetMapping | tasks/joomla_packager.js:186-239 | the list built by appending, with one shared base path reassigned before each kind of the extension's own sections, is exactly the specified mapping or its error |
| Task.TaskMapping | tasks/joomla_packager.js:23-55 | a run fails exactly on an unknown type, a missing or empty `<extension>`, or a failing mapping, and reports those errors in that order of precedence |
| Task.TaskMappingEndsWithManifest | tasks/joomla_packager.js:49-55 | a successful run's list is the resolver's list followed by exactly one entry, which copies the manifest from its directory to the package root under its own name |
| Task.TaskMappingRooted | tasks/joomla_packager.js:49-55 | every destination of a successful run, the manifest's included, starts with a slash |
| Task.Package | tasks/joomla_packager.js:23-55 | the task body, which pushes the manifest entry onto the resolver's list, computes exactly the run's result |
| Task.SingleFileMapping | tasks/joomla_packager.js:193-199 | a manifest with a single bare file copies that file from the site files path to a slash followed by its own name |
| Task.ComponentRun | tasks/joomla_packager.js:249-254 | for a component whose user options set `joomla` and leave `administrator` at its default, the site file comes from below the Joomla root and the manifest from below the administrator folder |
| Task.LanguageFileRun | tasks/joomla_packager.js:265-266 | for a language pack outside the group "admin", a site-level file's source has a doubled slash after the language folder |

## Left out

- A `<language>` element with child elements and no attributes is not modelled. The parser gives it `_` but no `$`, so it passes the object test at `tasks/joomla_packager.js:372` and the read of `file.$.tag` at line 378 throws, which stops the run. `Tagged` always stands for an element with attributes.
- Resolver.MappingSpecRooted, Task.TaskMappingRooted: a destination is only proved to start with a slash. Its later segments come from the manifest unchecked (`tasks/joomla_packager.js:294`, `:323-324`), so a `..` segment in an entry or in a `folder` attribute is kept, and the copy to `dest` plus that path (`tasks/joomla_packager.js:61`) can land outside the package folder.
- Resolver.ProcessAdministration: the source also reassigns the task's shared `path` before the administrator-side files and languages (`tasks/joomla_packager.js:222`, `:230`); the model computes those two base paths as local values instead. Each value is read only right after it is set, so the mappings are the same, but the model does not show the shared field's final value.
- Grunt plumbing is not modelled: task registration, `this.async()`/`done()`, and the option callback. `Config` models Grunt's option merge (`this.options`) as map union in which the user's value wins, and the `merge` library as map union in which its second argument, the defaults, wins (`tasks/joomla_packager.js:93`, `:102`); the enclosing option merge then puts the user's values back on top.
- Options the task never reads are not modelled; only its eleven named options are. Option values are strings. A non-string value, such as a number or an object, is not modelled.
- Reading the manifest and parsing the XML are not modelled: `grunt.file.read`, xml2js `parseString` and its error callback. The parsed tree is an input. Its `extension` element may be missing, which is modelled as an error result. An empty `<extension/>` counts as missing too: the parser turns an element with no attributes, children or text into the empty string, which fails the test at `tasks/joomla_packager.js:44`, so such a document is given to the model as `Document(None)`.
- Copying is not modelled. This covers the check for each source file, `fs.copySync` to the staging folder plus the destination, and the warning on a missing file. These are file-system effects, and whether a warning stops the task depends on Grunt's `--force` flag.
- Logging and fatal reporting are not modelled (`grunt.fatal`, `grunt.verbose.log`, and the `console` output in `processMedia`). The error is returned instead. `Common.Message` gives the text each error carries.
- An attributed entry without text is not modelled; the model's entries always carry text. In the source, such an entry in a `files` section reads its text as "undefined" (`tasks/joomla_packager.js:319`, `:323`), while such a `<language>` entry passes no file name to `path.basename` (`tasks/joomla_packager.js:381`), which throws and stops the run.
- The empty section list stands for a missing section. xml2js never produces an empty child list, and both mean that the section contributes nothing.
- `path.basename` is modelled for `/`-separated paths only. Windows separators are not modelled.
- In `processLanguages`, the source maps every entry before appending any. The model appends one entry at a time. Both stop the whole run at the first bare entry, so the result is the same.
