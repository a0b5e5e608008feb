/** The configuration resolver: the task's options merged with their defaults. */
module Config {
  import opened Common

  /** The option names the task reads: `joomla`, `dest`, `administrator`,
      `libraries`, `plugins`, `templates`, `manifests`, `adminTemplates`,
      `type`, `name` and `group`. */
  datatype Key =
    | Joomla | Dest | Administrator | Libraries | Plugins | Templates | Manifests | AdminTemplates
    | Type | Name | Group

  /** The options object the task works with, by option name. */
  type Options = map<Key, string>

  /** The option names the resolver always provides. */
  const ResolvedKeys: set<Key> :=
    {Joomla, Dest, Administrator, Libraries, Plugins, Templates, Manifests, AdminTemplates}

  /** The user's value for `key`, or `default` when the user gave none. */
  function Override(user: Options, key: Key, default: string): string
  {
    if key in user then user[key] else default
  }

  // Each merge below is `d + user`: Grunt's merge of defaults `d` with the
  // user's options, in which the user's value wins.

  /** The first merge: the Joomla root and the destination. */
  function MergeRoots(user: Options): (o: Options)
    ensures forall k :: k in o <==> k in user || k in {Joomla, Dest}
    ensures forall k :: k in user ==> o[k] == user[k]
    ensures o[Joomla] == Override(user, Joomla, ".")
    ensures o[Dest] == Override(user, Dest, "./dest")
  {
    map[Joomla := ".", Dest := "./dest"] + user
  }

  /** The options the second merge derives from the Joomla root. */
  const PathKeys: set<Key> := {Administrator, Libraries, Plugins, Templates, Manifests}

  /** The folder a derived path option adds to the path it is derived from. */
  function Folder(k: Key): string
  {
    match k
    case Administrator => "/administrator"
    case Libraries => "/libraries"
    case Plugins => "/plugins"
    case Templates | AdminTemplates => "/templates"
    case Manifests => "/manifests"
    case _ => ""
  }

  /** The defaults of the second merge, all below the Joomla root `joomla`. */
  function PathDefaults(joomla: string): (d: Options)
    ensures forall k :: k in d <==> k in PathKeys
    ensures forall k :: k in d ==> d[k] == joomla + Folder(k)
  {
    map k | k in PathKeys :: joomla + Folder(k)
  }

  /** The second merge: the paths below the resolved Joomla root. */
  function MergePaths(user: Options): (o: Options)
    ensures forall k :: k in o <==> k in user || k in {Joomla, Dest} || k in PathKeys
    ensures forall k :: k in user ==> o[k] == user[k]
    ensures o[Joomla] == Override(user, Joomla, ".")
    ensures o[Dest] == Override(user, Dest, "./dest")
    ensures forall k :: k in PathKeys ==> o[k] == Override(user, k, o[Joomla] + Folder(k))
  {
    var roots := MergeRoots(user);
    roots + PathDefaults(roots[Joomla]) + user
  }

  /** The resolved options: the third merge adds the administrator templates
      path, derived from the administrator path the second merge resolved. */
  function GetOptions(user: Options): (o: Options)
    ensures forall k :: k in o <==> k in MergePaths(user) || k == AdminTemplates
    ensures o[AdminTemplates] == Override(user, AdminTemplates, MergePaths(user)[Administrator] + Folder(AdminTemplates))
  {
    var paths := MergePaths(user);
    paths + map[AdminTemplates := paths[Administrator] + Folder(AdminTemplates)] + user
  }

  /** The resolved options hold every option the user gave, unchanged, and
      every option the resolver provides. */
  lemma OptionKeys(user: Options)
    ensures forall k :: k in GetOptions(user) <==> k in user || k in ResolvedKeys
    ensures forall k :: k in user ==> GetOptions(user)[k] == user[k]
  {
  }

  /** Every resolved option is the user's value when given, and otherwise its
      default: `.` for the Joomla root, `./dest` for the destination, a folder
      below the resolved Joomla root for the five paths, and a folder below the
      resolved administrator path for the administrator templates. */
  lemma ResolvedOptions(user: Options)
    ensures var o := GetOptions(user);
      && o[Joomla] == Override(user, Joomla, ".")
      && o[Dest] == Override(user, Dest, "./dest")
      && o[Administrator] == Override(user, Administrator, o[Joomla] + "/administrator")
      && o[Libraries] == Override(user, Libraries, o[Joomla] + "/libraries")
      && o[Plugins] == Override(user, Plugins, o[Joomla] + "/plugins")
      && o[Templates] == Override(user, Templates, o[Joomla] + "/templates")
      && o[Manifests] == Override(user, Manifests, o[Joomla] + "/manifests")
      && o[AdminTemplates] == Override(user, AdminTemplates, o[Administrator] + "/templates")
  {
    var paths := MergePaths(user);
    var o := GetOptions(user);
    forall k | k != AdminTemplates && k in paths
      ensures o[k] == paths[k]
    {
    }
    assert o[Joomla] == paths[Joomla];
  }
}
