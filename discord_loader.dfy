/** The Discord plugin's file loader (packages/discord/loader.ts): the directory scan,
    command, event and context-menu metadata derived from relative paths, and the intent
    suggestion. Files are given as their path segments below the scanned base directory;
    importing a file's module is not modelled. */
module DiscordLoader {
  import opened Strings
  import opened Opt
  import opened Routes

  predicate IsLineTerminator(c: char)
  {
    c == '\n' || c == '\r' || c == '\U{2028}' || c == '\U{2029}'
  }

  /** `/^\(.+\)$/.test(name)`: a parenthesised folder name. */
  predicate IsParenGroup(name: string)
  {
    |name| >= 3 && name[0] == '(' && name[|name| - 1] == ')' &&
    forall k :: 1 <= k < |name| - 1 ==> !IsLineTerminator(name[k])
  }

  /** A parenthesised folder name is a non-empty name between parentheses, and such a
      name without line terminators is one. */
  lemma ParenGroupShape(inner: string)
    ensures IsParenGroup("(" + inner + ")") <==> |inner| > 0 && forall k :: 0 <= k < |inner| ==> !IsLineTerminator(inner[k])
  {
    var name := "(" + inner + ")";
    assert |name| == |inner| + 2 && name[0] == '(' && name[|name| - 1] == ')';
    assert forall k :: 0 <= k < |inner| ==> name[k + 1] == inner[k];
  }

  predicate IsScript(name: string)
  {
    EndsWith(name, ".ts") || EndsWith(name, ".js")
  }

  /** `name.replace(/\.(ts|js)$/, '')`. */
  function StripExt(name: string): (r: string)
    ensures IsScript(name) ==> r == name[..|name| - 3]
    ensures !IsScript(name) ==> r == name
  {
    if IsScript(name) then name[..|name| - 3] else name
  }

  // ---------------------------------------------------------------------------
  // scanDir

  /** The script files below `rel`, in listing order, directories entered where listed,
      parenthesised directories skipped when `ignoreParens`. */
  function ScanSpec(rel: seq<string>, entries: seq<Entry>, ignoreParens: bool): (r: seq<seq<string>>)
    ensures forall k :: 0 <= k < |r| ==> |rel| < |r[k]| && r[k][..|rel|] == rel && IsScript(r[k][|r[k]| - 1])
    ensures ignoreParens ==> forall k, d :: 0 <= k < |r| && |rel| <= d < |r[k]| - 1 ==> !IsParenGroup(r[k][d])
    decreases entries
  {
    if |entries| == 0 then []
    else ScanEntrySpec(rel, entries[0], ignoreParens) + ScanSpec(rel, entries[1..], ignoreParens)
  }

  function ScanEntrySpec(rel: seq<string>, e: Entry, ignoreParens: bool): (r: seq<seq<string>>)
    ensures forall k :: 0 <= k < |r| ==> |rel| < |r[k]| && r[k][..|rel|] == rel && IsScript(r[k][|r[k]| - 1])
    ensures ignoreParens ==> forall k, d :: 0 <= k < |r| && |rel| <= d < |r[k]| - 1 ==> !IsParenGroup(r[k][d])
    decreases e
  {
    match e
    case Dir(name, children) =>
      if ignoreParens && IsParenGroup(name) then []
      else
        var inner := ScanSpec(rel + [name], children, ignoreParens);
        assert forall k :: 0 <= k < |inner| ==> inner[k][..|rel|] == rel && inner[k][|rel|] == name by {
          forall k | 0 <= k < |inner| ensures inner[k][..|rel|] == rel && inner[k][|rel|] == name {
            assert inner[k][..|rel|] == inner[k][..|rel| + 1][..|rel|];
            assert inner[k][|rel|] == inner[k][..|rel| + 1][|rel|];
          }
        }
        inner
    case File(name) => if IsScript(name) then [rel + [name]] else []
  }

  lemma ScanSnoc(rel: seq<string>, entries: seq<Entry>, ignoreParens: bool, i: nat)
    requires i < |entries|
    ensures ScanSpec(rel, entries[..i + 1], ignoreParens) == ScanSpec(rel, entries[..i], ignoreParens) + ScanEntrySpec(rel, entries[i], ignoreParens)
    decreases i
  {
    if i > 0 {
      assert entries[..i + 1][1..] == entries[1..][..i];
      assert entries[..i][1..] == entries[1..][..i - 1];
      ScanSnoc(rel, entries[1..], ignoreParens, i - 1);
    } else {
      assert entries[..1][1..] == [];
    }
  }

  /** `scanDir(dir, ignoreParens)` for the directory `rel` below the base; `None` is a
      directory that does not exist. */
  method ScanDir(rel: seq<string>, listing: Option<seq<Entry>>, ignoreParens: bool) returns (results: seq<seq<string>>)
    ensures listing.None? ==> results == []
    ensures listing.Some? ==> results == ScanSpec(rel, listing.value, ignoreParens)
  {
    if listing.None? {
      return [];
    }
    results := ScanEntries(rel, listing.value, ignoreParens);
  }

  /** The loop of `scanDir` over an existing directory's entries. */
  method ScanEntries(rel: seq<string>, entries: seq<Entry>, ignoreParens: bool) returns (results: seq<seq<string>>)
    ensures results == ScanSpec(rel, entries, ignoreParens)
    decreases entries
  {
    results := [];
    for i := 0 to |entries|
      invariant results == ScanSpec(rel, entries[..i], ignoreParens)
    {
      ScanSnoc(rel, entries, ignoreParens, i);
      match entries[i] {
        case Dir(name, children) =>
          if !(ignoreParens && IsParenGroup(name)) {
            var inner := ScanEntries(rel + [name], children, ignoreParens);
            results := results + inner;
          }
        case File(name) =>
          if IsScript(name) {
            results := results + [rel + [name]];
          }
      }
    }
    assert entries[..|entries|] == entries;
  }

  // ---------------------------------------------------------------------------
  // Metadata from the relative path

  /** `relative(baseDir, file).replace(/\\/g, '/')` for a file at the segments `file`. */
  function RelOf(file: seq<string>): string
  {
    ForwardSlashes(Join(file, "/"))
  }

  datatype CommandMeta = CommandMeta(group: string, name: string, rel: string)

  /** The folders that name a group: the non-parenthesised ones. */
  function GroupFolders(parts: seq<string>): (r: seq<string>)
    ensures |r| <= |parts|
    ensures forall k :: 0 <= k < |r| ==> !IsParenGroup(r[k]) && r[k] in parts
    ensures forall k :: 0 <= k < |parts| && !IsParenGroup(parts[k]) ==> parts[k] in r
  {
    if |parts| == 0 then []
    else if IsParenGroup(parts[0]) then GroupFolders(parts[1..])
    else [parts[0]] + GroupFolders(parts[1..])
  }

  /** `getCommandMeta(baseDir, file)` on the relative path. */
  function GetCommandMeta(rel: string): (r: CommandMeta)
    ensures r.rel == rel
    ensures '/' !in rel ==> r.group == "" && r.name == StripExt(rel)
  {
    var parts := Split(rel, '/');
    assert '/' !in rel ==> parts == [rel] by {
      if '/' !in rel {
        SplitOfSepFree(rel, '/');
      }
    }
    CommandMeta(Join(GroupFolders(parts[..|parts| - 1]), " "), StripExt(parts[|parts| - 1]), rel)
  }

  /** The event name: the first folder of a nested file, else the file name. */
  function EventName(rel: string): string
  {
    var parts := Split(rel, '/');
    if |parts| > 1 then parts[0] else StripExt(parts[0])
  }

  /** A top-level file names its event after itself without extension; a nested one after
      a folder name free of '/' that, followed by '/', starts the path. */
  lemma EventNameShape(rel: string)
    ensures '/' !in rel ==> EventName(rel) == StripExt(rel)
    ensures '/' in rel ==> '/' !in EventName(rel) && StartsWith(rel, EventName(rel) + "/")
  {
    SplitPiecesHaveNoSep(rel, '/');
    JoinSplit(rel, '/');
    var parts := Split(rel, '/');
    if |parts| > 1 {
      assert rel == parts[0] + "/" + Join(parts[1..], "/");
      assert rel[..|parts[0]| + 1] == parts[0] + "/";
    }
  }

  datatype ContextMenu = ContextMenu(name: string, menuType: Option<string>, file: seq<string>)

  /** The context-menu name (the file name) and type (the first folder, when there is a
      non-empty one). */
  function ContextMenuOf(file: seq<string>): (r: ContextMenu)
    ensures r.file == file
    ensures |file| == 1 && PlainName(file[0]) ==> r.menuType.None? && r.name == StripExt(file[0])
  {
    var parts := Split(RelOf(file), '/');
    assert |file| == 1 && PlainName(file[0]) ==> parts == [file[0]] by {
      if |file| == 1 && PlainName(file[0]) {
        RelOfPlain(file);
        SplitOfSepFree(file[0], '/');
      }
    }
    var folders := parts[..|parts| - 1];
    ContextMenu(StripExt(parts[|parts| - 1]), if |folders| > 0 && folders[0] != "" then Some(folders[0]) else None, file)
  }

  predicate PlainPath(file: seq<string>)
  {
    |file| >= 1 && forall k :: 0 <= k < |file| ==> PlainName(file[k])
  }

  lemma RelOfPlain(file: seq<string>)
    requires PlainPath(file)
    ensures RelOf(file) == Join(file, "/")
  {
    JoinNoBackslash(file);
    ForwardSlashesId(Join(file, "/"));
  }

  /** The relative path of plain segments splits back into those segments. */
  lemma RelParts(file: seq<string>)
    requires PlainPath(file)
    ensures Split(RelOf(file), '/') == file
  {
    RelOfPlain(file);
    SplitJoin(file, '/');
  }

  /** A command is named after its file without the extension and grouped by its
      non-parenthesised folders joined with a space. */
  lemma CommandMetaSpec(file: seq<string>)
    requires PlainPath(file)
    ensures var m := GetCommandMeta(RelOf(file));
            m.name == StripExt(file[|file| - 1]) && m.group == Join(GroupFolders(file[..|file| - 1]), " ") &&
            m.rel == Join(file, "/")
  {
    var rel := RelOf(file);
    RelParts(file);
    RelOfPlain(file);
    MetaOfParts(rel, file);
  }

  lemma MetaOfParts(rel: string, parts: seq<string>)
    requires Split(rel, '/') == parts
    ensures GetCommandMeta(rel) == CommandMeta(Join(GroupFolders(parts[..|parts| - 1]), " "), StripExt(parts[|parts| - 1]), rel)
  {
  }

  /** An event nested in a folder is named after its first folder; a file directly under
      the base after the file. */
  lemma EventNameSpec(file: seq<string>)
    requires PlainPath(file)
    ensures |file| > 1 ==> EventName(RelOf(file)) == file[0]
    ensures |file| == 1 ==> EventName(RelOf(file)) == StripExt(file[0])
  {
    RelParts(file);
  }

  /** A context menu is named after its file; its type is its first folder, if any. */
  lemma ContextMenuSpec(file: seq<string>)
    requires PlainPath(file)
    ensures ContextMenuOf(file).name == StripExt(file[|file| - 1])
    ensures ContextMenuOf(file).menuType == if |file| > 1 then Some(file[0]) else None
  {
    RelParts(file);
  }

  // ---------------------------------------------------------------------------
  // The loaders

  datatype Command = Command(meta: CommandMeta, file: seq<string>)
  datatype Event = Event(name: string, file: seq<string>)

  /** `loadCommands(baseDir)`: one command per scanned file, in scan order. */
  method LoadCommands(listing: Option<seq<Entry>>) returns (commands: seq<Command>)
    ensures var files := if listing.None? then [] else ScanSpec([], listing.value, true);
            |commands| == |files| &&
            forall k :: 0 <= k < |files| ==> commands[k] == Command(GetCommandMeta(RelOf(files[k])), files[k])
  {
    var files := ScanDir([], listing, true);
    commands := [];
    for i := 0 to |files|
      invariant |commands| == i
      invariant forall k :: 0 <= k < i ==> commands[k] == Command(GetCommandMeta(RelOf(files[k])), files[k])
    {
      commands := commands + [Command(GetCommandMeta(RelOf(files[i])), files[i])];
    }
  }

  /** `loadEvents(baseDir)`: parenthesised folders are not skipped here. */
  method LoadEvents(listing: Option<seq<Entry>>) returns (events: seq<Event>)
    ensures var files := if listing.None? then [] else ScanSpec([], listing.value, false);
            |events| == |files| &&
            forall k :: 0 <= k < |files| ==> events[k] == Event(EventName(RelOf(files[k])), files[k])
  {
    var files := ScanDir([], listing, false);
    events := [];
    for i := 0 to |files|
      invariant |events| == i
      invariant forall k :: 0 <= k < i ==> events[k] == Event(EventName(RelOf(files[k])), files[k])
    {
      events := events + [Event(EventName(RelOf(files[i])), files[i])];
    }
  }

  /** `loadContextMenus(baseDir)`. */
  method LoadContextMenus(listing: Option<seq<Entry>>) returns (menus: seq<ContextMenu>)
    ensures var files := if listing.None? then [] else ScanSpec([], listing.value, false);
            |menus| == |files| && forall k :: 0 <= k < |files| ==> menus[k] == ContextMenuOf(files[k])
  {
    var files := ScanDir([], listing, false);
    menus := [];
    for i := 0 to |files|
      invariant |menus| == i
      invariant forall k :: 0 <= k < i ==> menus[k] == ContextMenuOf(files[k])
    {
      menus := menus + [ContextMenuOf(files[i])];
    }
  }

  // ---------------------------------------------------------------------------
  // suggestIntents

  /** The intents each event needs. */
  function EventIntents(name: string): seq<string>
  {
    if name == "messageCreate" then ["GuildMessages", "MessageContent"]
    else if name == "guildMemberAdd" || name == "guildMemberRemove" then ["GuildMembers"]
    else if name == "voiceStateUpdate" then ["GuildVoiceStates"]
    else []
  }

  /** `set.add(x)` on a set kept in insertion order. */
  function AddOnce(s: seq<string>, x: string): (r: seq<string>)
    ensures NoDuplicates(s) ==> NoDuplicates(r)
    ensures forall y :: y in r <==> y == x || y in s
  {
    if x in s then s else s + [x]
  }

  predicate NoDuplicates(s: seq<string>)
  {
    forall i, j :: 0 <= i < j < |s| ==> s[i] != s[j]
  }

  /** Adding each of `xs` in order. */
  function AddAll(s: seq<string>, xs: seq<string>): (r: seq<string>)
    ensures NoDuplicates(s) ==> NoDuplicates(r)
    ensures forall y :: y in r <==> y in xs || y in s
    decreases |xs|
  {
    if |xs| == 0 then s else AddAll(AddOnce(s, xs[0]), xs[1..])
  }

  /** The intents the events named `names` add, in insertion order. */
  function IntentsOf(names: seq<string>): (r: seq<string>)
    ensures NoDuplicates(r)
    decreases |names|
  {
    if |names| == 0 then [] else AddAll(IntentsOf(names[..|names| - 1]), EventIntents(names[|names| - 1]))
  }

  /** `x` is needed by one of the events. */
  ghost predicate Needed(names: seq<string>, x: string)
  {
    exists n :: n in names && x in EventIntents(n)
  }

  /** `suggestIntents()`: the events' intents, then "Guilds". */
  function Suggested(names: seq<string>): (r: seq<string>)
    ensures NoDuplicates(r) && "Guilds" in r
  {
    AddOnce(IntentsOf(names), "Guilds")
  }

  lemma {:induction false} IntentsOfSpec(names: seq<string>)
    ensures forall x :: x in IntentsOf(names) <==> Needed(names, x)
    decreases |names|
  {
    if |names| > 0 {
      var init := names[..|names| - 1];
      var last := names[|names| - 1];
      IntentsOfSpec(init);
      forall x ensures x in IntentsOf(names) <==> Needed(names, x) {
        if Needed(names, x) {
          var n :| n in names && x in EventIntents(n);
          if n != last {
            assert n in init;
            assert Needed(init, x);
          }
        }
        if Needed(init, x) {
          var n :| n in init && x in EventIntents(n);
          assert n in names;
        }
      }
    }
  }

  /** The suggestion holds no duplicates, always holds "Guilds", and otherwise exactly
      the intents some loaded event needs. */
  lemma SuggestedSpec(names: seq<string>)
    ensures NoDuplicates(Suggested(names))
    ensures "Guilds" in Suggested(names)
    ensures forall x :: x in Suggested(names) <==> x == "Guilds" || Needed(names, x)
  {
    IntentsOfSpec(names);
  }

  /** `suggestIntents()` over the loaded events' names. */
  method SuggestIntents(names: seq<string>) returns (intents: seq<string>)
    ensures intents == Suggested(names)
  {
    intents := [];
    for i := 0 to |names|
      invariant intents == IntentsOf(names[..i])
    {
      var needed := EventIntents(names[i]);
      ghost var before := intents;
      for j := 0 to |needed|
        invariant AddAll(intents, needed[j..]) == AddAll(before, needed)
      {
        assert needed[j..][1..] == needed[j + 1..];
        intents := AddOnce(intents, needed[j]);
      }
      assert names[..i + 1][..i] == names[..i];
    }
    assert names[..|names|] == names;
    intents := AddOnce(intents, "Guilds");
  }
}
