/** The Discord plugin's command logic (packages/discord/index.ts): option-type
    resolution, the conversion of commands to the API shape, the comparison that decides
    whether commands are re-registered, the command map, and the gating of a slash-command
    interaction (permissions, checks, hooks, automatic reply). Discord's REST and gateway
    calls are not modelled; user callbacks are given by their outcomes. */
module DiscordCommands {
  import opened Strings
  import opened Opt

  // ---------------------------------------------------------------------------
  // Options

  /** An option's `type` as written: a number or a name. */
  datatype OptionType = Num(n: int) | Named(name: string)

  /** A command option and its nested options, absent or present. */
  datatype CommandOption = CommandOption(name: string, description: string, required: bool,
                                         optType: OptionType, options: Nested)

  datatype Nested = Absent | Present(list: seq<CommandOption>)

  const OptionTypeMap: map<string, int> := map[
    "subcommand" := 1, "subcommand_group" := 2, "string" := 3, "integer" := 4, "boolean" := 5,
    "user" := 6, "channel" := 7, "role" := 8, "mentionable" := 9, "number" := 10, "attachment" := 11]

  /** `resolveOptionType(type)`: numbers unchanged, known names per the table, any other
      name the string type 3. */
  function ResolveOptionType(t: OptionType): (n: int)
    ensures t.Num? ==> n == t.n
    ensures t.Named? && t.name in OptionTypeMap ==> n == OptionTypeMap[t.name]
    ensures t.Named? && t.name !in OptionTypeMap ==> n == 3
  {
    match t
    case Num(n) => n
    case Named(name) => if name in OptionTypeMap then OptionTypeMap[name] else 3
  }

  /** One option: its other fields kept, its type resolved, its nested options mapped
      the same way when present and left absent otherwise. */
  function MapOne(o: CommandOption): (r: CommandOption)
    ensures r.name == o.name && r.description == o.description && r.required == o.required
    ensures r.optType == Num(ResolveOptionType(o.optType))
    ensures o.options.Absent? <==> r.options.Absent?
    ensures o.options.Present? ==> |r.options.list| == |o.options.list|
    decreases o
  {
    var nested := match o.options
                  case Absent => Absent
                  case Present(l) => Present(seq(|l|, k requires 0 <= k < |l| => MapOne(l[k])));
    o.(optType := Num(ResolveOptionType(o.optType)), options := nested)
  }

  /** `mapOptions(options)` on a present list: each option mapped, in order. */
  function MapList(opts: seq<CommandOption>): (r: seq<CommandOption>)
    ensures |r| == |opts| && forall k :: 0 <= k < |opts| ==> r[k] == MapOne(opts[k])
  {
    seq(|opts|, k requires 0 <= k < |opts| => MapOne(opts[k]))
  }

  /** `mapOptions(options)`: an absent list gives `[]`. */
  function MapOptions(options: Option<seq<CommandOption>>): (r: seq<CommandOption>)
    ensures options.None? ==> r == []
    ensures options.Some? ==> r == MapList(options.value)
  {
    if options.None? then [] else MapList(options.value)
  }

  /** Mapping twice is mapping once: resolved types are numbers, which stay as they are,
      and nested lists are mapped the same way. */
  lemma {:induction false} MapOneIdempotent(o: CommandOption)
    ensures MapOne(MapOne(o)) == MapOne(o)
    decreases o
  {
    match o.options
    case Absent =>
    case Present(l) =>
      var m := MapOne(o).options.list;
      forall k | 0 <= k < |l| ensures MapOne(m[k]) == m[k] {
        MapOneIdempotent(l[k]);
      }
      assert MapOne(MapOne(o)).options.list == m;
  }

  lemma MapListIdempotent(opts: seq<CommandOption>)
    ensures MapList(MapList(opts)) == MapList(opts)
  {
    forall k | 0 <= k < |opts| ensures MapOne(MapOne(opts[k])) == MapOne(opts[k]) {
      MapOneIdempotent(opts[k]);
    }
  }

  // ---------------------------------------------------------------------------
  // Commands in the API shape

  /** `handler.commandOptions` as the interaction handler and `commandToAPI` read them.
      A single permission name is a one-element list. */
  datatype CommandOptions = CommandOptions(description: Option<string>, options: Option<seq<CommandOption>>,
                                           permissions: Option<seq<string>>, checks: Option<seq<Step<bool>>>,
                                           before: Option<Step<()>>, after: Option<Step<()>>)

  /** What a user callback does: settles with a value or throws, leaving the
      interaction's `replied` / `deferred` flags raised if it replied or deferred. */
  datatype Step<T> = Returns(value: T, replied: bool, deferred: bool) | Throws(replied: bool, deferred: bool)

  /** A loaded command: its name and its handler's options and behaviour. */
  datatype Command = Command(name: string, commandOptions: Option<CommandOptions>, run: Step<Option<string>>)

  datatype ApiCommand = ApiCommand(name: string, description: string, commandType: int, options: seq<CommandOption>)

  const NoDescription: string := "No description"

  /** `commandToAPI(cmd)`: a chat-input command (type 1), "No description" when the
      description is missing or empty. */
  function CommandToApi(cmd: Command): (r: ApiCommand)
    ensures r.name == cmd.name && r.commandType == 1
    ensures (cmd.commandOptions.Some? && cmd.commandOptions.value.description.Some? &&
             cmd.commandOptions.value.description.value != "") ==> r.description == cmd.commandOptions.value.description.value
    ensures (cmd.commandOptions.None? || cmd.commandOptions.value.description.None? ||
             cmd.commandOptions.value.description == Some("")) ==> r.description == NoDescription
    ensures cmd.commandOptions.Some? ==> r.options == MapOptions(cmd.commandOptions.value.options)
    ensures cmd.commandOptions.None? ==> r.options == []
  {
    var co := cmd.commandOptions;
    var d := if co.Some? && co.value.description.Some? && co.value.description.value != "" then co.value.description.value
             else NoDescription;
    ApiCommand(cmd.name, d, 1, if co.Some? then MapOptions(co.value.options) else [])
  }

  /** `__commandRegistry`: command options by the file that declared them. */
  class CommandRegistry {
    var entries: map<string, CommandOptions>

    constructor()
      ensures entries == map[]
    {
      entries := map[];
    }

    /** `Command(options)`, with `callerFile` the file found on the call stack, if any:
        the options are filed under it, replacing earlier ones; nothing is filed when no
        (or an empty) file name was found. */
    method Register(callerFile: Option<string>, options: CommandOptions)
      modifies this`entries
      ensures callerFile.Some? && callerFile.value != "" ==> entries == old(entries)[callerFile.value := options]
      ensures callerFile.None? || callerFile.value == "" ==> entries == old(entries)
    {
      if callerFile.Some? && callerFile.value != "" {
        entries := entries[callerFile.value := options];
      }
    }
  }

  // ---------------------------------------------------------------------------
  // commandsEqual

  /** `x.localeCompare(y) < 0`, stood for by a total order on strings: the order of
      code units, where the locale's collation would differ (it puts "a" before "B"). */
  function LexLess(a: string, b: string): bool
  {
    if |a| == 0 then |b| > 0
    else if |b| == 0 then false
    else if a[0] != b[0] then a[0] < b[0]
    else LexLess(a[1..], b[1..])
  }

  lemma {:induction false} LexIrreflexive(a: string)
    ensures !LexLess(a, a)
  {
    if |a| > 0 {
      LexIrreflexive(a[1..]);
    }
  }

  lemma {:induction false} LexTotal(a: string, b: string)
    ensures a == b || LexLess(a, b) || LexLess(b, a)
  {
    if |a| > 0 && |b| > 0 && a[0] == b[0] {
      LexTotal(a[1..], b[1..]);
      if a[1..] == b[1..] {
        assert a == [a[0]] + a[1..] && b == [b[0]] + b[1..];
      }
    }
  }

  lemma {:induction false} LexTransitive(a: string, b: string, c: string)
    requires LexLess(a, b) && LexLess(b, c)
    ensures LexLess(a, c)
  {
    if |a| > 0 && |b| > 0 && |c| > 0 && a[0] == b[0] && b[0] == c[0] {
      LexTransitive(a[1..], b[1..], c[1..]);
    }
  }

  /** `y` does not sort before `x`. */
  predicate NotBefore(x: ApiCommand, y: ApiCommand)
  {
    !LexLess(y.name, x.name)
  }

  predicate SortedByName(s: seq<ApiCommand>)
  {
    forall i, j :: 0 <= i < j < |s| ==> NotBefore(s[i], s[j])
  }

  /** Insertion of `x` behind every element that does not sort after it (stable). */
  function Insert(sorted: seq<ApiCommand>, x: ApiCommand): (r: seq<ApiCommand>)
    ensures |r| == |sorted| + 1
  {
    if |sorted| == 0 then [x]
    else if LexLess(x.name, sorted[0].name) then [x] + sorted
    else [sorted[0]] + Insert(sorted[1..], x)
  }

  lemma {:induction false} InsertMultiset(sorted: seq<ApiCommand>, x: ApiCommand)
    ensures multiset(Insert(sorted, x)) == multiset(sorted) + multiset{x}
  {
    if |sorted| > 0 && !LexLess(x.name, sorted[0].name) {
      InsertMultiset(sorted[1..], x);
      assert sorted == [sorted[0]] + sorted[1..];
    }
  }

  lemma {:induction false} InsertSorted(sorted: seq<ApiCommand>, x: ApiCommand)
    requires SortedByName(sorted)
    ensures SortedByName(Insert(sorted, x))
  {
    if |sorted| > 0 {
      if LexLess(x.name, sorted[0].name) {
        forall j | 0 <= j < |sorted| ensures NotBefore(x, sorted[j]) {
          if LexLess(sorted[j].name, x.name) {
            LexTransitive(sorted[j].name, x.name, sorted[0].name);
            if j == 0 {
              LexIrreflexive(sorted[0].name);
            }
          }
        }
        assert SortedByName([x] + sorted);
      } else {
        var rest := Insert(sorted[1..], x);
        InsertSorted(sorted[1..], x);
        InsertMultiset(sorted[1..], x);
        forall j | 0 <= j < |rest| ensures NotBefore(sorted[0], rest[j]) {
          assert rest[j] in multiset(sorted[1..]) + multiset{x};
          if rest[j] != x {
            assert rest[j] in sorted[1..];
          }
        }
        assert SortedByName([sorted[0]] + rest);
      }
    }
  }

  /** `arr.slice().sort((x, y) => x.name.localeCompare(y.name))`: a stable sort by name. */
  function SortByName(s: seq<ApiCommand>): (r: seq<ApiCommand>)
    ensures multiset(r) == multiset(s) && |r| == |s|
    ensures SortedByName(r)
  {
    if |s| == 0 then []
    else
      assert s == s[..|s| - 1] + [s[|s| - 1]];
      InsertSorted(SortByName(s[..|s| - 1]), s[|s| - 1]);
      InsertMultiset(SortByName(s[..|s| - 1]), s[|s| - 1]);
      Insert(SortByName(s[..|s| - 1]), s[|s| - 1])
  }

  /** The fields the comparison reads. */
  predicate SameKey(x: ApiCommand, y: ApiCommand)
  {
    x.name == y.name && x.description == y.description
  }

  /** `commandsEqual(a, b)`: equal lengths, and the name-sorted lists agree on name and
      description position by position. */
  predicate CommandsEqual(a: seq<ApiCommand>, b: seq<ApiCommand>)
    ensures CommandsEqual(a, b) ==> |a| == |b|
  {
    |a| == |b| &&
    var sa, sb := SortByName(a), SortByName(b);
    forall i :: 0 <= i < |sa| ==> SameKey(sa[i], sb[i])
  }

  /** The comparison is reflexive and symmetric. */
  lemma CommandsEqualSymmetric(a: seq<ApiCommand>, b: seq<ApiCommand>)
    ensures CommandsEqual(a, a)
    ensures CommandsEqual(a, b) <==> CommandsEqual(b, a)
  {
  }

  /** The comparison loop over the sorted copies. */
  method CommandsEqualLoop(a: seq<ApiCommand>, b: seq<ApiCommand>) returns (equal: bool)
    ensures equal == CommandsEqual(a, b)
  {
    if |a| != |b| {
      return false;
    }
    var aSorted := SortByName(a);
    var bSorted := SortByName(b);
    for i := 0 to |aSorted|
      invariant forall k :: 0 <= k < i ==> SameKey(aSorted[k], bSorted[k])
    {
      if aSorted[i].name != bSorted[i].name || aSorted[i].description != bSorted[i].description {
        return false;
      }
    }
    return true;
  }

  predicate DistinctNames(s: seq<ApiCommand>)
  {
    forall i, j :: 0 <= i < j < |s| ==> s[i].name != s[j].name
  }

  /** Two name-sorted lists with the same elements and distinct names are the same list. */
  lemma {:induction false} SortedUnique(x: seq<ApiCommand>, y: seq<ApiCommand>)
    requires SortedByName(x) && SortedByName(y) && multiset(x) == multiset(y) && DistinctNames(x)
    ensures x == y
    decreases |x|
  {
    assert |y| == |multiset(y)| == |multiset(x)| == |x|;
    if |x| > 0 {
      SameHead(x, y);
      SameTail(x, y);
      SortedUnique(x[1..], y[1..]);
      assert x == [x[0]] + x[1..] && y == [y[0]] + y[1..];
    }
  }

  lemma SameHead(x: seq<ApiCommand>, y: seq<ApiCommand>)
    requires SortedByName(x) && SortedByName(y) && multiset(x) == multiset(y) && DistinctNames(x)
    requires |x| > 0 && |y| > 0
    ensures x[0] == y[0]
  {
    assert x[0] in multiset(y);
    var k :| 0 <= k < |y| && y[k] == x[0];
    assert y[0] in multiset(x);
    var m :| 0 <= m < |x| && x[m] == y[0];
    if m > 0 {
      LexTotal(x[0].name, y[0].name);
      assert false;
    }
  }

  lemma SameTail(x: seq<ApiCommand>, y: seq<ApiCommand>)
    requires multiset(x) == multiset(y) && |x| > 0 && |y| > 0 && x[0] == y[0]
    ensures multiset(x[1..]) == multiset(y[1..])
  {
    assert x == [x[0]] + x[1..] && y == [y[0]] + y[1..];
    assert multiset(x) == multiset{x[0]} + multiset(x[1..]);
    assert multiset(y) == multiset{y[0]} + multiset(y[1..]);
    assert multiset(x[1..]) == multiset(x) - multiset{x[0]};
  }

  /** Order does not matter: a reordering of commands with distinct names compares equal. */
  lemma Reordered(a: seq<ApiCommand>, b: seq<ApiCommand>)
    requires multiset(a) == multiset(b) && DistinctNames(a)
    ensures CommandsEqual(a, b)
  {
    var sa, sb := SortByName(a), SortByName(b);
    DistinctOfMultiset(a, sa);
    SortedUnique(sa, sb);
    assert |a| == |multiset(a)| == |multiset(b)| == |b|;
  }

  lemma DistinctOfMultiset(a: seq<ApiCommand>, s: seq<ApiCommand>)
    requires multiset(a) == multiset(s) && DistinctNames(a)
    ensures DistinctNames(s)
  {
    forall i, j | 0 <= i < j < |s| ensures s[i].name != s[j].name {
      assert s[i] in multiset(a) && s[j] in multiset(a);
      var p :| 0 <= p < |a| && a[p] == s[i];
      var q :| 0 <= q < |a| && a[q] == s[j];
      if s[i] == s[j] {
        TwoCopies(s, i, j);
        MultiplicityOne(a, p);
      }
    }
  }

  lemma TwoCopies(s: seq<ApiCommand>, i: nat, j: nat)
    requires i < j < |s| && s[i] == s[j]
    ensures multiset(s)[s[i]] >= 2
  {
    assert s == s[..j] + [s[j]] + s[j + 1..];
    assert s[i] in s[..j];
  }

  lemma {:induction false} MultiplicityOne(a: seq<ApiCommand>, p: nat)
    requires DistinctNames(a) && p < |a|
    ensures multiset(a)[a[p]] == 1
    decreases |a|
  {
    assert a == a[..|a| - 1] + [a[|a| - 1]];
    if p == |a| - 1 {
      assert a[p] !in a[..p];
    } else {
      MultiplicityOne(a[..|a| - 1], p);
    }
  }

  /** Name and description agree position by position. */
  predicate KeysAgree(s: seq<ApiCommand>, t: seq<ApiCommand>)
  {
    |s| == |t| && forall i :: 0 <= i < |s| ==> SameKey(s[i], t[i])
  }

  lemma {:induction false} InsertKeys(s: seq<ApiCommand>, t: seq<ApiCommand>, x: ApiCommand, y: ApiCommand)
    requires KeysAgree(s, t) && SameKey(x, y)
    ensures KeysAgree(Insert(s, x), Insert(t, y))
  {
    if |s| > 0 {
      assert SameKey(s[0], t[0]);
      if LexLess(x.name, s[0].name) {
        assert Insert(s, x) == [x] + s && Insert(t, y) == [y] + t;
      } else {
        var r, r' := Insert(s[1..], x), Insert(t[1..], y);
        InsertKeys(s[1..], t[1..], x, y);
        assert Insert(s, x) == [s[0]] + r && Insert(t, y) == [t[0]] + r';
        forall i | 0 <= i < |s| + 1 ensures SameKey(([s[0]] + r)[i], ([t[0]] + r')[i]) {
          if i > 0 {
            assert SameKey(r[i - 1], r'[i - 1]);
          }
        }
      }
    }
  }

  lemma {:induction false} SortKeys(a: seq<ApiCommand>, b: seq<ApiCommand>)
    requires KeysAgree(a, b)
    ensures KeysAgree(SortByName(a), SortByName(b))
  {
    if |a| > 0 {
      SortKeys(a[..|a| - 1], b[..|b| - 1]);
      InsertKeys(SortByName(a[..|a| - 1]), SortByName(b[..|b| - 1]), a[|a| - 1], b[|b| - 1]);
    }
  }

  /** Only names and descriptions matter: commands that differ in type or options alone
      compare as they did. */
  lemma OnlyNameAndDescription(a: seq<ApiCommand>, a': seq<ApiCommand>, b: seq<ApiCommand>)
    requires KeysAgree(a, a')
    ensures CommandsEqual(a, b) == CommandsEqual(a', b)
  {
    SortKeys(a, a');
  }

  /** The plugin re-registers the commands exactly when they differ from the current
      ones; a failed fetch counts as no current commands. */
  function ShouldRegister(commandData: seq<ApiCommand>, current: Option<seq<ApiCommand>>): (b: bool)
    ensures b <==> !CommandsEqual(commandData, current.GetOr([]))
  {
    !CommandsEqual(commandData, if current.Some? then current.value else [])
  }

  // ---------------------------------------------------------------------------
  // The command map and an interaction

  /** No command after position `i` carries the name of `commands[i]`. */
  predicate LastUnder(commands: seq<Command>, i: int)
    requires 0 <= i < |commands|
  {
    forall j :: i < j < |commands| ==> commands[j].name != commands[i].name
  }

  /** A command that is last under its name stays so once the final command is dropped,
      and its name differs from the final command's. */
  lemma LastUnderInit(commands: seq<Command>)
    requires |commands| > 0
    ensures forall i :: 0 <= i < |commands| - 1 && LastUnder(commands, i) ==>
              LastUnder(commands[..|commands| - 1], i) && commands[i].name != commands[|commands| - 1].name
  {
  }

  /** `commandMap`: each name to the last command loaded under it. */
  function CommandMap(commands: seq<Command>): (m: map<string, Command>)
    ensures forall c :: c in commands ==> c.name in m
    ensures forall n :: n in m ==> m[n] in commands && m[n].name == n
    ensures |commands| > 0 ==> m[commands[|commands| - 1].name] == commands[|commands| - 1]
    ensures forall i {:trigger LastUnder(commands, i)} :: 0 <= i < |commands| && LastUnder(commands, i) ==> m[commands[i].name] == commands[i]
    decreases |commands|
  {
    if |commands| == 0 then map[]
    else
      var init := commands[..|commands| - 1];
      var last := commands[|commands| - 1];
      assert forall c :: c in commands ==> c in init || c == last;
      LastUnderInit(commands);
      CommandMap(init)[last.name := last]
  }

  /** The plugin after start-up: the commands sent to Discord when they changed, and the
      command map of the `interactionCreate` listener when one is attached. */
  datatype Setup = Setup(put: Option<seq<ApiCommand>>, listener: Option<map<string, Command>>)

  function Registration(commands: seq<Command>, current: Option<seq<ApiCommand>>): (put: Option<seq<ApiCommand>>)
    ensures put.Some? <==> ShouldRegister(seq(|commands|, k requires 0 <= k < |commands| => CommandToApi(commands[k])), current)
  {
    var data := seq(|commands|, k requires 0 <= k < |commands| => CommandToApi(commands[k]));
    if ShouldRegister(data, current) then Some(data) else None
  }

  /** `discordPlugin` as written: the command map and the listener are built inside the
      branch taken only when at least one event file was loaded. */
  function SetupAsWritten(commands: seq<Command>, current: Option<seq<ApiCommand>>, eventCount: nat, clientReady: bool): Setup
  {
    Setup(Registration(commands, current), if eventCount > 0 && clientReady then Some(CommandMap(commands)) else None)
  }

  /** Start-up with the listener attached whenever there is a client. */
  function PluginSetup(commands: seq<Command>, current: Option<seq<ApiCommand>>, eventCount: nat, clientReady: bool): (s: Setup)
    ensures s.put == SetupAsWritten(commands, current, eventCount, clientReady).put
    ensures s.listener.Some? <==> clientReady
    ensures eventCount > 0 ==> s == SetupAsWritten(commands, current, eventCount, clientReady)
  {
    Setup(Registration(commands, current), if clientReady then Some(CommandMap(commands)) else None)
  }

  /** A bot with commands and no event files registers its commands with Discord but
      never answers them. */
  lemma CommandsUnansweredWithoutEvents(commands: seq<Command>, current: Option<seq<ApiCommand>>)
    requires |commands| > 0
    ensures SetupAsWritten(commands, current, 0, true).listener.None?
    ensures PluginSetup(commands, current, 0, true).listener.Some?
  {
  }

  /** With a client, every loaded command name reaches the listener, bound to the last
      command loaded under it. */
  lemma ListenerServesCommands(commands: seq<Command>, current: Option<seq<ApiCommand>>, eventCount: nat)
    ensures var l := PluginSetup(commands, current, eventCount, true).listener;
            l.Some? && (forall c :: c in commands ==> c.name in l.value) &&
            (|commands| > 0 ==> l.value[commands[|commands| - 1].name] == commands[|commands| - 1]) &&
            (forall i :: 0 <= i < |commands| && LastUnder(commands, i) ==> l.value[commands[i].name] == commands[i])
  {
  }

  /** The member's permissions: an object with `has`, or none usable. */
  datatype MemberPerms = NoHas | Has(granted: set<string>)

  datatype Interaction = Interaction(isChatInput: bool, commandName: string, member: MemberPerms,
                                     replied: bool, deferred: bool)

  /** A reply the plugin itself sends. */
  datatype PluginReply = Ephemeral(content: string) | ResultReply(content: string)

  /** How an interaction ends: whether the handler ran, and the replies the plugin sent. */
  datatype Handled = Handled(handlerRan: bool, replies: seq<PluginReply>)

  const ErrorOccurred: string := "An error occurred."
  const LackPermissions: string := "You lack the required permissions: "

  /** The required permissions the member lacks: all of them without `has`. */
  function Missing(member: MemberPerms, required: seq<string>): (r: seq<string>)
    ensures member.NoHas? ==> r == required
    ensures forall p :: p in r <==> p in required && (member.NoHas? || p !in member.granted)
  {
    if member.NoHas? then required
    else if |required| == 0 then []
    else
      var rest := Missing(member, required[1..]);
      assert forall p :: p in required <==> p == required[0] || p in required[1..];
      if required[0] in member.granted then rest else [required[0]] + rest
  }

  /** The flags after a callback settles. */
  datatype Flags = Flags(replied: bool, deferred: bool)

  function Raise<T>(f: Flags, s: Step<T>): Flags
  {
    Flags(f.replied || s.replied, f.deferred || s.deferred)
  }

  /** The catch block: an error reply unless the interaction was answered. */
  function OnError(f: Flags, ran: bool): Handled
  {
    Handled(ran, if !f.replied && !f.deferred then [Ephemeral(ErrorOccurred)] else [])
  }

  /** The checks from `k` on: passed (with the flags), stopped at a falsy result, or
      thrown. */
  datatype ChecksResult = Passed(flags: Flags) | Stopped | Failed(flags: Flags)

  function RunChecks(checks: seq<Step<bool>>, k: nat, f: Flags): (r: ChecksResult)
    requires k <= |checks|
    ensures r.Passed? <==> forall j :: k <= j < |checks| ==> checks[j].Returns? && checks[j].value
    ensures r.Passed? || r.Failed? ==> (f.replied ==> r.flags.replied) && (f.deferred ==> r.flags.deferred)
    decreases |checks| - k
  {
    if k == |checks| then Passed(f)
    else
      match checks[k]
      case Throws(_, _) => Failed(Raise(f, checks[k]))
      case Returns(ok, _, _) => if ok then RunChecks(checks, k + 1, Raise(f, checks[k])) else Stopped
  }

  /** After the checks: `before`, the handler, the automatic reply of a defined result
      to an unanswered interaction, then `after`. */
  function RunHandler(co: Option<CommandOptions>, run: Step<Option<string>>, f: Flags): (h: Handled)
    ensures h.handlerRan <==> !(co.Some? && co.value.before.Some? && co.value.before.value.Throws?)
    ensures |h.replies| <= 2
    ensures ResultReply(if run.Returns? && run.value.Some? then run.value.value else "") in h.replies ==>
              run.Returns? && run.value.Some?
  {
    var before := if co.Some? then co.value.before else None;
    var after := if co.Some? then co.value.after else None;
    if before.Some? && before.value.Throws? then OnError(Raise(f, before.value), false)
    else
      var f1 := if before.Some? then Raise(f, before.value) else f;
      var f2 := Raise(f1, run);
      if run.Throws? then OnError(f2, true)
      else
        var auto := run.value.Some? && !f2.replied && !f2.deferred;
        var sent := if auto then [ResultReply(run.value.value)] else [];
        var f3 := if auto then Flags(true, f2.deferred) else f2;
        if after.Some? && after.value.Throws? then
          var e := OnError(Raise(f3, after.value), true);
          Handled(true, sent + e.replies)
        else Handled(true, sent)
  }

  /** The listener after the permission step: the checks, then `before`, the handler,
      the automatic reply and `after`. */
  function AfterPermissions(cmd: Command, f: Flags): Handled
  {
    var co := cmd.commandOptions;
    var checks := if co.Some? && co.value.checks.Some? then co.value.checks.value else [];
    match RunChecks(checks, 0, f)
    case Stopped => Handled(false, [])
    case Failed(f') => OnError(f', false)
    case Passed(f') => RunHandler(co, cmd.run, f')
  }

  /** The `interactionCreate` listener for one interaction, with the permission step
      comparing the required names with the ones the member holds. */
  function HandleSpec(i: Interaction, commandMap: map<string, Command>): (h: Handled)
    ensures h.handlerRan ==> i.isChatInput && i.commandName in commandMap
    ensures h.handlerRan && commandMap[i.commandName].commandOptions.Some? &&
            commandMap[i.commandName].commandOptions.value.permissions.Some? ==>
              forall p :: p in commandMap[i.commandName].commandOptions.value.permissions.value ==>
                i.member.Has? && p in i.member.granted
  {
    if !i.isChatInput || i.commandName !in commandMap then Handled(false, [])
    else
      var cmd := commandMap[i.commandName];
      var co := cmd.commandOptions;
      var perms := if co.Some? then co.value.permissions else None;
      if perms.Some? && |Missing(i.member, perms.value)| > 0 then
        Handled(false, [Ephemeral(LackPermissions + Join(Missing(i.member, perms.value), ", "))])
      else AfterPermissions(cmd, Flags(i.replied, i.deferred))
  }

  /** The permission step as written: `Permissions` is not among the exports of
      packages/discord/types.ts, so with a usable `has` the lookup `Permissions[perm]`
      throws (`None`) as soon as there is a permission to look up; without `has` every
      required permission is missing. */
  function MissingAsWritten(member: MemberPerms, required: seq<string>): (r: Option<seq<string>>)
    ensures member.NoHas? ==> r == Some(required)
    ensures member.Has? ==> (r.None? <==> |required| > 0)
    ensures member.Has? && |required| == 0 ==> r == Some([])
  {
    if member.NoHas? then Some(required)
    else if |required| == 0 then Some([])
    else None
  }

  /** The listener as written: a throwing permission lookup lands in the catch block. */
  function HandleSpecAsWritten(i: Interaction, commandMap: map<string, Command>): (h: Handled)
    ensures h != HandleSpec(i, commandMap) ==> i.member.Has?
  {
    if !i.isChatInput || i.commandName !in commandMap then Handled(false, [])
    else
      var cmd := commandMap[i.commandName];
      var co := cmd.commandOptions;
      var f := Flags(i.replied, i.deferred);
      var perms := if co.Some? then co.value.permissions else None;
      if perms.None? then AfterPermissions(cmd, f)
      else
        match MissingAsWritten(i.member, perms.value)
        case None => OnError(f, false)
        case Some(missing) =>
          if |missing| > 0 then Handled(false, [Ephemeral(LackPermissions + Join(missing, ", "))])
          else AfterPermissions(cmd, f)
  }

  /** As written, a member whose permissions have `has` never reaches a command that
      requires any permission: the handler does not run and the interaction gets the
      generic error reply when unanswered, even when the member holds every permission.
      With the lookup in place, such a member runs the command. */
  lemma PermissionLookupThrows(i: Interaction, commandMap: map<string, Command>)
    requires i.isChatInput && i.commandName in commandMap && i.member.Has?
    requires var co := commandMap[i.commandName].commandOptions;
             co.Some? && co.value.permissions.Some? && |co.value.permissions.value| > 0
    ensures HandleSpecAsWritten(i, commandMap) ==
            Handled(false, if !i.replied && !i.deferred then [Ephemeral(ErrorOccurred)] else [])
    ensures (forall p :: p in commandMap[i.commandName].commandOptions.value.permissions.value ==> p in i.member.granted)
            ==> HandleSpec(i, commandMap) == AfterPermissions(commandMap[i.commandName], Flags(i.replied, i.deferred))
  {
    var required := commandMap[i.commandName].commandOptions.value.permissions.value;
    if forall p :: p in required ==> p in i.member.granted {
      if |Missing(i.member, required)| > 0 {
        assert Missing(i.member, required)[0] in Missing(i.member, required);
      }
    }
  }

  /** The listener as the sequential flow it is. */
  method HandleInteraction(i: Interaction, commandMap: map<string, Command>) returns (h: Handled)
    ensures h == HandleSpec(i, commandMap)
  {
    if !i.isChatInput || i.commandName !in commandMap {
      return Handled(false, []);
    }
    var cmd := commandMap[i.commandName];
    var co := cmd.commandOptions;
    var f := Flags(i.replied, i.deferred);
    if co.Some? && co.value.permissions.Some? {
      var missing := Missing(i.member, co.value.permissions.value);
      if |missing| > 0 {
        return Handled(false, [Ephemeral(LackPermissions + Join(missing, ", "))]);
      }
    }
    var checks := if co.Some? && co.value.checks.Some? then co.value.checks.value else [];
    var k := 0;
    while k < |checks|
      invariant 0 <= k <= |checks|
      invariant RunChecks(checks, k, f) == RunChecks(checks, 0, Flags(i.replied, i.deferred))
    {
      match checks[k] {
        case Throws(_, _) =>
          return OnError(Raise(f, checks[k]), false);
        case Returns(ok, _, _) =>
          if !ok {
            return Handled(false, []);
          }
      }
      f := Raise(f, checks[k]);
      k := k + 1;
    }
    h := RunHandler(co, cmd.run, f);
  }

  // ---------------------------------------------------------------------------
  // Properties of an interaction

  /** A member missing a required permission gets one ephemeral reply naming the missing
      permissions, and the handler does not run; without `has` every required permission
      is missing. */
  lemma PermissionDenied(i: Interaction, commandMap: map<string, Command>)
    requires i.isChatInput && i.commandName in commandMap
    requires var co := commandMap[i.commandName].commandOptions;
             co.Some? && co.value.permissions.Some? && |Missing(i.member, co.value.permissions.value)| > 0
    ensures var h := HandleSpec(i, commandMap);
            !h.handlerRan && |h.replies| == 1 && h.replies[0].Ephemeral? &&
            h.replies[0].content == LackPermissions + Join(Missing(i.member, commandMap[i.commandName].commandOptions.value.permissions.value), ", ")
  {
  }

  /** The first check that returns false ends the interaction: no handler, no reply. */
  lemma {:induction false} FailingCheckStops(checks: seq<Step<bool>>, k: nat, f: Flags, stop: nat)
    requires k <= stop < |checks|
    requires checks[stop] .Returns? && !checks[stop].value
    requires forall j :: k <= j < stop ==> checks[j].Returns? && checks[j].value
    ensures RunChecks(checks, k, f) == Stopped
    decreases stop - k
  {
    if k < stop {
      FailingCheckStops(checks, k + 1, Raise(f, checks[k]), stop);
    }
  }

  /** A defined result is sent back only to an interaction that nobody has replied to or
      deferred. */
  lemma AutoReplyOnlyWhenUnanswered(co: Option<CommandOptions>, run: Step<Option<string>>, f: Flags)
    requires co.None? || co.value.before.None?
    requires run.Returns? && run.value.Some?
    ensures var h := RunHandler(co, run, f);
            h.handlerRan &&
            ((|h.replies| > 0 && h.replies[0] == ResultReply(run.value.value)) <==>
             (!f.replied && !f.deferred && !run.replied && !run.deferred))
  {
  }

  /** A throwing handler gets the error reply only if the interaction is unanswered. */
  lemma ThrowingHandler(co: Option<CommandOptions>, run: Step<Option<string>>, f: Flags)
    requires co.None? || co.value.before.None?
    requires run.Throws?
    ensures RunHandler(co, run, f) ==
            Handled(true, if !(f.replied || run.replied) && !(f.deferred || run.deferred) then [Ephemeral(ErrorOccurred)] else [])
  {
  }
}
