/** Installing and removing the harness's hooks, and the report `check` gives. */
module HookInstalling {
  import opened Options
  import opened JsonTrees
  import opened Sequences
  import opened HookManifest

  // ---------------------------------------------------------------- removing owned entries

  /** One group without its owned entries; none when nothing but owned entries was listed. */
  function CleanGroup(group: Json): seq<Json> {
    if !Lists(group) then [group]
    else if NotOwned(EntriesOf(group)) == [] then []
    else [Dict(group.entries["hooks" := Items(NotOwned(EntriesOf(group)))])]
  }

  function Clean(groups: seq<Json>): seq<Json> {
    if groups == [] then [] else Clean(groups[..|groups| - 1]) + CleanGroup(groups[|groups| - 1])
  }

  function CleanHooks(hooks: Manifest): Manifest {
    map k | k in hooks && (hooks[k].Items? ==> Clean(hooks[k].items) != []) ::
      if hooks[k].Items? then Items(Clean(hooks[k].items)) else hooks[k]
  }

  function WithoutOwned(m: Manifest): Manifest {
    if HooksOf(m).None? then m else m["hooks" := Dict(CleanHooks(HooksOf(m).value))]
  }

  lemma {:induction false} NotOwnedTwice(entries: seq<Json>)
    ensures NotOwned(NotOwned(entries)) == NotOwned(entries)
    ensures OwnedIn(NotOwned(entries)) == 0
  {
    if entries != [] {
      var n := |entries| - 1;
      NotOwnedTwice(entries[..n]);
      var kept := NotOwned(entries[..n]);
      if !OwnedEntry(entries[n]) {
        assert (kept + [entries[n]])[..|kept|] == kept;
      } else {
        assert kept + [] == kept;
      }
    }
  }

  lemma {:induction false} CleanConcat(s: seq<Json>, t: seq<Json>)
    ensures Clean(s + t) == Clean(s) + Clean(t)
  {
    if t == [] {
      assert s + t == s;
    } else {
      assert (s + t)[..|s + t| - 1] == s + t[..|t| - 1];
      CleanConcat(s, t[..|t| - 1]);
    }
  }

  lemma {:induction false} OwnedCountConcat(s: seq<Json>, t: seq<Json>)
    ensures OwnedCount(s + t) == OwnedCount(s) + OwnedCount(t)
  {
    if t == [] {
      assert s + t == s;
    } else {
      assert (s + t)[..|s + t| - 1] == s + t[..|t| - 1];
      OwnedCountConcat(s, t[..|t| - 1]);
    }
  }

  lemma {:induction false} OccurrencesConcat(s: seq<Json>, t: seq<Json>, group: Json)
    ensures Occurrences(s + t, group) == Occurrences(s, group) + Occurrences(t, group)
  {
    if t == [] {
      assert s + t == s;
    } else {
      assert (s + t)[..|s + t| - 1] == s + t[..|t| - 1];
      OccurrencesConcat(s, t[..|t| - 1], group);
    }
  }

  lemma One(group: Json)
    ensures Clean([group]) == CleanGroup(group) && OwnedCount([group]) == OwnedInGroup(group)
    ensures forall other :: Occurrences([group], other) == if group == other then 1 else 0
    ensures Foreign([group]) == ForeignInGroup(group)
  {
    assert [group][..0] == [];
    assert Clean([group]) == Clean([]) + CleanGroup(group);
    assert Foreign([group]) == Foreign([]) + ForeignInGroup(group);
  }

  lemma CleanGroupTwice(group: Json)
    ensures Clean(CleanGroup(group)) == CleanGroup(group)
    ensures OwnedCount(CleanGroup(group)) == 0
  {
    if Lists(group) {
      NotOwnedTwice(EntriesOf(group));
      if NotOwned(EntriesOf(group)) != [] {
        var cleaned := Dict(group.entries["hooks" := Items(NotOwned(EntriesOf(group)))]);
        One(cleaned);
        assert CleanGroup(cleaned)[0].entries == cleaned.entries;
      }
    } else {
      One(group);
    }
  }

  /** Cleaning again finds nothing left to remove. */
  lemma {:induction false} CleanTwice(groups: seq<Json>)
    ensures Clean(Clean(groups)) == Clean(groups)
    ensures OwnedCount(Clean(groups)) == 0
  {
    if groups != [] {
      var n := |groups| - 1;
      CleanTwice(groups[..n]);
      CleanGroupTwice(groups[n]);
      CleanConcat(Clean(groups[..n]), CleanGroup(groups[n]));
      OwnedCountConcat(Clean(groups[..n]), CleanGroup(groups[n]));
    }
  }

  // ---------------------------------------------------------------- foreign entries

  /** A foreign entry with the rest of its group, or a group that lists nothing. */
  datatype Foreigner = Foreigner(group: Json, entry: Option<Json>)

  function ForeignIn(rest: Json, entries: seq<Json>): seq<Foreigner> {
    if entries == [] then []
    else
      var n := |entries| - 1;
      ForeignIn(rest, entries[..n]) + if OwnedEntry(entries[n]) then [] else [Foreigner(rest, Some(entries[n]))]
  }

  function ForeignInGroup(group: Json): seq<Foreigner> {
    if Lists(group) then ForeignIn(Dict(group.entries["hooks" := Items([])]), EntriesOf(group))
    else [Foreigner(group, None)]
  }

  function Foreign(groups: seq<Json>): seq<Foreigner> {
    if groups == [] then [] else Foreign(groups[..|groups| - 1]) + ForeignInGroup(groups[|groups| - 1])
  }

  lemma {:induction false} ForeignConcat(s: seq<Json>, t: seq<Json>)
    ensures Foreign(s + t) == Foreign(s) + Foreign(t)
  {
    if t == [] {
      assert s + t == s;
    } else {
      assert (s + t)[..|s + t| - 1] == s + t[..|t| - 1];
      ForeignConcat(s, t[..|t| - 1]);
    }
  }

  lemma {:induction false} ForeignInKept(rest: Json, entries: seq<Json>)
    ensures ForeignIn(rest, NotOwned(entries)) == ForeignIn(rest, entries)
    ensures NotOwned(entries) == [] ==> ForeignIn(rest, entries) == []
  {
    if entries != [] {
      var n := |entries| - 1;
      ForeignInKept(rest, entries[..n]);
      var kept := NotOwned(entries[..n]);
      if !OwnedEntry(entries[n]) {
        assert (kept + [entries[n]])[..|kept|] == kept;
      } else {
        assert kept + [] == kept;
      }
    }
  }

  lemma ForeignGroupKept(group: Json)
    ensures Foreign(CleanGroup(group)) == ForeignInGroup(group)
  {
    if Lists(group) {
      var rest := Dict(group.entries["hooks" := Items([])]);
      ForeignInKept(rest, EntriesOf(group));
      if NotOwned(EntriesOf(group)) != [] {
        var cleaned := Dict(group.entries["hooks" := Items(NotOwned(EntriesOf(group)))]);
        One(cleaned);
        assert cleaned.entries["hooks" := Items([])] == rest.entries;
      }
    } else {
      One(group);
    }
  }

  /** Removing owned entries keeps every foreign entry, its group's other fields, and their order. */
  lemma {:induction false} CleanKeepsForeign(groups: seq<Json>)
    ensures Foreign(Clean(groups)) == Foreign(groups)
  {
    if groups != [] {
      var n := |groups| - 1;
      CleanKeepsForeign(groups[..n]);
      ForeignGroupKept(groups[n]);
      ForeignConcat(Clean(groups[..n]), CleanGroup(groups[n]));
    }
  }

  // ---------------------------------------------------------------- adding them

  function GroupsAt(hooks: Manifest, event: string): seq<Json> {
    if event in hooks && hooks[event].Items? then hooks[event].items else []
  }

  /** The first of these events whose value is not an array stops the installation. */
  predicate Appendable(hooks: Manifest, events: seq<string>) {
    forall k :: 0 <= k < |events| ==> (events[k] in hooks ==> hooks[events[k]].Items?)
  }

  function AddOwned(hooks: Manifest, command: string, events: seq<string>): Manifest {
    if events == [] then hooks
    else
      var n := |events| - 1;
      var before := AddOwned(hooks, command, events[..n]);
      before[events[n] := Items(GroupsAt(before, events[n]) + [ExpectedGroup(command, events[n])])]
  }

  /** Distinct events: each gets exactly one group more, at the end, and nothing else changes. */
  lemma {:induction false} AddedAre(hooks: Manifest, command: string, events: seq<string>)
    requires Distinct(events)
    ensures var added := AddOwned(hooks, command, events);
            && (forall k :: k in added <==> k in hooks || k in events)
            && (forall k :: k in events ==> added[k] == Items(GroupsAt(hooks, k) + [ExpectedGroup(command, k)]))
            && (forall k :: k in hooks && k !in events ==> added[k] == hooks[k])
  {
    if events != [] {
      var n := |events| - 1;
      AddedAre(hooks, command, events[..n]);
      assert forall k :: k in events <==> k in events[..n] || k == events[n];
      assert events[n] !in events[..n];
    }
  }

  function CleanedHooks(m: Manifest): Manifest {
    if HooksOf(m).Some? then CleanHooks(HooksOf(m).value) else map[]
  }

  /** When `install` does not raise. */
  predicate Installable(m: Manifest) {
    && ("hooks" in m ==> m["hooks"].Dict?)
    && Appendable(CleanedHooks(m), HOOK_EVENTS)
  }

  function InstalledForm(m: Manifest, command: string): Manifest {
    m["hooks" := Dict(AddOwned(CleanedHooks(m), command, HOOK_EVENTS))]
  }

  // ---------------------------------------------------------------- what installing achieves

  lemma CleanHooksNoOwned(hooks: Manifest)
    ensures TotalOwned(CleanHooks(hooks)) == 0
    ensures forall k :: k in CleanHooks(hooks) ==> OwnedUnder(CleanHooks(hooks)[k]) == 0
  {
    forall k | k in CleanHooks(hooks) ensures OwnedUnder(CleanHooks(hooks)[k]) == 0 {
      if hooks[k].Items? {
        CleanTwice(hooks[k].items);
      }
    }
    NothingStray(CleanHooks(hooks));
  }

  /** What is left after cleaning never equals an owned group. */
  lemma NoOccurrence(groups: seq<Json>, command: string, event: string)
    requires Marked(command) && OwnedCount(groups) == 0
    ensures Occurrences(groups, ExpectedGroup(command, event)) == 0
  {
    OccurrencesAreOwned(groups, command, event);
  }

  lemma AddedEventFine(hooks: Manifest, command: string, event: string)
    requires Marked(command) && event in HOOK_EVENTS
    requires forall k :: k in hooks ==> OwnedUnder(hooks[k]) == 0
    ensures EventFine(AddOwned(hooks, command, HOOK_EVENTS), command, event)
  {
    hide AddOwned, ExpectedGroup, OwnedUnder, HOOK_EVENTS;
    EventsDistinct();
    AddedAre(hooks, command, HOOK_EVENTS);
    var groups := GroupsAt(hooks, event);
    var expected := ExpectedGroup(command, event);
    NoneUnder(hooks, event);
    NoOccurrence(groups, command, event);
    OccurrencesConcat(groups, [expected], expected);
    OwnedCountConcat(groups, [expected]);
    One(expected);
    ExpectedIsOwned(command, event);
  }

  lemma NoneUnder(hooks: Manifest, event: string)
    requires forall k :: k in hooks ==> OwnedUnder(hooks[k]) == 0
    ensures OwnedCount(GroupsAt(hooks, event)) == 0
  {
    if event in hooks {
      assert OwnedUnder(hooks[event]) == 0;
    }
  }

  /** A manifest after a successful install counts as installed, whatever it was before. */
  lemma InstallingInstalls(m: Manifest, command: string)
    requires Marked(command) && Installable(m)
    ensures IsInstalled(InstalledForm(m, command), command)
  {
    var cleaned := CleanedHooks(m);
    assert forall k :: k in cleaned ==> OwnedUnder(cleaned[k]) == 0 by {
      if HooksOf(m).Some? {
        CleanHooksNoOwned(HooksOf(m).value);
      }
    }
    hide CleanedHooks, AddOwned, HOOK_EVENTS, Installable, OwnedUnder, ExactlyOnce, Contains, EventFine;
    var added := AddOwned(cleaned, command, HOOK_EVENTS);
    forall e | e in HOOK_EVENTS ensures EventFine(added, command, e) {
      AddedEventFine(cleaned, command, e);
    }
    EventsDistinct();
    AddedAre(cleaned, command, HOOK_EVENTS);
    forall e ensures !Stray(added, e) {
      if e in added && e !in HOOK_EVENTS {
        assert OwnedUnder(cleaned[e]) == 0;
      }
    }
    NoFindingIffInstalled(added, InstalledForm(m, command), command);
  }

  /** Cleaning undoes the adding: only the array an event did not have before is gone again. */
  lemma CleanUndoesAdd(hooks: Manifest, command: string)
    requires Marked(command) && Appendable(CleanHooks(hooks), HOOK_EVENTS)
    ensures CleanHooks(AddOwned(CleanHooks(hooks), command, HOOK_EVENTS)) == CleanHooks(hooks)
  {
    hide HOOK_EVENTS, ExpectedGroup, AddOwned, Contains;
    EventsDistinct();
    var cleaned := CleanHooks(hooks);
    AddedAre(cleaned, command, HOOK_EVENTS);
    var added := AddOwned(cleaned, command, HOOK_EVENTS);
    forall k | k in added
      ensures k in CleanHooks(added) <==> k in cleaned
      ensures k in cleaned ==> CleanHooks(added)[k] == cleaned[k]
    {
      if k in HOOK_EVENTS {
        assert exists i :: 0 <= i < |HOOK_EVENTS| && HOOK_EVENTS[i] == k;
        var groups := GroupsAt(cleaned, k);
        CleanAdded(groups, command, k);
        if k in cleaned {
          CleanTwice(hooks[k].items);
        } else {
          assert Clean([]) == [];
        }
      } else if cleaned[k].Items? {
        CleanTwice(hooks[k].items);
      }
    }
    assert CleanHooks(added) == cleaned;
  }

  lemma CleanAdded(groups: seq<Json>, command: string, event: string)
    requires Marked(command)
    ensures Clean(groups + [ExpectedGroup(command, event)]) == Clean(groups)
  {
    hide ExpectedGroup;
    var expected := ExpectedGroup(command, event);
    CleanConcat(groups, [expected]);
    One(expected);
    ExpectedIsOwned(command, event);
    assert Clean(groups) + [] == Clean(groups);
  }

  /** Installing twice is installing once. */
  lemma InstallTwice(m: Manifest, command: string)
    requires Marked(command) && Installable(m)
    ensures Installable(InstalledForm(m, command))
    ensures InstalledForm(InstalledForm(m, command), command) == InstalledForm(m, command)
  {
    hide HOOK_EVENTS, AddOwned, CleanHooks, Appendable, Contains;
    var once := InstalledForm(m, command);
    if HooksOf(m).Some? {
      CleanUndoesAdd(HooksOf(m).value, command);
    } else {
      NothingToClean();
      CleanUndoesAdd(map[], command);
    }
    assert CleanedHooks(once) == CleanedHooks(m);
    assert InstalledForm(once, command) == once["hooks" := Dict(AddOwned(CleanedHooks(m), command, HOOK_EVENTS))];
  }

  lemma NothingToClean()
    ensures CleanHooks(map[]) == map[]
  {
  }

  /** Uninstalling after installing leaves what uninstalling alone would, up to an empty `hooks` object. */
  lemma UninstallUndoesInstall(m: Manifest, command: string)
    requires Marked(command) && Installable(m)
    ensures var (both, alone) := (WithoutOwned(InstalledForm(m, command)), WithoutOwned(m));
            && both - {"hooks"} == alone - {"hooks"}
            && HooksOf(both) == Some(if HooksOf(alone).Some? then HooksOf(alone).value else map[])
            && ("hooks" in m ==> both == alone)
  {
    hide HOOK_EVENTS, AddOwned, CleanHooks, Appendable, Contains;
    if HooksOf(m).Some? {
      CleanUndoesAdd(HooksOf(m).value, command);
    } else {
      NothingToClean();
      CleanUndoesAdd(map[], command);
    }
    var (both, alone) := (WithoutOwned(InstalledForm(m, command)), WithoutOwned(m));
    if "hooks" in m {
      assert both == alone;
    }
  }

  /** Every event keeps its foreign entries, their groups' other fields and their order. */
  lemma InstallKeepsForeign(m: Manifest, command: string, event: string)
    requires Marked(command) && Installable(m)
    ensures var before := if HooksOf(m).Some? then GroupsAt(HooksOf(m).value, event) else [];
            Foreign(GroupsAt(HooksOf(InstalledForm(m, command)).value, event)) == Foreign(before)
  {
    hide HOOK_EVENTS, AddOwned, Contains, ExpectedGroup;
    var cleaned := CleanedHooks(m);
    EventsDistinct();
    AddedAre(cleaned, command, HOOK_EVENTS);
    var before := if HooksOf(m).Some? then GroupsAt(HooksOf(m).value, event) else [];
    CleanKeepsForeign(before);
    assert Foreign(GroupsAt(cleaned, event)) == Foreign(before);
    if event in HOOK_EVENTS {
      ForeignConcat(GroupsAt(cleaned, event), [ExpectedGroup(command, event)]);
      One(ExpectedGroup(command, event));
      OwnedIsNotForeign(command, event);
    }
  }

  lemma OwnedIsNotForeign(command: string, event: string)
    requires Marked(command)
    ensures ForeignInGroup(ExpectedGroup(command, event)) == []
  {
    ExpectedIsOwned(command, event);
    var group := ExpectedGroup(command, event);
    ForeignInKept(Dict(group.entries["hooks" := Items([])]), EntriesOf(group));
  }

  // ---------------------------------------------------------------- near misses

  datatype Reason =
    | NoHookManifest
    | EventMissing
    | StaleOwnedEntry(count: nat)
    | DuplicateOwnedGroup(count: nat)
    | NearMiss(shares: bool, matcher: bool, timeout: bool, command: bool)
    | NotInstalled
    | OwnedOnUnknownEvent

  datatype Problem = Problem(event: string, reason: Reason)

  /** The events some finding is about. */
  function Reported(problems: seq<Problem>): set<string> {
    set k | 0 <= k < |problems| :: problems[k].event
  }

  lemma ReportedOne(problem: Problem)
    ensures Reported([problem]) == {problem.event}
  {
    assert [problem][0].event in Reported([problem]);
  }

  lemma ReportedConcat(s: seq<Problem>, t: seq<Problem>)
    ensures Reported(s + t) == Reported(s) + Reported(t)
  {
    forall e | e in Reported(s) + Reported(t) ensures e in Reported(s + t) {
      if e in Reported(s) {
        var k :| 0 <= k < |s| && s[k].event == e;
        assert (s + t)[k].event == e;
      } else {
        var k :| 0 <= k < |t| && t[k].event == e;
        assert (s + t)[|s| + k].event == e;
      }
    }
  }

  lemma ReportedNothing(problems: seq<Problem>)
    ensures problems == [] <==> Reported(problems) == {}
  {
    if problems != [] {
      assert problems[0].event in Reported(problems);
    }
  }

  function FirstOwned(entries: seq<Json>): Json
    requires OwnedIn(entries) > 0
  {
    var n := |entries| - 1;
    if OwnedIn(entries[..n]) > 0 then FirstOwned(entries[..n]) else entries[n]
  }

  function Field(value: Json, name: string): Option<Json> {
    if value.Dict? && name in value.entries then Some(value.entries[name]) else None
  }

  /** Every way the group differs from the expected one. */
  function Differences(group: Json, command: string, event: string): Reason
    requires Lists(group) && OwnedIn(EntriesOf(group)) > 0
  {
    var entry := FirstOwned(EntriesOf(group));
    NearMiss(|EntriesOf(group)| > 1,
             Field(group, "matcher") != Some(Text("*")),
             Field(entry, "timeout") != Some(Number(TimeoutOf(event))),
             Field(entry, "command") != Some(Text(command)))
  }

  /** The reason is about the first group that holds an owned entry. */
  ghost predicate NearestAt(groups: seq<Json>, k: nat, reason: Reason, command: string, event: string) {
    && k < |groups| && Lists(groups[k]) && OwnedIn(EntriesOf(groups[k])) > 0
    && OwnedCount(groups[..k]) == 0 && reason == Differences(groups[k], command, event)
  }

  class HookInstaller {
    const expectedCommand: string
    /** The manifest file; absent, or any JSON value. */
    var file: Option<Json>

    constructor (command: string, file: Option<Json>)
      requires Marked(command)
      ensures expectedCommand == command && this.file == file && Valid()
    {
      expectedCommand := command;
      this.file := file;
    }

    predicate Valid() {
      Marked(expectedCommand)
    }

    /** `_read`: an absent file is an empty manifest; what is not an object raises. */
    method Read() returns (r: Result<Manifest>)
      ensures r.Raised? <==> file.Some? && !file.value.Dict?
      ensures r.Ok? ==> r.value == if file.Some? then file.value.entries else map[]
    {
      if file.None? {
        return Ok(map[]);
      }
      if !file.value.Dict? {
        return Raised(InvalidValue);
      }
      return Ok(file.value.entries);
    }

    lemma CleanNext(groups: seq<Json>, k: nat)
      requires k < |groups|
      ensures Clean(groups[..k + 1]) == Clean(groups[..k]) + CleanGroup(groups[k])
    {
      assert groups[..k + 1][..k] == groups[..k];
    }

    method CleanList(groups: seq<Json>) returns (retained: seq<Json>)
      ensures retained == Clean(groups)
    {
      hide NotOwned, OwnedEntry;
      retained := [];
      for k := 0 to |groups|
        invariant retained == Clean(groups[..k])
      {
        assert groups[..k + 1][..k] == groups[..k];
        hide Clean;
        CleanNext(groups, k);
        var group := groups[k];
        if !Lists(group) {
          retained := retained + [group];
          continue;
        }
        var entries := NotOwned(EntriesOf(group));
        if entries != [] {
          retained := retained + [Dict(group.entries["hooks" := Items(entries)])];
        }
      }
      assert groups[..|groups|] == groups;
    }

    method RemoveOwned(m: Manifest) returns (updated: Manifest)
      ensures updated == WithoutOwned(m)
    {
      if HooksOf(m).None? {
        return m;
      }
      var before := HooksOf(m).value;
      var hooks := before;
      var left := before.Keys;
      while left != {}
        invariant left <= before.Keys
        invariant forall k :: k in hooks <==> k in before && (k in left || k in CleanHooks(before))
        invariant forall k :: k in hooks ==> hooks[k] == if k in left then before[k] else CleanHooks(before)[k]
        decreases |left|
      {
        var event :| event in left;
        left := left - {event};
        if hooks[event].Items? {
          var retained := CleanList(hooks[event].items);
          if retained != [] {
            hooks := hooks[event := Items(retained)];
          } else {
            hooks := hooks - {event};
          }
        }
      }
      assert hooks == CleanHooks(before);
      updated := m["hooks" := Dict(hooks)];
    }

    /** `install`: raises exactly for a manifest it cannot extend; otherwise the file is the installed form. */
    method Install(dryRun: bool) returns (r: Result<bool>)
      requires Valid()
      modifies this`file
      ensures r.Raised? <==> old(file).Some? && (!old(file).value.Dict? || !Installable(old(file).value.entries))
      ensures r.Raised? || dryRun ==> file == old(file)
      ensures r.Ok? ==> var m := if old(file).Some? then old(file).value.entries else map[];
                && r.value == (InstalledForm(m, expectedCommand) != m)
                && (!dryRun ==> file == if r.value then Some(Dict(InstalledForm(m, expectedCommand))) else old(file))
    {
      var read := Read();
      if read.Raised? {
        return Raised(read.reason);
      }
      var m := read.value;
      var updated := RemoveOwned(m);
      if "hooks" in updated && !updated["hooks"].Dict? {
        return Raised(InvalidValue);
      }
      var hooks := if "hooks" in updated then updated["hooks"].entries else map[];
      assert hooks == CleanedHooks(m);
      var added := AppendGroups(hooks);
      if added.Raised? {
        return Raised(added.reason);
      }
      var result := updated["hooks" := Dict(added.value)];
      assert result == InstalledForm(m, expectedCommand);
      var changed := result != m;
      if changed && !dryRun {
        file := Some(Dict(result));
      }
      return Ok(changed);
    }

    method AppendGroups(hooks: Manifest) returns (r: Result<Manifest>)
      ensures r.Ok? <==> Appendable(hooks, HOOK_EVENTS)
      ensures r.Ok? ==> r.value == AddOwned(hooks, expectedCommand, HOOK_EVENTS)
    {
      hide HOOK_EVENTS, ExpectedGroup, AddOwned;
      EventsDistinct();
      var added := hooks;
      AddsNothing(hooks, expectedCommand);
      for k := 0 to |HOOK_EVENTS|
        invariant added == AddOwned(hooks, expectedCommand, HOOK_EVENTS[..k])
        invariant Appendable(hooks, HOOK_EVENTS[..k])
      {
        var event := HOOK_EVENTS[k];
        AddsNext(hooks, expectedCommand, HOOK_EVENTS, k);
        if event in added && !added[event].Items? {
          return Raised(InvalidValue);
        }
        added := added[event := Items(GroupsAt(added, event) + [ExpectedGroup(expectedCommand, event)])];
      }
      assert HOOK_EVENTS[..|HOOK_EVENTS|] == HOOK_EVENTS;
      return Ok(added);
    }

    lemma AddsNothing(hooks: Manifest, command: string)
      ensures AddOwned(hooks, command, HOOK_EVENTS[..0]) == hooks
    {
    }

    /** The next event's value is still the one it had. */
    lemma AddsNext(hooks: Manifest, command: string, events: seq<string>, k: nat)
      requires k < |events| && Distinct(events)
      ensures var added := AddOwned(hooks, command, events[..k]);
              && AddOwned(hooks, command, events[..k + 1])
                 == added[events[k] := Items(GroupsAt(added, events[k]) + [ExpectedGroup(command, events[k])])]
              && (events[k] in added <==> events[k] in hooks)
              && (events[k] in hooks ==> added[events[k]] == hooks[events[k]])
    {
      hide ExpectedGroup;
      assert events[..k + 1][..k] == events[..k];
      AddedAre(hooks, command, events[..k]);
      assert events[k] !in events[..k];
    }

    method Uninstall(dryRun: bool) returns (r: Result<bool>)
      requires Valid()
      modifies this`file
      ensures r.Raised? <==> old(file).Some? && !old(file).value.Dict?
      ensures r.Raised? || dryRun ==> file == old(file)
      ensures r.Ok? ==> var m := if old(file).Some? then old(file).value.entries else map[];
                && r.value == (WithoutOwned(m) != m)
                && (!dryRun ==> file == if r.value then Some(Dict(WithoutOwned(m))) else old(file))
    {
      var read := Read();
      if read.Raised? {
        return Raised(read.reason);
      }
      var updated := RemoveOwned(read.value);
      var changed := updated != read.value;
      if changed && !dryRun {
        file := Some(Dict(updated));
      }
      return Ok(changed);
    }

    // -------------------------------------------------------------- check and diagnose

    /** `_near_miss_problem`: the first group with an owned entry, and every way it differs. */
    method NearestMiss(groups: seq<Json>, event: string) returns (reason: Reason)
      ensures reason.NotInstalled? <==> OwnedCount(groups) == 0
      ensures !reason.NotInstalled? ==> exists k :: 0 <= k < |groups| && NearestAt(groups, k, reason, expectedCommand, event)
    {
      for k := 0 to |groups|
        invariant OwnedCount(groups[..k]) == 0
      {
        assert groups[..k + 1][..k] == groups[..k];
        var group := groups[k];
        if !Lists(group) {
          continue;
        }
        if OwnedIn(EntriesOf(group)) == 0 {
          continue;
        }
        assert groups == groups[..k + 1] + groups[k + 1..];
        OwnedCountConcat(groups[..k + 1], groups[k + 1..]);
        reason := Differences(group, expectedCommand, event);
        assert NearestAt(groups, k, reason, expectedCommand, event);
        return;
      }
      assert groups[..|groups|] == groups;
      return NotInstalled;
    }

    /** One event of the diagnosis: a finding exactly when the event is not as installed. */
    method EventProblem(hooks: Manifest, event: string) returns (problem: Option<Problem>)
      ensures problem.Some? <==> !EventFine(hooks, expectedCommand, event)
      ensures problem.Some? ==> problem.value.event == event && !problem.value.reason.NoHookManifest?
      ensures problem.Some? ==> (problem.value.reason.EventMissing? <==> !(event in hooks && hooks[event].Items?))
    {
      if !(event in hooks && hooks[event].Items?) {
        return Some(Problem(event, EventMissing));
      }
      var groups := hooks[event].items;
      var matches := Occurrences(groups, ExpectedGroup(expectedCommand, event));
      var owned := OwnedCount(groups);
      if matches == 1 {
        if owned > 1 {
          return Some(Problem(event, StaleOwnedEntry(owned)));
        }
        return None;
      }
      if matches > 1 {
        return Some(Problem(event, DuplicateOwnedGroup(matches)));
      }
      var nearest := NearestMiss(groups, event);
      return Some(Problem(event, nearest));
    }

    /**
      `diagnose`: a finding for exactly the events that are not as installed and the foreign
      events that hold an owned entry. So it is empty exactly when the manifest is installed.
    */
    method Diagnose(m: Manifest) returns (problems: seq<Problem>)
      requires Valid()
      ensures problems == [] <==> IsInstalled(m, expectedCommand)
      ensures HooksOf(m).None? <==> problems == [Problem("*", NoHookManifest)]
      ensures HooksOf(m).Some? ==> forall e ::
                e in Reported(problems) <==>
                (e in HOOK_EVENTS && !EventFine(HooksOf(m).value, expectedCommand, e)) || Stray(HooksOf(m).value, e)
    {
      hide IsInstalled, EventFine;
      if HooksOf(m).None? {
        NoHooksNotInstalled(m, expectedCommand);
        return [Problem("*", NoHookManifest)];
      }
      var hooks := HooksOf(m).value;
      var known := KnownEventProblems(hooks);
      var stray := StrayProblems(hooks);
      problems := known + stray;
      NoFindingIffInstalled(hooks, m, expectedCommand);
      ReportedConcat(known, stray);
      ReportedNothing(problems);
    }

    lemma NoHooksNotInstalled(m: Manifest, command: string)
      requires HooksOf(m).None?
      ensures !IsInstalled(m, command)
    {
    }

    method KnownEventProblems(hooks: Manifest) returns (problems: seq<Problem>)
      ensures forall e :: e in Reported(problems) <==> e in HOOK_EVENTS && !EventFine(hooks, expectedCommand, e)
      ensures forall p :: p in problems ==> !p.reason.NoHookManifest?
    {
      hide HOOK_EVENTS, EventFine;
      problems := [];
      for k := 0 to |HOOK_EVENTS|
        invariant forall e :: e in Reported(problems) <==> e in HOOK_EVENTS[..k] && !EventFine(hooks, expectedCommand, e)
        invariant forall p :: p in problems ==> !p.reason.NoHookManifest?
      {
        var event := HOOK_EVENTS[k];
        var problem := EventProblem(hooks, event);
        assert forall e :: e in HOOK_EVENTS[..k + 1] <==> e in HOOK_EVENTS[..k] || e == event;
        if problem.Some? {
          ReportedConcat(problems, [problem.value]);
          ReportedOne(problem.value);
          problems := problems + [problem.value];
        }
      }
      assert HOOK_EVENTS[..|HOOK_EVENTS|] == HOOK_EVENTS;
    }

    /** Owned entries filed under an event the harness does not install. */
    method StrayProblems(hooks: Manifest) returns (problems: seq<Problem>)
      ensures forall e :: e in Reported(problems) <==> Stray(hooks, e)
      ensures forall p :: p in problems ==> !p.reason.NoHookManifest?
    {
      hide HOOK_EVENTS;
      problems := [];
      var left := hooks.Keys;
      while left != {}
        invariant left <= hooks.Keys
        invariant forall e :: e in Reported(problems) <==> e !in left && Stray(hooks, e)
        invariant forall p :: p in problems ==> !p.reason.NoHookManifest?
        decreases |left|
      {
        var event :| event in left;
        left := left - {event};
        if event !in HOOK_EVENTS && hooks[event].Items? && OwnedCount(hooks[event].items) > 0 {
          ReportedConcat(problems, [Problem(event, OwnedOnUnknownEvent)]);
          ReportedOne(Problem(event, OwnedOnUnknownEvent));
          problems := problems + [Problem(event, OwnedOnUnknownEvent)];
        }
      }
    }
  }

  // ---------------------------------------------------------------- what a removal does not keep

  /** A group that lists nothing but owned entries; listing nothing at all is one case of it. */
  predicate Lost(group: Json) {
    Lists(group) && AllOwned(EntriesOf(group))
  }

  predicate AllOwned(entries: seq<Json>) {
    forall k :: 0 <= k < |entries| ==> OwnedEntry(entries[k])
  }

  lemma AllOwnedPush(entries: seq<Json>, e: Json)
    ensures AllOwned(entries + [e]) <==> AllOwned(entries) && OwnedEntry(e)
  {
    hide OwnedEntry;
    var grown := entries + [e];
    assert forall k :: 0 <= k < |entries| ==> grown[k] == entries[k];
    assert grown[|entries|] == e;
  }

  lemma {:induction false} NothingKept(entries: seq<Json>)
    ensures NotOwned(entries) == [] <==> AllOwned(entries)
    ensures OwnedIn(entries) == 0 ==> NotOwned(entries) == entries
  {
    hide OwnedEntry;
    if entries != [] {
      var n := |entries| - 1;
      NothingKept(entries[..n]);
      assert entries == entries[..n] + [entries[n]];
      AllOwnedPush(entries[..n], entries[n]);
      hide AllOwned;
    }
  }

  /**
    A group is removed exactly when all it lists is owned. So a group without owned entries is
    removed exactly when its array is empty, and otherwise comes back as it was.
   */
  lemma GroupLostExactly(group: Json)
    ensures CleanGroup(group) == [] <==> Lost(group)
    ensures OwnedInGroup(group) == 0 ==>
              CleanGroup(group) == if Lists(group) && EntriesOf(group) == [] then [] else [group]
  {
    if Lists(group) {
      NothingKept(EntriesOf(group));
      if OwnedInGroup(group) == 0 {
        assert group.entries["hooks" := Items(EntriesOf(group))] == group.entries;
      }
    }
  }

  lemma {:induction false} AllLost(groups: seq<Json>)
    ensures Clean(groups) == [] <==> forall k :: 0 <= k < |groups| ==> Lost(groups[k])
  {
    if groups != [] {
      var n := |groups| - 1;
      AllLost(groups[..n]);
      GroupLostExactly(groups[n]);
      assert groups == groups[..n] + [groups[n]];
    }
  }

  /** Absent, or an array all of whose groups are removed. */
  predicate EventLost(hooks: Manifest, event: string) {
    event in hooks ==> hooks[event].Items? && forall k :: 0 <= k < |hooks[event].items| ==> Lost(hooks[event].items[k])
  }

  /** A removal drops an event exactly when every group of its array is removed, an empty array included. */
  lemma EventLostExactly(m: Manifest, event: string)
    requires HooksOf(m).Some?
    ensures HooksOf(WithoutOwned(m)).Some?
    ensures event !in HooksOf(WithoutOwned(m)).value <==> EventLost(HooksOf(m).value, event)
  {
    var hooks := HooksOf(m).value;
    hide Clean, Lost;
    if event in hooks && hooks[event].Items? {
      AllLost(hooks[event].items);
    }
  }

  /** An installation drops the same events, and gives those of the harness back with its own group only. */
  lemma InstallingLosesExactly(m: Manifest, command: string, event: string)
    requires Marked(command) && Installable(m)
    ensures var before := if HooksOf(m).Some? then HooksOf(m).value else map[];
            var after := HooksOf(InstalledForm(m, command)).value;
            if event in HOOK_EVENTS then
              event in after && (after[event] == Items([ExpectedGroup(command, event)]) <==> EventLost(before, event))
            else
              event !in after <==> EventLost(before, event)
  {
    var before := if HooksOf(m).Some? then HooksOf(m).value else map[];
    if event in before && before[event].Items? {
      AllLost(before[event].items);
    }
    hide HOOK_EVENTS, AddOwned, Contains, ExpectedGroup, Clean, Lost, OwnedEntry;
    var cleaned := CleanedHooks(m);
    EventsDistinct();
    AddedAre(cleaned, command, HOOK_EVENTS);
    assert event !in cleaned <==> EventLost(before, event);
    if event in HOOK_EVENTS {
      var groups := GroupsAt(cleaned, event);
      assert event in cleaned ==> cleaned[event].Items? by {
        var k :| 0 <= k < |HOOK_EVENTS| && HOOK_EVENTS[k] == event;
      }
      assert groups == [] <==> event !in cleaned;
      assert groups + [ExpectedGroup(command, event)] == [ExpectedGroup(command, event)] <==> groups == [] by {
        assert |groups + [ExpectedGroup(command, event)]| == |groups| + 1;
      }
    }
  }

  /** For one, an event whose only group lists nothing goes altogether. */
  lemma EmptyGroupsVanish(m: Manifest, event: string, group: Json)
    requires HooksOf(m).Some? && event in HooksOf(m).value && HooksOf(m).value[event] == Items([group])
    requires Lists(group) && EntriesOf(group) == []
    ensures event !in HooksOf(WithoutOwned(m)).value
  {
    EventLostExactly(m, event);
  }
}
