/**
  What installing and removing hooks does, stated on the entries of a manifest: which entry is the
  harness's own, where an entry is filed, and what the diagnosis compares.
 */
module HookMeaning {
  import opened Options
  import opened JsonTrees
  import opened Sequences
  import opened HookManifest
  import opened HookInstalling

  /** A command entry whose text holds the harness's marker somewhere. */
  ghost predicate Ours(entry: Json) {
    && entry.Dict? && "command" in entry.entries && entry.entries["command"].Text?
    && exists k: nat :: MarkerAt(entry.entries["command"].text, k)
  }

  ghost predicate MarkerAt(text: string, k: nat) {
    var marker := "AGENT_SESSION_HARNESS_OWNED=";
    k + |marker| <= |text| && text[k..k + |marker|] == marker
  }

  lemma OursIsOwned(entry: Json)
    ensures Ours(entry) <==> OwnedEntry(entry)
  {
    if OwnedEntry(entry) {
      var text := entry.entries["command"].text;
      var k :| 0 <= k <= |text| && StandsAt(text, OWNED_MARKER_PREFIX, k);
      assert MarkerAt(text, k);
    }
    if Ours(entry) {
      var text := entry.entries["command"].text;
      var k: nat :| MarkerAt(text, k);
      assert StandsAt(text, OWNED_MARKER_PREFIX, k);
    }
  }

  /** Some group of the event lists the entry. */
  ghost predicate Filed(hooks: Manifest, event: string, entry: Json) {
    event in hooks && hooks[event].Items? && exists k :: 0 <= k < |hooks[event].items| && ListedIn(hooks[event].items[k], entry)
  }

  ghost predicate ListedIn(group: Json, entry: Json) {
    && group.Dict? && "hooks" in group.entries && group.entries["hooks"].Items?
    && entry in group.entries["hooks"].items
  }

  ghost predicate ListedAmong(groups: seq<Json>, entry: Json) {
    exists k :: 0 <= k < |groups| && ListedIn(groups[k], entry)
  }

  lemma AmongConcat(s: seq<Json>, t: seq<Json>, entry: Json)
    ensures ListedAmong(s + t, entry) <==> ListedAmong(s, entry) || ListedAmong(t, entry)
  {
    hide ListedIn;
    if k :| 0 <= k < |s| && ListedIn(s[k], entry) {
      assert ListedIn((s + t)[k], entry);
    }
    if k :| 0 <= k < |t| && ListedIn(t[k], entry) {
      assert ListedIn((s + t)[|s| + k], entry);
    }
  }

  lemma {:induction false} NotOwnedMembers(entries: seq<Json>, entry: Json)
    ensures entry in NotOwned(entries) <==> entry in entries && !OwnedEntry(entry)
  {
    hide OwnedEntry;
    if entries != [] {
      var n := |entries| - 1;
      NotOwnedMembers(entries[..n], entry);
      assert entry in entries <==> entry in entries[..n] || entry == entries[n];
    }
  }

  lemma CleanGroupKeeps(group: Json, entry: Json)
    ensures ListedAmong(CleanGroup(group), entry) <==> ListedIn(group, entry) && !OwnedEntry(entry)
  {
    hide OwnedEntry;
    var cleaned := CleanGroup(group);
    if Lists(group) {
      NotOwnedMembers(EntriesOf(group), entry);
      if cleaned != [] {
        assert ListedIn(cleaned[0], entry) <==> entry in NotOwned(EntriesOf(group));
      }
    } else {
      assert !ListedIn(cleaned[0], entry);
    }
  }

  lemma {:induction false} CleanKeeps(groups: seq<Json>, entry: Json)
    ensures ListedAmong(Clean(groups), entry) <==> ListedAmong(groups, entry) && !OwnedEntry(entry)
  {
    hide OwnedEntry, CleanGroup, ListedIn;
    if groups != [] {
      var n := |groups| - 1;
      CleanKeeps(groups[..n], entry);
      CleanGroupKeeps(groups[n], entry);
      AmongConcat(Clean(groups[..n]), CleanGroup(groups[n]), entry);
      assert groups == groups[..n] + [groups[n]];
      AmongConcat(groups[..n], [groups[n]], entry);
      assert ListedAmong([groups[n]], entry) <==> ListedIn(groups[n], entry) by {
        assert [groups[n]][0] == groups[n];
      }
    }
  }

  lemma CleanHooksKeep(hooks: Manifest, event: string, entry: Json)
    ensures Filed(CleanHooks(hooks), event, entry) <==> Filed(hooks, event, entry) && !OwnedEntry(entry)
  {
    hide OwnedEntry, ListedIn, Clean;
    if event in hooks && hooks[event].Items? {
      CleanKeeps(hooks[event].items, entry);
    }
  }

  /** A removal takes exactly the harness's own entries out, whatever event they are filed under. */
  lemma RemovalKeepsExactly(m: Manifest, event: string, entry: Json)
    requires HooksOf(m).Some?
    ensures HooksOf(WithoutOwned(m)).Some?
    ensures Filed(HooksOf(WithoutOwned(m)).value, event, entry) <==> Filed(HooksOf(m).value, event, entry) && !Ours(entry)
    ensures forall key :: key != "hooks" ==> (key in WithoutOwned(m) <==> key in m) && (key in m ==> WithoutOwned(m)[key] == m[key])
  {
    hide CleanHooks, OwnedEntry, Ours, Filed;
    OursIsOwned(entry);
    CleanHooksKeep(HooksOf(m).value, event, entry);
  }

  /** The ten events the harness hooks into. */
  ghost predicate Hooked(event: string) {
    || event == "SessionStart" || event == "UserPromptSubmit" || event == "PreToolUse" || event == "PostToolUse"
    || event == "PostToolUseFailure" || event == "SubagentStart" || event == "SubagentStop" || event == "Stop"
    || event == "PreCompact" || event == "SessionEnd"
  }

  /** The entry that is installed for an event: only a session start has the longer timeout. */
  ghost function EntryFor(command: string, event: string): Json {
    Dict(map["type" := Text("command"), "command" := Text(command),
             "timeout" := Number(if event == "SessionStart" then 35.0 else 5.0)])
  }

  lemma HookedAreEvents(event: string)
    ensures Hooked(event) <==> event in HOOK_EVENTS
  {
    assert HOOK_EVENTS[0] == "SessionStart" && HOOK_EVENTS[1] == "UserPromptSubmit" && HOOK_EVENTS[2] == "PreToolUse"
        && HOOK_EVENTS[3] == "PostToolUse" && HOOK_EVENTS[4] == "PostToolUseFailure" && HOOK_EVENTS[5] == "SubagentStart"
        && HOOK_EVENTS[6] == "SubagentStop" && HOOK_EVENTS[7] == "Stop" && HOOK_EVENTS[8] == "PreCompact" && HOOK_EVENTS[9] == "SessionEnd";
  }

  lemma ExpectedLists(command: string, event: string, entry: Json)
    ensures ListedAmong([ExpectedGroup(command, event)], entry) <==> entry == EntryFor(command, event)
  {
    var group := ExpectedGroup(command, event);
    assert [group][0] == group;
    assert group.entries["hooks"].items == [EntryFor(command, event)];
    assert ListedIn(group, entry) <==> entry == EntryFor(command, event);
  }

  /**
    After an installation, an entry is filed under an event exactly when it was before and is not
    the harness's own, or it is the entry for this event of the ten. Under each of the ten the last
    group holds that entry alone and matches everything.
   */
  lemma InstallationFilesExactly(m: Manifest, command: string, event: string, entry: Json)
    requires Marked(command) && Installable(m)
    ensures var after := HooksOf(InstalledForm(m, command)).value;
            && (Filed(after, event, entry) <==>
                  || (HooksOf(m).Some? && Filed(HooksOf(m).value, event, entry) && !Ours(entry))
                  || (Hooked(event) && entry == EntryFor(command, event)))
            && (Hooked(event) ==>
                  && event in after && after[event].Items? && after[event].items != []
                  && after[event].items[|after[event].items| - 1]
                     == Dict(map["matcher" := Text("*"), "hooks" := Items([EntryFor(command, event)])]))
  {
    var cleaned := CleanedHooks(m);
    OursIsOwned(entry);
    HookedAreEvents(event);
    EventsDistinct();
    AddedAre(cleaned, command, HOOK_EVENTS);
    FiledAfterCleaning(m, event, entry);
    ExpectedLists(command, event, entry);
    assert ExpectedGroup(command, event) == Dict(map["matcher" := Text("*"), "hooks" := Items([EntryFor(command, event)])]);
    hide HOOK_EVENTS, AddOwned, Contains, ExpectedGroup, OwnedEntry, Ours, CleanedHooks, Hooked, ListedIn, EntryFor;
    var after := AddOwned(cleaned, command, HOOK_EVENTS);
    assert HooksOf(InstalledForm(m, command)) == Some(after);
    if event in HOOK_EVENTS {
      AmongConcat(GroupsAt(cleaned, event), [ExpectedGroup(command, event)], entry);
      InEvents(cleaned, event);
      assert ListedAmong(GroupsAt(cleaned, event), entry) <==> Filed(cleaned, event, entry);
      assert after[event].items == GroupsAt(cleaned, event) + [ExpectedGroup(command, event)];
    }
  }

  lemma InEvents(cleaned: Manifest, event: string)
    requires Appendable(cleaned, HOOK_EVENTS) && event in HOOK_EVENTS
    ensures event in cleaned ==> cleaned[event].Items?
  {
    hide HOOK_EVENTS;
    var k :| 0 <= k < |HOOK_EVENTS| && HOOK_EVENTS[k] == event;
  }

  lemma FiledAfterCleaning(m: Manifest, event: string, entry: Json)
    ensures Filed(CleanedHooks(m), event, entry) <==> HooksOf(m).Some? && Filed(HooksOf(m).value, event, entry) && !OwnedEntry(entry)
  {
    hide CleanHooks, OwnedEntry;
    if HooksOf(m).Some? {
      CleanHooksKeep(HooksOf(m).value, event, entry);
    }
  }

  // ---------------------------------------------------------------- the near miss

  /** Entry `j` is the first of the group that is the harness's own. */
  ghost predicate FirstOurs(entries: seq<Json>, j: nat) {
    j < |entries| && Ours(entries[j]) && forall i :: 0 <= i < j ==> !Ours(entries[i])
  }

  ghost predicate Holds(value: Json, name: string, wanted: Json) {
    value.Dict? && name in value.entries && value.entries[name] == wanted
  }

  /** The reason given for a group that holds an own entry names every difference, and only those. */
  lemma DifferencesAre(group: Json, command: string, event: string, j: nat)
    requires Lists(group) && FirstOurs(EntriesOf(group), j)
    ensures OwnedIn(EntriesOf(group)) > 0
    ensures Differences(group, command, event)
         == NearMiss(|EntriesOf(group)| > 1,
                     !Holds(group, "matcher", Text("*")),
                     !Holds(EntriesOf(group)[j], "timeout", Number(if event == "SessionStart" then 35.0 else 5.0)),
                     !Holds(EntriesOf(group)[j], "command", Text(command)))
  {
    FirstOwnedIs(EntriesOf(group), j);
  }

  lemma {:induction false} FirstOwnedIs(entries: seq<Json>, j: nat)
    requires FirstOurs(entries, j)
    ensures OwnedIn(entries) > 0 && FirstOwned(entries) == entries[j]
  {
    hide Ours, OwnedEntry;
    var n := |entries| - 1;
    OursIsOwned(entries[n]);
    if j < n {
      assert FirstOurs(entries[..n], j);
      FirstOwnedIs(entries[..n], j);
    } else {
      NoneOwned(entries[..n]);
    }
  }

  lemma {:induction false} NoneOwned(entries: seq<Json>)
    requires forall i :: 0 <= i < |entries| ==> !Ours(entries[i])
    ensures OwnedIn(entries) == 0
  {
    hide Ours, OwnedEntry;
    if entries != [] {
      OursIsOwned(entries[|entries| - 1]);
      NoneOwned(entries[..|entries| - 1]);
    }
  }
}
