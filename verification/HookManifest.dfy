/**
  The hook manifest of src/agent_session_harness/hooks/install.py: recognising, removing and
  adding the harness's own entries, and explaining why a manifest does not count as installed.
 */
module HookManifest {
  import opened Options
  import opened JsonTrees
  import opened Sequences

  const OWNED_MARKER_PREFIX := "AGENT_SESSION_HARNESS_OWNED="

  const HOOK_EVENTS: seq<string> := [
    "SessionStart", "UserPromptSubmit", "PreToolUse", "PostToolUse", "PostToolUseFailure",
    "SubagentStart", "SubagentStop", "Stop", "PreCompact", "SessionEnd"]

  type Manifest = map<string, Json>

  predicate OwnedEntry(entry: Json) {
    && entry.Dict? && "command" in entry.entries && entry.entries["command"].Text?
    && Contains(entry.entries["command"].text, OWNED_MARKER_PREFIX)
  }

  /** A group that lists hook entries. */
  predicate Lists(group: Json) {
    group.Dict? && "hooks" in group.entries && group.entries["hooks"].Items?
  }

  function EntriesOf(group: Json): seq<Json>
    requires Lists(group)
  {
    group.entries["hooks"].items
  }

  function NotOwned(entries: seq<Json>): seq<Json> {
    if entries == [] then []
    else
      var n := |entries| - 1;
      NotOwned(entries[..n]) + if OwnedEntry(entries[n]) then [] else [entries[n]]
  }

  function OwnedIn(entries: seq<Json>): nat {
    if entries == [] then 0
    else
      var n := |entries| - 1;
      OwnedIn(entries[..n]) + if OwnedEntry(entries[n]) then 1 else 0
  }

  function OwnedInGroup(group: Json): nat {
    if Lists(group) then OwnedIn(EntriesOf(group)) else 0
  }

  /** `_owned_entry_count`. */
  function OwnedCount(groups: seq<Json>): nat {
    if groups == [] then 0 else OwnedCount(groups[..|groups| - 1]) + OwnedInGroup(groups[|groups| - 1])
  }

  function OwnedUnder(value: Json): nat {
    if value.Items? then OwnedCount(value.items) else 0
  }

  function TimeoutOf(event: string): real {
    if event == "SessionStart" then 35.0 else 5.0
  }

  function ExpectedGroup(command: string, event: string): Json {
    Dict(map["matcher" := Text("*"),
             "hooks" := Items([Dict(map["type" := Text("command"), "command" := Text(command),
                                        "timeout" := Number(TimeoutOf(event))])])])
  }

  /** How often a group occurs. */
  function Occurrences(groups: seq<Json>, group: Json): nat {
    if groups == [] then 0
    else Occurrences(groups[..|groups| - 1], group) + if groups[|groups| - 1] == group then 1 else 0
  }

  // ---------------------------------------------------------------- owned entries of a whole manifest

  ghost function TotalOwned(hooks: Manifest): nat
    decreases |hooks|
  {
    if hooks == map[] then 0
    else
      var k :| k in hooks;
      OwnedUnder(hooks[k]) + TotalOwned(hooks - {k})
  }

  /** The total does not depend on the order of the keys. */
  lemma {:induction false} TotalWithout(hooks: Manifest, k: string)
    requires k in hooks
    ensures TotalOwned(hooks) == OwnedUnder(hooks[k]) + TotalOwned(hooks - {k})
    decreases |hooks|
  {
    var j :| j in hooks && TotalOwned(hooks) == OwnedUnder(hooks[j]) + TotalOwned(hooks - {j});
    if j != k {
      TotalWithout(hooks - {j}, k);
      TotalWithout(hooks - {k}, j);
      assert hooks - {j} - {k} == hooks - {k} - {j};
    }
  }

  function OwnedAt(hooks: Manifest, event: string): nat {
    if event in hooks then OwnedUnder(hooks[event]) else 0
  }

  function OwnedOver(hooks: Manifest, events: seq<string>): nat {
    if events == [] then 0 else OwnedOver(hooks, events[..|events| - 1]) + OwnedAt(hooks, events[|events| - 1])
  }

  function Names(events: seq<string>): set<string> {
    set k | 0 <= k < |events| :: events[k]
  }

  lemma {:induction false} TotalSplits(hooks: Manifest, events: seq<string>)
    requires Distinct(events)
    ensures TotalOwned(hooks) == OwnedOver(hooks, events) + TotalOwned(hooks - Names(events))
  {
    if events == [] {
      assert hooks - Names(events) == hooks;
    } else {
      var n := |events| - 1;
      TotalSplits(hooks, events[..n]);
      var rest := hooks - Names(events[..n]);
      NamesPush(events);
      assert events[n] !in Names(events[..n]);
      if events[n] in hooks {
        TotalWithout(rest, events[n]);
        assert rest - {events[n]} == hooks - Names(events);
      } else {
        assert rest == hooks - Names(events);
      }
    }
  }

  lemma NamesPush(events: seq<string>)
    requires events != []
    ensures Names(events) == Names(events[..|events| - 1]) + {events[|events| - 1]}
  {
    var n := |events| - 1;
    forall e | e in Names(events[..n]) + {events[n]} ensures e in Names(events) {
      if e in Names(events[..n]) {
        var k :| 0 <= k < n && events[..n][k] == e;
        assert events[k] == e;
      }
    }
  }

  /** Sums of at least one each: the total is their number exactly when each is one. */
  lemma {:induction false} OneEach(hooks: Manifest, events: seq<string>)
    requires forall e :: e in events ==> OwnedAt(hooks, e) >= 1
    ensures OwnedOver(hooks, events) >= |events|
    ensures OwnedOver(hooks, events) == |events| <==> forall e :: e in events ==> OwnedAt(hooks, e) == 1
  {
    if events != [] {
      var n := |events| - 1;
      OneEach(hooks, events[..n]);
      assert forall e :: e in events <==> e in events[..n] || e == events[n];
    }
  }

  lemma {:induction false} NothingStray(hooks: Manifest)
    ensures TotalOwned(hooks) == 0 <==> forall k :: k in hooks ==> OwnedUnder(hooks[k]) == 0
    decreases |hooks|
  {
    if hooks != map[] {
      var j :| j in hooks && TotalOwned(hooks) == OwnedUnder(hooks[j]) + TotalOwned(hooks - {j});
      NothingStray(hooks - {j});
      assert forall k :: k in hooks <==> k in hooks - {j} || k == j;
    }
  }

  lemma EventsDistinct()
    ensures Distinct(HOOK_EVENTS) && |HOOK_EVENTS| == 10
  {
  }

  // ---------------------------------------------------------------- installed, and the diagnosis

  function HooksOf(m: Manifest): Option<Manifest> {
    if "hooks" in m && m["hooks"].Dict? then Some(m["hooks"].entries) else None
  }

  predicate ExactlyOnce(hooks: Manifest, command: string, event: string) {
    event in hooks && hooks[event].Items? && Occurrences(hooks[event].items, ExpectedGroup(command, event)) == 1
  }

  /** `_is_installed`: the global count of owned entries, and each expected group exactly once. */
  ghost predicate IsInstalled(m: Manifest, command: string) {
    && HooksOf(m).Some?
    && TotalOwned(HooksOf(m).value) == |HOOK_EVENTS|
    && forall e :: e in HOOK_EVENTS ==> ExactlyOnce(HooksOf(m).value, command, e)
  }

  predicate EventFine(hooks: Manifest, command: string, event: string) {
    ExactlyOnce(hooks, command, event) && OwnedCount(hooks[event].items) <= 1
  }

  predicate Stray(hooks: Manifest, event: string) {
    event in hooks && event !in HOOK_EVENTS && OwnedUnder(hooks[event]) > 0
  }

  /** The command carries the marker, as the constructor demands. */
  predicate Marked(command: string) {
    Contains(command, OWNED_MARKER_PREFIX)
  }

  lemma ExpectedIsOwned(command: string, event: string)
    requires Marked(command)
    ensures Lists(ExpectedGroup(command, event)) && OwnedInGroup(ExpectedGroup(command, event)) == 1
    ensures NotOwned(EntriesOf(ExpectedGroup(command, event))) == []
  {
    var entry := Dict(map["type" := Text("command"), "command" := Text(command), "timeout" := Number(TimeoutOf(event))]);
    assert OwnedEntry(entry);
    assert EntriesOf(ExpectedGroup(command, event)) == [entry];
    assert [entry][..0] == [];
    assert OwnedIn([entry]) == OwnedIn([]) + 1;
    assert NotOwned([entry]) == NotOwned([]) + [];
  }

  lemma {:induction false} OccurrencesAreOwned(groups: seq<Json>, command: string, event: string)
    requires Marked(command)
    ensures OwnedCount(groups) >= Occurrences(groups, ExpectedGroup(command, event))
  {
    if groups != [] {
      OccurrencesAreOwned(groups[..|groups| - 1], command, event);
      ExpectedIsOwned(command, event);
    }
  }

  /** The per-event findings are complete: none is left exactly when the manifest counts as installed. */
  lemma NoFindingIffInstalled(hooks: Manifest, m: Manifest, command: string)
    requires Marked(command) && HooksOf(m) == Some(hooks)
    ensures IsInstalled(m, command) <==>
            (forall e :: e in HOOK_EVENTS ==> EventFine(hooks, command, e)) && (forall e :: !Stray(hooks, e))
  {
    hide OwnedUnder, Occurrences, ExpectedGroup, Contains, HOOK_EVENTS, OwnedOver, TotalOwned, Names, OwnedCount;
    if forall e :: e in HOOK_EVENTS ==> ExactlyOnce(hooks, command, e) {
      EventsDistinct();
      TotalSplits(hooks, HOOK_EVENTS);
      forall e | e in HOOK_EVENTS ensures OwnedAt(hooks, e) >= 1 && OwnedAt(hooks, e) == OwnedCount(hooks[e].items) {
        OccurrencesAreOwned(hooks[e].items, command, e);
        UnderItems(hooks[e]);
      }
      OneEach(hooks, HOOK_EVENTS);
      var rest := hooks - Names(HOOK_EVENTS);
      NothingStray(rest);
      NamesAre(HOOK_EVENTS);
      assert (forall k :: k in rest ==> OwnedUnder(rest[k]) == 0) <==> (forall e :: !Stray(hooks, e)) by {
        forall k | k in rest ensures OwnedUnder(rest[k]) > 0 <==> Stray(hooks, k) {
        }
        forall e | Stray(hooks, e) ensures e in rest {
        }
      }
    }
  }

  lemma UnderItems(value: Json)
    requires value.Items?
    ensures OwnedUnder(value) == OwnedCount(value.items)
  {
  }

  lemma NamesAre(events: seq<string>)
    ensures forall e :: e in Names(events) <==> e in events
  {
  }
}
