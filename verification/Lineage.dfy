/**
  Fork lineages of src/agent_session_harness/adapters/codex.py: ordering sessions so that every
  parent comes before its forks, and subtracting what a fork inherited from its parent.
 */
module Lineage {
  import opened Options

  datatype Tokens = Tokens(input: nat, cachedInput: nat, output: nat, reasoning: nat, total: nat)

  datatype TokenEvent = TokenEvent(observedAt: int, cumulative: Tokens)

  /** `events` are sorted by time; ids are compared as the original compares its strings. */
  datatype Session = Session(id: nat, parent: Option<nat>, startedAt: int, events: seq<TokenEvent>)

  // ---------------------------------------------------------------- lineages

  ghost predicate DistinctIds(sessions: seq<Session>) {
    forall i, j :: 0 <= i < j < |sessions| ==> sessions[i].id != sessions[j].id
  }

  ghost predicate Indexes(byId: map<nat, Session>, sessions: seq<Session>) {
    && (forall s :: s in sessions ==> s.id in byId && byId[s.id] == s)
    && (forall id :: id in byId ==> byId[id].id == id && byId[id] in sessions)
  }

  /** The parent among the given sessions. */
  function ParentOf(byId: map<nat, Session>, id: nat): Option<nat>
    requires id in byId
  {
    if byId[id].parent.Some? && byId[id].parent.value in byId then byId[id].parent else None
  }

  function Ancestor(byId: map<nat, Session>, id: nat, steps: nat): Option<nat>
    requires id in byId
    ensures Ancestor(byId, id, steps).Some? ==> Ancestor(byId, id, steps).value in byId
  {
    if steps == 0 then Some(id)
    else
      var near := Ancestor(byId, id, steps - 1);
      if near.None? then None else ParentOf(byId, near.value)
  }

  /** Following parents leads back to where it started. */
  ghost predicate Cyclic(byId: map<nat, Session>) {
    exists id, steps: nat :: id in byId && steps > 0 && Ancestor(byId, id, steps) == Some(id)
  }

  /** Every given parent is placed before its fork. */
  ghost predicate ParentsFirst(byId: map<nat, Session>, ordered: seq<Session>) {
    forall k :: 0 <= k < |ordered| && ordered[k].id in byId && ParentOf(byId, ordered[k].id).Some? ==>
      exists j :: 0 <= j < k && ordered[j].id == ParentOf(byId, ordered[k].id).value
  }

  lemma {:induction false} AncestorsComeEarlier(byId: map<nat, Session>, ordered: seq<Session>, k: nat, steps: nat)
    requires k < |ordered| && ordered[k].id in byId && ParentsFirst(byId, ordered)
    requires Ancestor(byId, ordered[k].id, steps).Some?
    ensures exists j :: 0 <= j <= k - steps && ordered[j].id == Ancestor(byId, ordered[k].id, steps).value
    decreases steps
  {
    if steps == 0 {
      assert ordered[k].id == Ancestor(byId, ordered[k].id, 0).value;
    } else {
      AncestorsComeEarlier(byId, ordered, k, steps - 1);
      var near :| 0 <= near <= k - (steps - 1) && ordered[near].id == Ancestor(byId, ordered[k].id, steps - 1).value;
      var j :| 0 <= j < near && ordered[j].id == ParentOf(byId, ordered[near].id).value;
    }
  }

  /** An order with parents first exists only without cycles. */
  lemma OrderedMeansAcyclic(byId: map<nat, Session>, ordered: seq<Session>)
    requires ParentsFirst(byId, ordered) && DistinctIds(ordered)
    requires forall id :: id in byId ==> exists k :: 0 <= k < |ordered| && ordered[k].id == id
    ensures !Cyclic(byId)
  {
    forall id, steps: nat | id in byId && steps > 0 ensures Ancestor(byId, id, steps) != Some(id) {
      var k :| 0 <= k < |ordered| && ordered[k].id == id;
      if Ancestor(byId, id, steps).Some? {
        AncestorsComeEarlier(byId, ordered, k, steps);
      }
    }
  }

  // ---------------------------------------------------------------- the sort of the roots

  predicate SortsBefore(a: Session, b: Session) {
    a.startedAt < b.startedAt || (a.startedAt == b.startedAt && a.id <= b.id)
  }

  predicate Sorted(s: seq<Session>) {
    forall i, j :: 0 <= i < j < |s| ==> SortsBefore(s[i], s[j])
  }

  function Inserted(sorted: seq<Session>, x: Session): seq<Session> {
    if sorted == [] || SortsBefore(x, sorted[0]) then [x] + sorted
    else [sorted[0]] + Inserted(sorted[1..], x)
  }

  lemma {:induction false} InsertedAddsOne(sorted: seq<Session>, x: Session)
    ensures multiset(Inserted(sorted, x)) == multiset(sorted) + multiset{x}
  {
    if !(sorted == [] || SortsBefore(x, sorted[0])) {
      InsertedAddsOne(sorted[1..], x);
      assert sorted == [sorted[0]] + sorted[1..];
    }
  }

  lemma {:induction false} InsertedSorted(sorted: seq<Session>, x: Session)
    requires Sorted(sorted)
    ensures Sorted(Inserted(sorted, x))
  {
    if !(sorted == [] || SortsBefore(x, sorted[0])) {
      var rest := Inserted(sorted[1..], x);
      InsertedSorted(sorted[1..], x);
      InsertedAddsOne(sorted[1..], x);
      forall k | 0 <= k < |rest| ensures SortsBefore(sorted[0], rest[k]) {
        assert rest[k] in multiset(rest);
        assert rest[k] in multiset(sorted[1..]) || rest[k] == x;
        if rest[k] in multiset(sorted[1..]) {
          var j :| 0 <= j < |sorted[1..]| && sorted[1..][j] == rest[k];
        }
      }
    }
  }

  /** `sorted(..., key=(started_at, session_id))`. */
  function SortedByStart(sessions: seq<Session>): seq<Session> {
    if sessions == [] then []
    else Inserted(SortedByStart(sessions[..|sessions| - 1]), sessions[|sessions| - 1])
  }

  lemma {:induction false} SortIsSorted(sessions: seq<Session>)
    ensures Sorted(SortedByStart(sessions)) && multiset(SortedByStart(sessions)) == multiset(sessions)
  {
    if sessions != [] {
      var n := |sessions| - 1;
      SortIsSorted(sessions[..n]);
      InsertedSorted(SortedByStart(sessions[..n]), sessions[n]);
      InsertedAddsOne(SortedByStart(sessions[..n]), sessions[n]);
      assert sessions == sessions[..n] + [sessions[n]];
    }
  }

  lemma SameMembers(s: seq<Session>, t: seq<Session>)
    requires multiset(s) == multiset(t)
    ensures forall x :: x in s <==> x in t
  {
    forall x ensures x in s <==> x in t {
      assert x in s <==> x in multiset(s);
      assert x in t <==> x in multiset(t);
    }
  }

  lemma SameDistinct(s: seq<Session>, t: seq<Session>)
    requires multiset(s) == multiset(t) && DistinctIds(s)
    ensures DistinctIds(t)
  {
    forall i, j | 0 <= i < j < |t| ensures t[i].id != t[j].id {
      SameMembers(s, t);
      if t[i].id == t[j].id {
        assert t[i] in s && t[j] in s;
        assert t[i] == t[j];
        assert t == t[..i] + [t[i]] + t[i + 1..j] + [t[j]] + t[j + 1..];
        assert multiset(t)[t[i]] >= 2;
        OnceOnly(s, t[i]);
      }
    }
  }

  lemma {:induction false} OnceOnly(s: seq<Session>, x: Session)
    requires DistinctIds(s)
    ensures multiset(s)[x] <= 1
  {
    if s != [] {
      var n := |s| - 1;
      assert s == s[..n] + [s[n]];
      OnceOnly(s[..n], x);
      assert x in multiset(s[..n]) ==> x in s[..n];
    }
  }

  // ---------------------------------------------------------------- marks, stack and order

  function Mark(marks: map<nat, nat>, id: nat): nat {
    if id in marks then marks[id] else 0
  }

  /** Exactly the sessions on the stack are under visit. */
  ghost predicate MarksOk(byId: map<nat, Session>, marks: map<nat, nat>, stack: seq<nat>) {
    && (forall id :: id in stack <==> Mark(marks, id) == 1)
    && (forall id :: id in marks ==> id in byId && marks[id] <= 2)
  }

  /** Each session on the stack is a fork of the next one. */
  ghost predicate ChainOk(byId: map<nat, Session>, stack: seq<nat>) {
    forall k :: 0 <= k < |stack| - 1 ==> stack[k] in byId && ParentOf(byId, stack[k]) == Some(stack[k + 1])
  }

  /** The finished sessions are placed, each once, parents first. */
  ghost predicate OrderOk(byId: map<nat, Session>, marks: map<nat, nat>, ordered: seq<Session>) {
    && (forall k :: 0 <= k < |ordered| ==> ordered[k].id in byId && byId[ordered[k].id] == ordered[k] && Mark(marks, ordered[k].id) == 2)
    && (forall id :: id in byId && Mark(marks, id) == 2 ==> byId[id] in ordered)
    && DistinctIds(ordered)
    && ParentsFirst(byId, ordered)
  }

  lemma MarksPush(byId: map<nat, Session>, marks: map<nat, nat>, stack: seq<nat>, id: nat)
    requires MarksOk(byId, marks, stack) && Mark(marks, id) == 0 && id in byId
    ensures MarksOk(byId, marks[id := 1], stack + [id])
  {
    forall x ensures x in stack + [id] <==> Mark(marks[id := 1], x) == 1 {
      assert x in stack + [id] <==> x in stack || x == id;
    }
  }

  lemma MarksPop(byId: map<nat, Session>, marks: map<nat, nat>, stack: seq<nat>, id: nat)
    requires MarksOk(byId, marks, stack + [id]) && id !in stack && id in byId
    ensures MarksOk(byId, marks[id := 2], stack)
  {
    forall x ensures x in stack <==> Mark(marks[id := 2], x) == 1 {
      assert x in stack + [id] <==> x in stack || x == id;
    }
  }

  lemma OrderUnder(byId: map<nat, Session>, marks: map<nat, nat>, ordered: seq<Session>, id: nat)
    requires OrderOk(byId, marks, ordered) && Mark(marks, id) != 2
    ensures OrderOk(byId, marks[id := 1], ordered)
  {
  }

  lemma OrderPlaces(byId: map<nat, Session>, marks: map<nat, nat>, ordered: seq<Session>, session: Session)
    requires OrderOk(byId, marks, ordered) && Mark(marks, session.id) != 2
    requires session.id in byId && byId[session.id] == session
    requires forall id :: id in byId ==> byId[id].id == id
    requires ParentOf(byId, session.id).Some? ==> Mark(marks, ParentOf(byId, session.id).value) == 2
    ensures OrderOk(byId, marks[session.id := 2], ordered + [session])
  {
    var after := ordered + [session];
    if ParentOf(byId, session.id).Some? {
      var j :| 0 <= j < |ordered| && ordered[j] == byId[ParentOf(byId, session.id).value];
      assert after[j].id == ParentOf(byId, session.id).value;
    }
    forall k | 0 <= k < |ordered| && ParentOf(byId, after[k].id).Some?
      ensures exists j :: 0 <= j < k && after[j].id == ParentOf(byId, after[k].id).value
    {
      var j :| 0 <= j < k && ordered[j].id == ParentOf(byId, ordered[k].id).value;
      assert after[j] == ordered[j];
    }
    forall id | id in byId && Mark(marks[session.id := 2], id) == 2 ensures byId[id] in after {
    }
  }

  lemma {:induction false} Climb(byId: map<nat, Session>, stack: seq<nat>, k: nat, steps: nat)
    requires ChainOk(byId, stack) && k + steps < |stack| && stack[k] in byId
    ensures Ancestor(byId, stack[k], steps) == Some(stack[k + steps])
    decreases steps
  {
    if steps > 0 {
      Climb(byId, stack, k, steps - 1);
    }
  }

  /** A session that is its own fork's fork closes a cycle. */
  lemma CycleFound(byId: map<nat, Session>, stack: seq<nat>, id: nat)
    requires ChainOk(byId, stack) && id in stack && id in byId
    requires stack[|stack| - 1] in byId && ParentOf(byId, stack[|stack| - 1]) == Some(id)
    ensures Cyclic(byId)
  {
    var k :| 0 <= k < |stack| && stack[k] == id;
    Climb(byId, stack, k, |stack| - 1 - k);
    assert Ancestor(byId, id, |stack| - k) == Some(id);
  }

  // ---------------------------------------------------------------- the depth-first walk

  /** What the closure `visit` shares: marks, and the order produced so far. */
  class LineageWalk {
    const byId: map<nat, Session>
    var visitState: map<nat, nat>
    var ordered: seq<Session>

    constructor (byId: map<nat, Session>)
      requires forall id :: id in byId ==> byId[id].id == id
      ensures this.byId == byId && Valid([]) && ordered == [] && visitState == map[]
    {
      this.byId := byId;
      visitState, ordered := map[], [];
    }

    ghost predicate Valid(stack: seq<nat>)
      reads this
    {
      && (forall id :: id in byId ==> byId[id].id == id)
      && MarksOk(byId, visitState, stack) && ChainOk(byId, stack) && OrderOk(byId, visitState, ordered)
    }

    ghost function Unvisited(): set<nat>
      reads this
    {
      set id | id in byId && Mark(visitState, id) == 0
    }

    /** `visit`: raises only when the stack closes a cycle; otherwise the session is placed, after its parent. */
    method Visit(session: Session, ghost stack: seq<nat>) returns (r: Result<()>)
      requires Valid(stack) && session.id in byId && byId[session.id] == session
      requires stack != [] ==> stack[|stack| - 1] in byId && ParentOf(byId, stack[|stack| - 1]) == Some(session.id)
      modifies this
      decreases Unvisited()
      ensures r.Raised? ==> Cyclic(byId)
      ensures r.Ok? ==> Valid(stack) && Mark(visitState, session.id) == 2
      ensures r.Ok? ==> forall id :: Mark(old(visitState), id) != 0 ==> Mark(visitState, id) == Mark(old(visitState), id)
      ensures r.Ok? && ReadyToPlace(byId, old(visitState), session.id) ==> ordered == old(ordered) + [session]
      ensures r.Ok? && Mark(old(visitState), session.id) == 2 ==> ordered == old(ordered) && visitState == old(visitState)
    {
      hide MarksOk, ChainOk, OrderOk, Cyclic;
      ghost var (marks, id) := (visitState, session.id);
      StackMarks(byId, marks, stack, id);
      var state := Mark(visitState, session.id);
      if state == 1 {
        CycleFound(byId, stack, id);
        return Raised(InvalidValue);
      }
      if state == 2 {
        return Ok(());
      }
      MarksPush(byId, marks, stack, id);
      ChainPush(byId, stack, id);
      OrderUnder(byId, marks, ordered, id);
      visitState := visitState[session.id := 1];
      assert id in old(Unvisited()) && id !in Unvisited();
      assert Unvisited() < old(Unvisited());
      ghost var pushed := visitState;
      if session.parent.Some? && session.parent.value in byId {
        var parent := Visit(byId[session.parent.value], stack + [session.id]);
        if parent.Raised? {
          return parent;
        }
      }
      ghost var returned := visitState;
      forall x | Mark(marks, x) != 0 ensures Mark(returned[session.id := 2], x) == Mark(marks, x) {
        assert Mark(pushed, x) == Mark(marks, x);
        assert Mark(returned, x) == Mark(pushed, x);
      }
      ChainPop(byId, stack, id);
      MarksPop(byId, visitState, stack, id);
      OrderPlaces(byId, visitState, ordered, session);
      visitState := visitState[session.id := 2];
      ordered := ordered + [session];
      return Ok(());
    }
  }

  /** Not seen yet, and its parent, if given, placed already. */
  ghost predicate ReadyToPlace(byId: map<nat, Session>, marks: map<nat, nat>, id: nat) {
    id in byId && Mark(marks, id) == 0 && (ParentOf(byId, id).Some? ==> Mark(marks, ParentOf(byId, id).value) == 2)
  }

  lemma StackMarks(byId: map<nat, Session>, marks: map<nat, nat>, stack: seq<nat>, id: nat)
    requires MarksOk(byId, marks, stack)
    ensures id in stack <==> Mark(marks, id) == 1
    ensures Mark(marks, id) <= 2
  {
  }

  lemma ChainPush(byId: map<nat, Session>, stack: seq<nat>, id: nat)
    requires ChainOk(byId, stack)
    requires stack != [] ==> stack[|stack| - 1] in byId && ParentOf(byId, stack[|stack| - 1]) == Some(id)
    ensures ChainOk(byId, stack + [id])
  {
  }

  lemma ChainPop(byId: map<nat, Session>, stack: seq<nat>, id: nat)
    requires ChainOk(byId, stack + [id])
    ensures ChainOk(byId, stack)
  {
    assert forall k | 0 <= k < |stack| :: (stack + [id])[k] == stack[k];
  }

  // ---------------------------------------------------------------- read_lineage

  method IndexById(sessions: seq<Session>) returns (r: Result<map<nat, Session>>)
    ensures r.Ok? <==> DistinctIds(sessions)
    ensures r.Ok? ==> Indexes(r.value, sessions)
  {
    var byId: map<nat, Session> := map[];
    for k := 0 to |sessions|
      invariant DistinctIds(sessions[..k]) && Indexes(byId, sessions[..k])
    {
      if sessions[k].id in byId {
        var j :| 0 <= j < k && sessions[j] == byId[sessions[k].id];
        assert sessions[j].id == sessions[k].id;
        return Raised(InvalidValue);
      }
      byId := byId[sessions[k].id := sessions[k]];
      assert forall x :: x in sessions[..k + 1] <==> x in sessions[..k] || x == sessions[k];
    }
    assert sessions[..|sessions|] == sessions;
    return Ok(byId);
  }

  /** Every given parent sorts strictly before its forks. */
  ghost predicate StartsAgree(byId: map<nat, Session>) {
    forall id :: id in byId && ParentOf(byId, id).Some? ==>
      SortsBefore(byId[ParentOf(byId, id).value], byId[id]) && ParentOf(byId, id).value != id
  }

  /**
    The walk succeeds exactly when no session is its own ancestor; it then orders all sessions,
    each once, parents first, and as sorted whenever that already has parents first.
  */
  method OrderLineage(byId: map<nat, Session>, sessions: seq<Session>) returns (r: Result<seq<Session>>)
    requires DistinctIds(sessions) && Indexes(byId, sessions)
    ensures r.Ok? <==> !Cyclic(byId)
    ensures r.Ok? ==> multiset(r.value) == multiset(sessions) && ParentsFirst(byId, r.value)
    ensures r.Ok? && StartsAgree(byId) ==> r.value == SortedByStart(sessions)
  {
    hide MarksOk, ChainOk, Cyclic, SortedByStart, ParentsFirst;
    var roots := SortedByStart(sessions);
    SortIsSorted(sessions);
    SameMembers(roots, sessions);
    SameDistinct(sessions, roots);
    hide OrderOk, Sorted, DistinctIds, StartsAgree;
    var walk := new LineageWalk(byId);
    for k := 0 to |roots|
      invariant fresh(walk) && walk.byId == byId && walk.Valid([])
      invariant forall j :: 0 <= j < k ==> Mark(walk.visitState, roots[j].id) == 2
      invariant StartsAgree(byId) ==> walk.ordered == roots[..k]
    {
      assert roots[k] in sessions;
      if StartsAgree(byId) {
        ReadyInOrder(byId, walk.visitState, roots, k);
      }
      assert roots[..k + 1] == roots[..k] + [roots[k]];
      var visited := walk.Visit(roots[k], []);
      if visited.Raised? {
        return Raised(visited.reason);
      }
    }
    AllPlaced(byId, walk.visitState, walk.ordered, roots, sessions);
    OrderedMeansAcyclic(byId, walk.ordered);
    assert roots[..|roots|] == roots;
    return Ok(walk.ordered);
  }

  lemma ReadyInOrder(byId: map<nat, Session>, marks: map<nat, nat>, roots: seq<Session>, k: nat)
    requires k < |roots| && StartsAgree(byId) && OrderOk(byId, marks, roots[..k]) && MarksOk(byId, marks, [])
    requires DistinctIds(roots) && Sorted(roots) && Indexes(byId, roots)
    ensures ReadyToPlace(byId, marks, roots[k].id)
  {
    var id := roots[k].id;
    assert roots[k] in roots;
    assert forall j | 0 <= j < k :: roots[..k][j].id != id;
    StackMarks(byId, marks, [], id);
    assert roots[k] !in roots[..k];
    if ParentOf(byId, id).Some? {
      var parent := byId[ParentOf(byId, id).value];
      var j :| 0 <= j < |roots| && roots[j] == parent;
      assert forall m | k < m < |roots| :: SortsBefore(roots[k], roots[m]);
      assert j < k;
      assert roots[..k][j] == roots[j];
    }
  }

  lemma AllPlaced(byId: map<nat, Session>, marks: map<nat, nat>, ordered: seq<Session>, roots: seq<Session>, sessions: seq<Session>)
    requires OrderOk(byId, marks, ordered) && Indexes(byId, sessions) && DistinctIds(sessions)
    requires forall x :: x in roots <==> x in sessions
    requires forall j :: 0 <= j < |roots| ==> Mark(marks, roots[j].id) == 2
    ensures multiset(ordered) == multiset(sessions) && ParentsFirst(byId, ordered) && DistinctIds(ordered)
    ensures forall id :: id in byId ==> exists k :: 0 <= k < |ordered| && ordered[k].id == id
  {
    forall s ensures s in sessions <==> s in ordered {
      if s in sessions {
        var j :| 0 <= j < |roots| && roots[j] == s;
      }
    }
    DistinctSameMembers(ordered, sessions);
    forall id | id in byId ensures exists k :: 0 <= k < |ordered| && ordered[k].id == id {
      assert byId[id] in sessions;
      var k :| 0 <= k < |ordered| && ordered[k] == byId[id];
    }
  }

  lemma DistinctSameMembers(s: seq<Session>, t: seq<Session>)
    requires DistinctIds(s) && DistinctIds(t) && forall x :: x in s <==> x in t
    ensures multiset(s) == multiset(t)
  {
    forall x ensures multiset(s)[x] == multiset(t)[x] {
      OnceOnly(s, x);
      OnceOnly(t, x);
      assert x in s <==> x in multiset(s);
      assert x in t <==> x in multiset(t);
    }
  }

  // ---------------------------------------------------------------- inherited usage

  function FinalOf(s: Session): Tokens {
    if s.events == [] then Tokens(0, 0, 0, 0, 0) else s.events[|s.events| - 1].cumulative
  }

  /** The last event before the session started. */
  function InheritedOf(events: seq<TokenEvent>, startedAt: int): Option<Tokens> {
    if events == [] then None
    else if events[|events| - 1].observedAt < startedAt then Some(events[|events| - 1].cumulative)
    else InheritedOf(events[..|events| - 1], startedAt)
  }

  function BaselineOf(s: Session): Option<Tokens> {
    if s.parent.None? then Some(Tokens(0, 0, 0, 0, 0)) else InheritedOf(s.events, s.startedAt)
  }

  predicate Dominates(a: Tokens, b: Tokens) {
    && a.input >= b.input && a.cachedInput >= b.cachedInput && a.output >= b.output
    && a.reasoning >= b.reasoning && a.total >= b.total
  }

  function Plus(a: Tokens, b: Tokens): Tokens {
    Tokens(a.input + b.input, a.cachedInput + b.cachedInput, a.output + b.output, a.reasoning + b.reasoning, a.total + b.total)
  }

  /** `_subtract`: unknown exactly when there is no baseline or some dimension fell below it. */
  function Subtract(final: Tokens, baseline: Option<Tokens>): (r: Option<Tokens>)
    ensures r.Some? <==> baseline.Some? && Dominates(final, baseline.value)
    ensures r.Some? ==> Plus(baseline.value, r.value) == final
  {
    if baseline.None? then None
    else
      var b := baseline.value;
      if final.input < b.input || final.cachedInput < b.cachedInput || final.output < b.output
         || final.reasoning < b.reasoning || final.total < b.total then None
      else Some(Tokens(final.input - b.input, final.cachedInput - b.cachedInput, final.output - b.output,
                       final.reasoning - b.reasoning, final.total - b.total))
  }

  function IncrementOf(s: Session): Option<nat> {
    var increment := Subtract(FinalOf(s), BaselineOf(s));
    if increment.Some? then Some(increment.value.total) else None
  }

  function NaiveTotal(sessions: seq<Session>): nat {
    if sessions == [] then 0
    else NaiveTotal(sessions[..|sessions| - 1]) + FinalOf(sessions[|sessions| - 1]).total
  }

  function InheritedTotal(sessions: seq<Session>): nat {
    if sessions == [] then 0
    else
      var s := sessions[|sessions| - 1];
      InheritedTotal(sessions[..|sessions| - 1]) + if BaselineOf(s).Some? then BaselineOf(s).value.total else 0
  }

  ghost function ById(sessions: seq<Session>): map<nat, Session>
    requires DistinctIds(sessions)
  {
    map s | s in sessions :: s.id := s
  }

  /** Whoever forked from a given session comes after it. */
  ghost predicate ParentsBefore(sessions: seq<Session>, ordered: seq<Session>) {
    forall k, p :: 0 <= k < |ordered| && ordered[k].parent == Some(p) && Given(sessions, p) ==>
      exists j :: 0 <= j < k && ordered[j].id == p
  }

  ghost predicate Given(sessions: seq<Session>, id: nat) {
    exists k :: 0 <= k < |sessions| && sessions[k].id == id
  }

  /** Earlier starts first, and the ids decide between equal ones. */
  ghost predicate ByStart(ordered: seq<Session>) {
    forall i, j :: 0 <= i < j < |ordered| ==>
      ordered[i].startedAt < ordered[j].startedAt || (ordered[i].startedAt == ordered[j].startedAt && ordered[i].id < ordered[j].id)
  }

  lemma ParentsBeforeIsFirst(sessions: seq<Session>, ordered: seq<Session>)
    requires DistinctIds(sessions) && multiset(ordered) == multiset(sessions)
    ensures ParentsBefore(sessions, ordered) <==> ParentsFirst(ById(sessions), ordered)
  {
    SameMembers(ordered, sessions);
    var byId := ById(sessions);
    forall id ensures id in byId <==> Given(sessions, id) {
      if Given(sessions, id) {
        var k :| 0 <= k < |sessions| && sessions[k].id == id;
        assert sessions[k] in sessions;
      }
    }
    forall k | 0 <= k < |ordered| ensures ordered[k].id in byId && byId[ordered[k].id] == ordered[k] {
      assert ordered[k] in sessions;
    }
    hide ById, Given;
    if ParentsBefore(sessions, ordered) {
      forall k | 0 <= k < |ordered| && ordered[k].id in byId && ParentOf(byId, ordered[k].id).Some?
        ensures exists j :: 0 <= j < k && ordered[j].id == ParentOf(byId, ordered[k].id).value
      {
        var p := ParentOf(byId, ordered[k].id).value;
        assert ordered[k].parent == Some(p) && Given(sessions, p);
      }
    }
    if ParentsFirst(byId, ordered) {
      forall k, p | 0 <= k < |ordered| && ordered[k].parent == Some(p) && Given(sessions, p)
        ensures exists j :: 0 <= j < k && ordered[j].id == p
      {
        assert ParentOf(byId, ordered[k].id) == Some(p);
      }
    }
  }

  /** An order with parents before their forks refutes every cycle. */
  lemma OrderRefutesCycles(sessions: seq<Session>, ordered: seq<Session>)
    requires DistinctIds(sessions) && multiset(ordered) == multiset(sessions) && ParentsBefore(sessions, ordered)
    ensures !Cyclic(ById(sessions))
  {
    var byId := ById(sessions);
    ParentsBeforeIsFirst(sessions, ordered);
    SameDistinct(sessions, ordered);
    SameMembers(ordered, sessions);
    forall id | id in byId ensures exists k :: 0 <= k < |ordered| && ordered[k].id == id {
      assert byId[id] in ordered;
      var k :| 0 <= k < |ordered| && ordered[k] == byId[id];
    }
    OrderedMeansAcyclic(byId, ordered);
  }

  /** Event `k` is the last one before the session started. */
  ghost predicate LastBefore(s: Session, k: nat) {
    && k < |s.events| && s.events[k].observedAt < s.startedAt
    && forall j :: k < j < |s.events| ==> s.events[j].observedAt >= s.startedAt
  }

  /**
    What a session used by itself: its last count, for a fork less the last count before it
    started, and unknown for a fork without such a count or with one that was not reached again in
    every dimension.
   */
  lemma IncrementMeans(s: Session, x: nat)
    requires s.events != []
    ensures var final := s.events[|s.events| - 1].cumulative;
            IncrementOf(s) == Some(x) <==>
              if s.parent.None? then x == final.total
              else exists k: nat :: LastBefore(s, k) && x + s.events[k].cumulative.total == final.total
                     && final.input >= s.events[k].cumulative.input && final.cachedInput >= s.events[k].cumulative.cachedInput
                     && final.output >= s.events[k].cumulative.output && final.reasoning >= s.events[k].cumulative.reasoning
  {
    if s.parent.Some? {
      InheritedIsLastBefore(s.events, s.startedAt);
      if k: nat :| LastBefore(s, k) {
        assert s.events[k] in s.events;
        forall j: nat | LastBefore(s, j) ensures j == k {
        }
        var m :| 0 <= m < |s.events| && s.events[m].observedAt < s.startedAt
                 && s.events[m].cumulative == InheritedOf(s.events, s.startedAt).value
                 && forall j :: m < j < |s.events| ==> s.events[j].observedAt >= s.startedAt;
        assert LastBefore(s, m);
      }
      if InheritedOf(s.events, s.startedAt).Some? {
        var m :| 0 <= m < |s.events| && s.events[m].observedAt < s.startedAt
                 && s.events[m].cumulative == InheritedOf(s.events, s.startedAt).value
                 && forall j :: m < j < |s.events| ==> s.events[j].observedAt >= s.startedAt;
        assert LastBefore(s, m);
      }
    }
  }

  /** The last counts, added up. */
  ghost function LastCounts(sessions: seq<Session>): nat {
    if sessions == [] then 0
    else
      var s := sessions[|sessions| - 1];
      LastCounts(sessions[..|sessions| - 1]) + if s.events == [] then 0 else s.events[|s.events| - 1].cumulative.total
  }

  lemma {:induction false} NaiveIsLastCounts(sessions: seq<Session>)
    ensures NaiveTotal(sessions) == LastCounts(sessions)
  {
    if sessions != [] {
      NaiveIsLastCounts(sessions[..|sessions| - 1]);
    }
  }

  /** What the sessions used by themselves, added up. */
  ghost function Increments(sessions: seq<Session>): nat
    requires forall s :: s in sessions ==> IncrementOf(s).Some?
  {
    if sessions == [] then 0
    else Increments(sessions[..|sessions| - 1]) + IncrementOf(sessions[|sessions| - 1]).value
  }

  lemma {:induction false} IncrementsComplete(sessions: seq<Session>)
    requires forall s :: s in sessions ==> IncrementOf(s).Some?
    ensures Increments(sessions) + InheritedTotal(sessions) == NaiveTotal(sessions)
  {
    hide IncrementOf, BaselineOf, FinalOf;
    if sessions != [] {
      IncrementsComplete(sessions[..|sessions| - 1]);
      IncrementCompletes(sessions[|sessions| - 1]);
    }
  }

  datatype LineageUsage = LineageUsage(ordered: seq<Session>, naiveTotal: nat, incrementalTotal: Option<nat>)

  /**
    `read_lineage`: succeeds exactly for distinct ids that can be ordered with every parent before
    its forks, and orders them so, by their starts when those agree; the naive total adds up the
    last counts, the corrected one is known exactly when every session's increment is, and adds up
    these.
  */
  method ReadLineage(sessions: seq<Session>) returns (r: Result<LineageUsage>)
    ensures r.Ok? <==> DistinctIds(sessions) && !Cyclic(ById(sessions))
    ensures r.Ok? <==> DistinctIds(sessions) && exists ordered :: multiset(ordered) == multiset(sessions) && ParentsBefore(sessions, ordered)
    ensures r.Ok? ==> multiset(r.value.ordered) == multiset(sessions)
    ensures r.Ok? ==> ParentsBefore(sessions, r.value.ordered)
    ensures r.Ok? ==> forall ordered :: multiset(ordered) == multiset(sessions) && ParentsBefore(sessions, ordered) && ByStart(ordered) ==>
                        r.value.ordered == ordered
    ensures r.Ok? ==> r.value.naiveTotal == NaiveTotal(r.value.ordered) == LastCounts(r.value.ordered)
    ensures r.Ok? && r.value.incrementalTotal.Some? ==>
              (forall s :: s in r.value.ordered ==> IncrementOf(s).Some?) && r.value.incrementalTotal.value == Increments(r.value.ordered)
    ensures r.Ok? ==> (r.value.incrementalTotal.Some? <==> forall s :: s in sessions ==> IncrementOf(s).Some?)
    ensures r.Ok? && r.value.incrementalTotal.Some? ==>
              r.value.incrementalTotal.value + InheritedTotal(r.value.ordered) == r.value.naiveTotal
  {
    var indexed := IndexById(sessions);
    if indexed.Raised? {
      return Raised(indexed.reason);
    }
    IndexIsTheMap(indexed.value, sessions);
    forall ordered | multiset(ordered) == multiset(sessions) && ParentsBefore(sessions, ordered) ensures !Cyclic(ById(sessions)) {
      OrderRefutesCycles(sessions, ordered);
    }
    hide Cyclic, ParentsBefore, ParentsFirst, ByStart, StartsAgree, SortedByStart, NaiveTotal, LastCounts, InheritedTotal, Increments, IncrementOf;
    var order := OrderLineage(indexed.value, sessions);
    if order.Raised? {
      return Raised(order.reason);
    }
    var naive, corrected := Totals(order.value);
    SameMembers(order.value, sessions);
    ParentsBeforeIsFirst(sessions, order.value);
    NaiveIsLastCounts(order.value);
    if corrected.Some? {
      IncrementsComplete(order.value);
    }
    forall ordered | multiset(ordered) == multiset(sessions) && ParentsBefore(sessions, ordered) && ByStart(ordered)
      ensures order.value == ordered
    {
      StartsAgreeWith(sessions, ordered);
    }
    return Ok(LineageUsage(order.value, naive, corrected));
  }

  /** An order by starts with the parents first is the sorted one, and the starts agree with the lineage. */
  lemma StartsAgreeWith(sessions: seq<Session>, ordered: seq<Session>)
    requires DistinctIds(sessions) && multiset(ordered) == multiset(sessions)
    requires ParentsBefore(sessions, ordered) && ByStart(ordered)
    ensures StartsAgree(ById(sessions)) && SortedByStart(sessions) == ordered
  {
    ParentsBeforeIsFirst(sessions, ordered);
    SameMembers(ordered, sessions);
    SortIsSorted(sessions);
    hide ParentsBefore, SortedByStart, Sorted;
    StartsAgreeIn(ById(sessions), ordered);
    SortedUnique(SortedByStart(sessions), ordered);
  }

  lemma StartsAgreeIn(byId: map<nat, Session>, ordered: seq<Session>)
    requires ParentsFirst(byId, ordered) && ByStart(ordered)
    requires forall s :: s in ordered <==> s.id in byId && byId[s.id] == s
    requires forall id :: id in byId ==> byId[id].id == id
    ensures StartsAgree(byId)
  {
    forall id | id in byId && ParentOf(byId, id).Some?
      ensures SortsBefore(byId[ParentOf(byId, id).value], byId[id]) && ParentOf(byId, id).value != id
    {
      assert byId[id] in ordered;
      var k :| 0 <= k < |ordered| && ordered[k] == byId[id];
      var j :| 0 <= j < k && ordered[j].id == ParentOf(byId, id).value;
      assert ordered[j] in ordered;
    }
  }

  lemma HeadsAgree(s: seq<Session>, t: seq<Session>)
    requires Sorted(s) && ByStart(t) && s != [] && t != [] && s[0] in t && t[0] in s
    ensures s[0] == t[0]
  {
    var k :| 0 <= k < |t| && t[k] == s[0];
    var j :| 0 <= j < |s| && s[j] == t[0];
    if j > 0 {
      assert SortsBefore(s[0], s[j]);
    }
  }

  lemma TailsAgree(s: seq<Session>, t: seq<Session>)
    requires s != [] && t != [] && s[0] == t[0] && multiset(s) == multiset(t)
    ensures multiset(s[1..]) == multiset(t[1..])
  {
    assert s == [s[0]] + s[1..] && t == [t[0]] + t[1..];
    assert multiset(s[1..]) == multiset(s) - multiset{s[0]};
    assert multiset(t[1..]) == multiset(t) - multiset{t[0]};
  }

  lemma TailsSorted(s: seq<Session>, t: seq<Session>)
    requires Sorted(s) && ByStart(t) && s != [] && t != []
    ensures Sorted(s[1..]) && ByStart(t[1..])
  {
    hide SortsBefore;
  }

  lemma {:induction false} SortedUnique(s: seq<Session>, t: seq<Session>)
    requires Sorted(s) && ByStart(t) && multiset(s) == multiset(t)
    ensures s == t
    decreases |s|
  {
    hide Sorted, ByStart;
    assert |s| == |multiset(s)| && |multiset(t)| == |t|;
    if s != [] {
      SameMembers(s, t);
      assert s[0] in s && t[0] in t;
      HeadsAgree(s, t);
      TailsSorted(s, t);
      TailsAgree(s, t);
      SortedUnique(s[1..], t[1..]);
      assert s == [s[0]] + s[1..] && t == [t[0]] + t[1..];
    }
  }

  lemma IndexIsTheMap(byId: map<nat, Session>, sessions: seq<Session>)
    requires Indexes(byId, sessions) && DistinctIds(sessions)
    ensures byId == ById(sessions)
  {
    var direct := ById(sessions);
    forall id ensures id in byId <==> id in direct {
      if id in byId {
        assert byId[id] in sessions;
      }
    }
  }

  predicate AllKnown(sessions: seq<Session>) {
    sessions == [] || (AllKnown(sessions[..|sessions| - 1]) && IncrementOf(sessions[|sessions| - 1]).Some?)
  }

  lemma {:induction false} AllKnownMeans(sessions: seq<Session>)
    ensures AllKnown(sessions) <==> forall s :: s in sessions ==> IncrementOf(s).Some?
  {
    hide IncrementOf;
    if sessions != [] {
      AllKnownMeans(sessions[..|sessions| - 1]);
      assert forall s :: s in sessions <==> s in sessions[..|sessions| - 1] || s == sessions[|sessions| - 1];
    }
  }

  lemma IncrementCompletes(s: Session)
    requires IncrementOf(s).Some?
    ensures BaselineOf(s).Some? && IncrementOf(s).value + BaselineOf(s).value.total == FinalOf(s).total
  {
  }

  method Totals(ordered: seq<Session>) returns (naive: nat, corrected: Option<nat>)
    ensures naive == NaiveTotal(ordered)
    ensures corrected.Some? <==> forall s :: s in ordered ==> IncrementOf(s).Some?
    ensures corrected.Some? ==> corrected.value + InheritedTotal(ordered) == naive
  {
    hide IncrementOf, BaselineOf, FinalOf;
    naive := 0;
    var sum: nat := 0;
    var known := true;
    for k := 0 to |ordered|
      invariant naive == NaiveTotal(ordered[..k])
      invariant known == AllKnown(ordered[..k])
      invariant known ==> sum + InheritedTotal(ordered[..k]) == naive
    {
      assert ordered[..k + 1][..k] == ordered[..k];
      naive := naive + FinalOf(ordered[k]).total;
      var increment := IncrementOf(ordered[k]);
      if increment.Some? {
        IncrementCompletes(ordered[k]);
        sum := sum + increment.value;
      } else {
        known := false;
      }
    }
    assert ordered[..|ordered|] == ordered;
    AllKnownMeans(ordered);
    corrected := if known then Some(sum) else None;
  }

  /** What a fork inherited is the cumulative count of its last event before it started. */
  lemma {:induction false} InheritedIsLastBefore(events: seq<TokenEvent>, startedAt: int)
    ensures InheritedOf(events, startedAt).None? <==> forall e :: e in events ==> e.observedAt >= startedAt
    ensures InheritedOf(events, startedAt).Some? ==>
              exists k :: 0 <= k < |events| && events[k].observedAt < startedAt
                && events[k].cumulative == InheritedOf(events, startedAt).value
                && forall j :: k < j < |events| ==> events[j].observedAt >= startedAt
  {
    if events != [] {
      var n := |events| - 1;
      InheritedIsLastBefore(events[..n], startedAt);
      assert forall e :: e in events <==> e in events[..n] || e == events[n];
      if events[n].observedAt >= startedAt && InheritedOf(events[..n], startedAt).Some? {
        var k :| 0 <= k < n && events[..n][k].observedAt < startedAt
          && events[..n][k].cumulative == InheritedOf(events[..n], startedAt).value
          && forall j :: k < j < n ==> events[..n][j].observedAt >= startedAt;
        forall j | k < j < |events| ensures events[j].observedAt >= startedAt {
          if j < n {
            assert events[..n][j].observedAt >= startedAt;
          }
        }
      }
    }
  }
}
