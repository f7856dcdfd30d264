/**
  The report spool of src/agent_session_harness/guardian_bake_spool.py: runs of equal reports
  share one record, and only delivered records make room for new ones.
 */
module BakeSpool {
  import opened Options

  datatype Report = Report(key: string, body: string)

  datatype Record = Record(id: nat, report: Report, firstSeenAt: int, lastSeenAt: int, repeatCount: nat, deliveredAt: Option<int>)

  function Repeated(key: string, count: nat): seq<string> {
    seq(count, _ => key)
  }

  /** The keys the records stand for, each as often as it was reported. */
  function Expand(records: seq<Record>): seq<string> {
    if records == [] then []
    else
      var r := records[|records| - 1];
      Expand(records[..|records| - 1]) + Repeated(r.report.key, r.repeatCount)
  }

  function Reports(records: seq<Record>): nat {
    if records == [] then 0 else Reports(records[..|records| - 1]) + records[|records| - 1].repeatCount
  }

  /** The records whose id is not in `evicted`, in order. */
  function Retained(records: seq<Record>, evicted: set<nat>): seq<Record> {
    if records == [] then []
    else
      var r := records[|records| - 1];
      Retained(records[..|records| - 1], evicted) + if r.id in evicted then [] else [r]
  }

  function Evicted(records: seq<Record>, evicted: set<nat>): seq<Record> {
    if records == [] then []
    else
      var r := records[|records| - 1];
      Evicted(records[..|records| - 1], evicted) + if r.id in evicted then [r] else []
  }

  ghost predicate UniqueIds(records: seq<Record>) {
    forall i, j :: 0 <= i < j < |records| ==> records[i].id != records[j].id
  }

  lemma {:induction false} ExpandLength(records: seq<Record>)
    ensures |Expand(records)| == Reports(records)
  {
    if records != [] {
      ExpandLength(records[..|records| - 1]);
    }
  }

  /** What is kept and what was evicted account for everything. */
  lemma {:induction false} ReportsSplit(records: seq<Record>, evicted: set<nat>)
    ensures Reports(Retained(records, evicted)) + Reports(Evicted(records, evicted)) == Reports(records)
  {
    if records != [] {
      var n := |records| - 1;
      ReportsSplit(records[..n], evicted);
      var (kept, gone) := (Retained(records[..n], evicted), Evicted(records[..n], evicted));
      if records[n].id in evicted {
        assert kept + [] == kept;
        ReportsPush(gone, records[n]);
      } else {
        assert gone + [] == gone;
        ReportsPush(kept, records[n]);
      }
    }
  }

  lemma ReportsPush(records: seq<Record>, r: Record)
    ensures Reports(records + [r]) == Reports(records) + r.repeatCount
  {
    assert (records + [r])[..|records|] == records;
  }

  lemma {:induction false} RetainedMembers(records: seq<Record>, evicted: set<nat>)
    ensures forall r :: r in Retained(records, evicted) <==> r in records && r.id !in evicted
  {
    if records != [] {
      var n := |records| - 1;
      RetainedMembers(records[..n], evicted);
      assert forall r :: r in records <==> r in records[..n] || r == records[n];
    }
  }

  lemma {:induction false} EvictedMembers(records: seq<Record>, evicted: set<nat>)
    ensures forall r :: r in Evicted(records, evicted) <==> r in records && r.id in evicted
  {
    if records != [] {
      var n := |records| - 1;
      EvictedMembers(records[..n], evicted);
      assert forall r :: r in records <==> r in records[..n] || r == records[n];
    }
  }

  lemma {:induction false} RetainedUnique(records: seq<Record>, evicted: set<nat>)
    requires UniqueIds(records)
    ensures UniqueIds(Retained(records, evicted))
  {
    if records != [] {
      var n := |records| - 1;
      RetainedUnique(records[..n], evicted);
      RetainedMembers(records[..n], evicted);
      var kept := Retained(records[..n], evicted);
      forall k | 0 <= k < |kept| ensures kept[k].id != records[n].id {
        assert kept[k] in kept;
        var j :| 0 <= j < n && records[..n][j] == kept[k];
        assert records[j].id != records[n].id;
      }
    }
  }

  /** Deleting one kept record is evicting its id. */
  lemma {:induction false} EvictOne(records: seq<Record>, evicted: set<nat>, k: nat)
    requires UniqueIds(records) && k < |Retained(records, evicted)|
    ensures var kept := Retained(records, evicted);
            kept[..k] + kept[k + 1..] == Retained(records, evicted + {kept[k].id})
  {
    var n := |records| - 1;
    var kept := Retained(records, evicted);
    var before := Retained(records[..n], evicted);
    RetainedMembers(records[..n], evicted);
    assert records[..n] == records[..n] + [];
    if k < |before| {
      EvictOne(records[..n], evicted, k);
      assert before[k] in before;
      var j :| 0 <= j < n && records[..n][j] == before[k];
      assert records[j].id != records[n].id;
      assert kept[..k] == before[..k];
      assert kept[k + 1..] == before[k + 1..] + if records[n].id in evicted then [] else [records[n]];
    } else {
      assert kept[k] == records[n] && kept[..k] + kept[k + 1..] == before;
      RetainedSame(records[..n], evicted, evicted + {records[n].id});
    }
  }

  lemma {:induction false} RetainedSame(records: seq<Record>, g: set<nat>, h: set<nat>)
    requires forall r :: r in records ==> (r.id in g <==> r.id in h)
    ensures Retained(records, g) == Retained(records, h)
  {
    if records != [] {
      RetainedSame(records[..|records| - 1], g, h);
    }
  }

  /** A record replaced under its id is replaced among the kept ones. */
  function Replaced(records: seq<Record>, id: nat, other: Record): seq<Record> {
    seq(|records|, k requires 0 <= k < |records| => if records[k].id == id then other else records[k])
  }

  lemma {:induction false} RetainedReplaced(records: seq<Record>, evicted: set<nat>, id: nat, other: Record)
    requires other.id == id
    ensures Retained(Replaced(records, id, other), evicted) == Replaced(Retained(records, evicted), id, other)
  {
    if records != [] {
      var n := |records| - 1;
      RetainedReplaced(records[..n], evicted, id, other);
      assert Replaced(records, id, other)[..n] == Replaced(records[..n], id, other);
    }
  }

  /** Marking a record delivered changes no key and no count. */
  lemma {:induction false} DeliveredExpandsSame(records: seq<Record>, id: nat, other: Record)
    requires forall r :: r in records && r.id == id ==> other.report == r.report && other.repeatCount == r.repeatCount
    ensures Expand(Replaced(records, id, other)) == Expand(records)
  {
    if records != [] {
      var n := |records| - 1;
      DeliveredExpandsSame(records[..n], id, other);
      assert Replaced(records, id, other)[..n] == Replaced(records[..n], id, other);
      assert records[n] in records;
    }
  }

  ghost predicate LastKept(ever: seq<Record>, evicted: set<nat>) {
    ever != [] ==> ever[|ever| - 1].id !in evicted
  }

  /** Without the first delivered record, if any. */
  function WithoutOldest(records: seq<Record>): seq<Record> {
    if records == [] then []
    else if records[0].deliveredAt.Some? then records[1..]
    else [records[0]] + WithoutOldest(records[1..])
  }

  /** What an append makes of the records before it adds its own. */
  function Roomy(records: seq<Record>, maxRecords: nat): seq<Record> {
    if |records| < maxRecords then records else WithoutOldest(records)
  }

  lemma {:induction false} FirstGoes(records: seq<Record>, k: nat)
    requires k < |records| && records[k].deliveredAt.Some? && forall j :: 0 <= j < k ==> records[j].deliveredAt.None?
    ensures WithoutOldest(records) == records[..k] + records[k + 1..]
  {
    if k > 0 {
      FirstGoes(records[1..], k - 1);
      assert [records[0]] + (records[1..][..k - 1] + records[1..][k..]) == records[..k] + records[k + 1..];
    }
  }

  class GuardianBakeSpool {
    const maxBytes: nat
    const maxRecords: nat
    /** Encoded length of a document. */
    const size: seq<Record> -> nat
    /** The document on disk; [] when there is none. */
    var file: seq<Record>
    /** Every record ever created, in its latest state, and the ids of those that were evicted. */
    ghost var ever: seq<Record>
    ghost var evicted: set<nat>
    /** Keys of the accepted reports, in order. */
    ghost var accepted: seq<string>

    ghost predicate Valid()
      reads this
    {
      && maxRecords > 0
      && UniqueIds(ever)
      && file == Retained(ever, evicted)
      && LastKept(ever, evicted)
      && Expand(ever) == accepted
      && (forall r :: r in ever && r.id in evicted ==> r.deliveredAt.Some?)
      && |file| <= maxRecords
      && (file == [] || size(file) <= maxBytes)
    }

    constructor (maxBytes: nat, maxRecords: nat, size: seq<Record> -> nat)
      requires maxBytes > 0 && maxRecords > 0
      ensures Valid() && file == [] && accepted == []
    {
      this.maxBytes, this.maxRecords, this.size := maxBytes, maxRecords, size;
      file, ever, evicted, accepted := [], [], {}, [];
    }

    /** Retained and evicted counts together are the accepted reports, and only delivered evidence was evicted. */
    lemma NothingIsLost()
      requires Valid()
      ensures Reports(file) + Reports(Evicted(ever, evicted)) == |accepted|
      ensures UniqueIds(file)
      ensures forall r :: r in Evicted(ever, evicted) ==> r.deliveredAt.Some?
      ensures forall r :: r in ever && r.deliveredAt.None? ==> r in file
    {
      ExpandLength(ever);
      ReportsSplit(ever, evicted);
      RetainedUnique(ever, evicted);
      RetainedMembers(ever, evicted);
      EvictedMembers(ever, evicted);
    }

    /** The newest record, when it still waits for delivery and reports the same key. */
    predicate Compactable(report: Report)
      reads this
    {
      file != [] && file[|file| - 1].deliveredAt.None? && file[|file| - 1].report.key == report.key
    }

    method Write(records: seq<Record>) returns (r: Result<()>)
      modifies this`file
      ensures r == if size(records) <= maxBytes then Ok(()) else Raised(BoundExceeded)
      ensures file == if r.Ok? then records else old(file)
    {
      if size(records) > maxBytes {
        return Raised(BoundExceeded);
      }
      file := records;
      return Ok(());
    }

    lemma LastIsNewest()
      requires Valid()
      ensures file == [] <==> ever == []
      ensures file != [] ==> file[|file| - 1] == ever[|ever| - 1]
    {
    }

    /** What the file becomes: the newest record counts the report, or one is added, for the first delivered one of a full spool. */
    ghost predicate Follows(before: seq<Record>, report: Report, now: int, drawn: nat, after: seq<Record>) {
      var n := |before| - 1;
      if before != [] && before[n].deliveredAt == None && before[n].report.key == report.key then
        after == before[..n] + [before[n].(report := report, lastSeenAt := now, repeatCount := before[n].repeatCount + 1)]
      else if |before| < maxRecords then
        after == before + [Record(drawn, report, now, now, 1, None)]
      else
        exists k :: Oldest(before, k) && after == before[..k] + before[k + 1..] + [Record(drawn, report, now, now, 1, None)]
    }

    /** The first delivered record. */
    ghost predicate Oldest(records: seq<Record>, k: int) {
      0 <= k < |records| && records[k].deliveredAt != None && forall j :: 0 <= j < k ==> records[j].deliveredAt == None
    }

    /**
      `append`: an accepted report adds exactly its key, no undelivered record goes, and the
      spool refuses rather than evict one, and only then or when it grows too large. Of a full spool exactly one record goes, the first
      that was delivered.
    */
    method Append(report: Report, now: int, drawn: nat) returns (r: Result<Record>)
      requires Valid() && forall x :: x in ever ==> x.id != drawn
      modifies this
      ensures Valid()
      ensures r.Raised? ==> file == old(file) && accepted == old(accepted) && ever == old(ever)
      ensures r.Ok? ==> accepted == old(accepted) + [report.key] && file != [] && r.value == file[|file| - 1]
      ensures r.Ok? ==> r.value.report == report && r.value.lastSeenAt == now && r.value.deliveredAt.None?
      ensures r.Ok? && old(Compactable(report)) ==>
                && file == old(file)[|old(file)| - 1 := r.value] && evicted == old(evicted)
                && r.value.repeatCount == old(file)[|old(file)| - 1].repeatCount + 1
      ensures r.Ok? && !old(Compactable(report)) ==>
                && r.value == Record(drawn, report, now, now, 1, None)
                && file == Roomy(old(file), maxRecords) + [r.value]
                && (forall x :: x in old(file) && x.deliveredAt.None? ==> x in file)
      ensures r.Ok? <==> exists records :: Follows(old(file), report, now, drawn, records) && size(records) <= maxBytes
      ensures r.Ok? ==> Follows(old(file), report, now, drawn, file)
    {
      LastIsNewest();
      if file != [] && file[|file| - 1].deliveredAt.None? && file[|file| - 1].report.key == report.key {
        assert Follows(file, report, now, drawn, Compacted(report, now));
        r := Compact(report, now);
        return;
      }
      ghost var before := file;
      RetainedMembers(ever, evicted);
      var room, gone := MakeRoom();
      if room.Raised? {
        return Raised(room.reason);
      }
      RoomyFollows(before, report, now, drawn);
      var created := Record(drawn, report, now, now, 1, None);
      r := AppendNew(room.value, created, gone);
    }

    ghost function Compacted(report: Report, now: int): seq<Record>
      reads this
      requires file != []
    {
      var n := |file| - 1;
      file[..n] + [file[n].(report := report, lastSeenAt := now, repeatCount := file[n].repeatCount + 1)]
    }

    /** With room for it, the new record follows the records without the one that goes, and nothing else does. */
    lemma RoomyFollows(before: seq<Record>, report: Report, now: int, drawn: nat)
      requires |before| <= maxRecords && (|before| < maxRecords || exists x :: x in before && x.deliveredAt.Some?)
      requires !(before != [] && before[|before| - 1].deliveredAt == None && before[|before| - 1].report.key == report.key)
      ensures forall after :: Follows(before, report, now, drawn, after) <==>
                after == Roomy(before, maxRecords) + [Record(drawn, report, now, now, 1, None)]
    {
      if |before| >= maxRecords {
        HasOldest(before);
        var k :| Oldest(before, k);
        FirstGoes(before, k);
        forall j | Oldest(before, j) ensures j == k {
        }
      }
    }

    lemma HasOldest(records: seq<Record>)
      requires exists x :: x in records && x.deliveredAt.Some?
      ensures exists k :: Oldest(records, k)
    {
      var n := |records| - 1;
      if exists x :: x in records[..n] && x.deliveredAt.Some? {
        HasOldest(records[..n]);
        var k :| Oldest(records[..n], k);
        assert Oldest(records, k);
      } else {
        assert records == records[..n] + [records[n]];
        forall j | 0 <= j < n ensures records[j].deliveredAt == None {
          assert records[j] in records[..n];
        }
        assert Oldest(records, n);
      }
    }

    /** The eviction loop: the oldest delivered records go until one more fits. */
    method MakeRoom() returns (r: Result<seq<Record>>, ghost gone: set<nat>)
      requires Valid()
      ensures r.Raised? ==> |file| >= maxRecords
      ensures r.Raised? <==> |file| >= maxRecords && (forall x :: x in file ==> x.deliveredAt.None?)
      ensures r.Ok? ==> r.value == Retained(ever, gone) == Roomy(file, maxRecords) && |r.value| < maxRecords
      ensures evicted <= gone && forall x :: x in ever && x.id in gone ==> x.deliveredAt.Some?
    {
      hide Retained, Expand, UniqueIds, LastKept;
      var records := file;
      gone := evicted;
      while |records| >= maxRecords
        invariant records == Retained(ever, gone) && |records| <= maxRecords
        invariant evicted <= gone && forall x :: x in ever && x.id in gone ==> x.deliveredAt.Some?
        invariant |records| >= maxRecords ==> records == file
        invariant |records| < maxRecords ==> records == Roomy(file, maxRecords)
        invariant records == file || exists x :: x in file && x.deliveredAt.Some?
        decreases |records|
      {
        var index := FirstDelivered(records);
        if index.None? {
          r := Raised(BoundExceeded);
          return;
        }
        EvictOne(ever, gone, index.value);
        FirstGoes(records, index.value);
        assert records[index.value] in records;
        OnlyThatOne(ever, gone, index.value);
        gone := gone + {records[index.value].id};
        records := records[..index.value] + records[index.value + 1..];
      }
      r := Ok(records);
    }

    method AppendNew(records: seq<Record>, created: Record, ghost gone: set<nat>) returns (r: Result<Record>)
      requires Valid() && |records| < maxRecords && forall x :: x in ever ==> x.id != created.id
      requires records == Retained(ever, gone) && evicted <= gone
      requires forall x :: x in ever && x.id in gone ==> x.deliveredAt.Some?
      requires created.repeatCount == 1 && created.deliveredAt.None?
      modifies this
      ensures Valid()
      ensures r.Raised? ==> file == old(file) && accepted == old(accepted) && ever == old(ever)
      ensures r.Ok? ==> r.value == created && accepted == old(accepted) + [created.report.key] && file == records + [created]
      ensures r.Ok? <==> size(records + [created]) <= maxBytes
      ensures forall x :: x in old(file) && x.deliveredAt.None? ==> x in file
    {
      RetainedMembers(ever, gone);
      RetainedMembers(ever, evicted);
      var written := Write(records + [created]);
      if written.Raised? {
        return Raised(written.reason);
      }
      AddRecord(ever, gone, created);
      ever := ever + [created];
      evicted := gone - {created.id};
      accepted := accepted + [created.report.key];
      return Ok(created);
    }

    lemma AddRecord(records: seq<Record>, gone: set<nat>, created: Record)
      requires UniqueIds(records) && created.repeatCount == 1 && forall x :: x in records ==> x.id != created.id
      ensures UniqueIds(records + [created]) && LastKept(records + [created], gone - {created.id})
      ensures Retained(records + [created], gone - {created.id}) == Retained(records, gone) + [created]
      ensures Expand(records + [created]) == Expand(records) + [created.report.key]
    {
      RetainedSame(records, gone, gone - {created.id});
      assert (records + [created])[..|records|] == records;
      assert Repeated(created.report.key, 1) == [created.report.key];
    }

    lemma OnlyThatOne(records: seq<Record>, gone: set<nat>, k: nat)
      requires UniqueIds(records) && k < |Retained(records, gone)|
      ensures forall x :: x in records && x.id == Retained(records, gone)[k].id ==> x == Retained(records, gone)[k]
    {
      var kept := Retained(records, gone)[k];
      RetainedMembers(records, gone);
      assert kept in Retained(records, gone);
    }

    method FirstDelivered(records: seq<Record>) returns (index: Option<nat>)
      ensures index.None? <==> forall x :: x in records ==> x.deliveredAt.None?
      ensures index.Some? ==> index.value < |records| && records[index.value].deliveredAt.Some?
      ensures index.Some? ==> forall j :: 0 <= j < index.value ==> records[j].deliveredAt.None?
    {
      for k := 0 to |records|
        invariant forall j :: 0 <= j < k ==> records[j].deliveredAt.None?
        invariant forall x :: x in records[..k] ==> x.deliveredAt.None?
      {
        if records[k].deliveredAt.Some? {
          assert records[k] in records;
          return Some(k);
        }
        assert forall x :: x in records[..k + 1] <==> x in records[..k] || x == records[k];
      }
      assert records[..|records|] == records;
      return None;
    }

    method Compact(report: Report, now: int) returns (r: Result<Record>)
      requires Valid() && Compactable(report)
      modifies this
      ensures Valid() && evicted == old(evicted)
      ensures r.Raised? ==> file == old(file) && accepted == old(accepted) && ever == old(ever)
      ensures r.Ok? ==> accepted == old(accepted) + [report.key]
      ensures r.Ok? <==> size(old(Compacted(report, now))) <= maxBytes
      ensures r.Ok? ==> file == old(Compacted(report, now))
      ensures r.Ok? ==> file == old(file)[|old(file)| - 1 := r.value]
      ensures r.Ok? ==> r.value == old(file)[|old(file)| - 1].(report := report, lastSeenAt := now, repeatCount := r.value.repeatCount)
      ensures r.Ok? ==> r.value.repeatCount == old(file)[|old(file)| - 1].repeatCount + 1
    {
      LastIsNewest();
      var n := |file| - 1;
      var compacted := file[n].(report := report, lastSeenAt := now, repeatCount := file[n].repeatCount + 1);
      assert file[n := compacted] == Compacted(report, now);
      var written := Write(file[n := compacted]);
      if written.Raised? {
        return Raised(written.reason);
      }
      ghost var m := |ever| - 1;
      assert ever[m := compacted][..m] == ever[..m];
      assert old(file)[..n] == Retained(ever[..m], evicted);
      assert Repeated(report.key, compacted.repeatCount) == Repeated(report.key, compacted.repeatCount - 1) + [report.key];
      ever := ever[m := compacted];
      accepted := accepted + [report.key];
      return Ok(compacted);
    }

    static function Delivered(records: seq<Record>, id: nat, now: int): seq<Record> {
      seq(|records|, k requires 0 <= k < |records| =>
        if records[k].id == id then records[k].(deliveredAt := Some(now)) else records[k])
    }

    /** `acknowledge`: exactly the record with this id is marked, or nothing is written. */
    method Acknowledge(id: nat, now: int) returns (r: Result<()>)
      requires Valid()
      modifies this
      ensures Valid() && accepted == old(accepted) && evicted == old(evicted)
      ensures r.Raised? ==> file == old(file)
      ensures r == Raised(UnknownKey) <==> forall x :: x in old(file) ==> x.id != id
      ensures r.Ok? <==> (exists x :: x in old(file) && x.id == id) && size(Delivered(old(file), id, now)) <= maxBytes
      ensures r.Ok? ==> file == Delivered(old(file), id, now)
      ensures r.Ok? ==> |file| == |old(file)| && forall k :: 0 <= k < |file| ==>
                file[k] == if old(file)[k].id == id then old(file)[k].(deliveredAt := Some(now)) else old(file)[k]
    {
      var found := false;
      var records: seq<Record> := [];
      for k := 0 to |file|
        invariant file == old(file) && |records| == k
        invariant forall j :: 0 <= j < k ==>
                    records[j] == if file[j].id == id then file[j].(deliveredAt := Some(now)) else file[j]
        invariant found <==> exists j :: 0 <= j < k && file[j].id == id
      {
        var record := file[k];
        if record.id == id {
          found := true;
          record := record.(deliveredAt := Some(now));
        }
        records := records + [record];
      }
      if !found {
        return Raised(UnknownKey);
      }
      var at :| 0 <= at < |file| && file[at].id == id;
      assert file[at] in file;
      assert records == Delivered(file, id, now);
      var written := Write(records);
      assert old(file)[at] in old(file);
      if written.Raised? {
        return Raised(written.reason);
      }
      MarkDelivered(old(file), at, now);
      ever := Replaced(ever, id, records[at]);
      return Ok(());
    }

    /** Marking one kept record delivered, in the file and among all records. */
    lemma MarkDelivered(before: seq<Record>, at: nat, now: int)
      requires UniqueIds(ever) && before == Retained(ever, evicted) && at < |before| && LastKept(ever, evicted)
      requires Expand(ever) == accepted && forall r :: r in ever && r.id in evicted ==> r.deliveredAt.Some?
      ensures var other := before[at].(deliveredAt := Some(now));
              var after := Replaced(ever, other.id, other);
              && UniqueIds(after) && LastKept(after, evicted) && Expand(after) == accepted
              && (forall r :: r in after && r.id in evicted ==> r.deliveredAt.Some?)
              && Retained(after, evicted) == Replaced(before, other.id, other)
              && (forall k :: 0 <= k < |before| && k != at ==> before[k].id != other.id)
    {
      var other := before[at].(deliveredAt := Some(now));
      RetainedReplaced(ever, evicted, other.id, other);
      OnlyThatOne(ever, evicted, at);
      DeliveredExpandsSame(ever, other.id, other);
      RetainedUnique(ever, evicted);
    }
  }
}
