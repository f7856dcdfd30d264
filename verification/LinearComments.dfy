/**
  Reading an issue's comments page by page in src/agent_session_harness/adapters/linear.py.
  Within one scan no cursor is asked for twice, so whatever the service answers is a function
  of the cursor.
 */
module LinearComments {
  import opened Options

  const COMMENT_PAGE_SIZE := 100
  const MAX_COMMENT_PAGES := 10
  const MAX_COMMENTS := 1000
  const MAX_COMMENT_BODY_BYTES := 1_048_576
  const MAX_RESPONSE_BYTES := 4_194_304
  const MAX_CURSOR_BYTES := 1_024

  datatype Comment = Comment(id: string, body: string)

  /** `bytes` is the size of the encoded answer; `Lost` a transport failure, `Rejected` an error of the service. */
  datatype Response =
    | Lost
    | Rejected(bytes: nat)
    | Page(bytes: nat, issue: string, nodes: seq<Comment>, hasNext: bool, endCursor: string)

  type Service = Option<string> -> Response

  datatype Issue = Issue(id: string, comments: seq<Comment>)

  // ---------------------------------------------------------------- one answer

  function IssueOf(r: Response): string {
    if r.Page? then r.issue else ""
  }

  function NodesOf(r: Response): seq<Comment> {
    if r.Page? then r.nodes else []
  }

  function BytesOf(r: Response): nat {
    if r.Lost? then 0 else r.bytes
  }

  function EndOf(r: Response): string {
    if r.Page? then r.endCursor else ""
  }

  predicate More(r: Response) {
    r.Page? && r.hasNext
  }

  predicate Usable(cursor: string) {
    cursor != "" && |cursor| <= MAX_CURSOR_BYTES
  }

  function BodyBytes(comments: seq<Comment>): nat {
    if comments == [] then 0 else BodyBytes(comments[..|comments| - 1]) + |comments[|comments| - 1].body|
  }

  // ---------------------------------------------------------------- the pages along the cursors

  function PageAt(serve: Service, k: nat): Response
    decreases k, 0
  {
    serve(CursorAt(serve, k))
  }

  function CursorAt(serve: Service, k: nat): Option<string>
    decreases k, 0, 0
  {
    if k == 0 then None else Some(EndOf(PageAt(serve, k - 1)))
  }

  function Nodes(serve: Service, n: nat): seq<Comment> {
    if n == 0 then [] else Nodes(serve, n - 1) + NodesOf(PageAt(serve, n - 1))
  }

  function Received(serve: Service, n: nat): nat {
    if n == 0 then 0 else Received(serve, n - 1) + BytesOf(PageAt(serve, n - 1))
  }

  /** The cursors the first `n` pages handed out. */
  function Cursors(serve: Service, n: nat): set<string> {
    if n == 0 then {} else Cursors(serve, n - 1) + {EndOf(PageAt(serve, n - 1))}
  }

  predicate PageOk(serve: Service, k: nat) {
    var r := PageAt(serve, k);
    r.Page? && r.issue != "" && r.issue == IssueOf(PageAt(serve, 0)) && |r.nodes| <= COMMENT_PAGE_SIZE
  }

  /** The page announces another one under a usable cursor that was not handed out before. */
  predicate Continues(serve: Service, k: nat) {
    More(PageAt(serve, k)) && Usable(EndOf(PageAt(serve, k))) && EndOf(PageAt(serve, k)) !in Cursors(serve, k)
  }

  predicate WithinBounds(serve: Service, n: nat) {
    && |Nodes(serve, n)| <= MAX_COMMENTS
    && BodyBytes(Nodes(serve, n)) <= MAX_COMMENT_BODY_BYTES
    && Received(serve, n) <= MAX_RESPONSE_BYTES
  }

  /** A scan that ends with a last page after `n` of them. */
  ghost predicate Complete(serve: Service, n: nat) {
    && 0 < n <= MAX_COMMENT_PAGES
    && (forall k :: 0 <= k < n ==> PageOk(serve, k))
    && (forall k :: 0 <= k < n - 1 ==> Continues(serve, k))
    && !More(PageAt(serve, n - 1))
    && WithinBounds(serve, n)
  }

  lemma {:induction false} BodyBytesConcat(s: seq<Comment>, t: seq<Comment>)
    ensures BodyBytes(s + t) == BodyBytes(s) + BodyBytes(t)
  {
    if t == [] {
      assert s + t == s;
    } else {
      assert (s + t)[..|s + t| - 1] == s + t[..|t| - 1];
      BodyBytesConcat(s, t[..|t| - 1]);
    }
  }

  lemma {:induction false} TotalsGrow(serve: Service, m: nat, n: nat)
    requires m <= n && WithinBounds(serve, n)
    ensures WithinBounds(serve, m)
    decreases n
  {
    hide PageAt, BodyBytes;
    if m < n {
      BodyBytesConcat(Nodes(serve, n - 1), NodesOf(PageAt(serve, n - 1)));
      TotalsGrow(serve, m, n - 1);
    }
  }

  /** `k` acceptable pages were read within the bounds, and each announced another. */
  ghost predicate Scanned(serve: Service, k: nat) {
    && (forall j :: 0 <= j < k ==> PageOk(serve, j) && Continues(serve, j))
    && WithinBounds(serve, k)
  }

  /** A scan that had to go on after `k` pages does not end before, and needs page `k` to be acceptable. */
  lemma EndsLater(serve: Service, k: nat, n: nat)
    requires Complete(serve, n) && Scanned(serve, k)
    ensures k < n && PageOk(serve, k) && WithinBounds(serve, k + 1)
    ensures More(PageAt(serve, k)) ==> k + 1 < n && Continues(serve, k)
  {
    hide WithinBounds, PageAt, Cursors;
    assert n <= k ==> Continues(serve, n - 1);
    TotalsGrow(serve, k + 1, n);
  }

  /**
    `_fetch_issue`: succeeds exactly when the pages lead to a last one within the bounds, and
    then returns the concatenation of all of them; never a part.
  */
  method FetchIssue(serve: Service) returns (r: Result<Issue>)
    ensures r.Ok? <==> exists n: nat :: Complete(serve, n)
    ensures r.Ok? ==> exists n: nat :: Complete(serve, n) && r.value == Issue(IssueOf(PageAt(serve, 0)), Nodes(serve, n))
  {
    hide WithinBounds, Complete, PageOk, Continues, Received, BodyBytes, CursorAt;
    var cursor: Option<string> := None;
    var seen: set<string> := {};
    var issue: Option<string> := None;
    var comments: seq<Comment> := [];
    var bodyBytes: nat, received: nat := 0, 0;
    StartScan(serve);
    for k := 0 to MAX_COMMENT_PAGES
      invariant Scanned(serve, k)
      invariant cursor == CursorAt(serve, k) && seen == Cursors(serve, k) && (cursor.Some? ==> cursor.value in seen)
      invariant issue == if k == 0 then None else Some(IssueOf(PageAt(serve, 0)))
      invariant comments == Nodes(serve, k) && bodyBytes == BodyBytes(comments) && received == Received(serve, k)
    {
      var response := serve(cursor);
      OneMorePage(serve, k);
      received := received + BytesOf(response);
      var accepted := AcceptPage(serve, k, response, received, issue, comments, bodyBytes);
      if accepted.Raised? {
        NeedsPage(serve, k);
        return Raised(accepted.reason);
      }
      issue, comments, bodyBytes := Some(response.issue), comments + response.nodes, accepted.value;
      if !response.hasNext {
        LastPage(serve, k);
        return Ok(Issue(issue.value, comments));
      }
      var next := NextCursor(response, k, cursor, seen);
      if next.Raised? {
        NextFails(serve, k);
        NeedsPage(serve, k);
        return Raised(next.reason);
      }
      GoesOn(serve, k);
      seen := seen + {next.value};
      cursor := Some(next.value);
    }
    NeedsPage(serve, MAX_COMMENT_PAGES);
    return Raised(RuntimeFault);
  }

  lemma StartScan(serve: Service)
    ensures Scanned(serve, 0) && CursorAt(serve, 0) == None && BodyBytes([]) == 0 && Received(serve, 0) == 0
  {
  }

  lemma OneMorePage(serve: Service, k: nat)
    ensures PageAt(serve, k) == serve(CursorAt(serve, k))
    ensures Received(serve, k + 1) == Received(serve, k) + BytesOf(PageAt(serve, k))
    ensures Nodes(serve, k + 1) == Nodes(serve, k) + NodesOf(PageAt(serve, k))
    ensures Cursors(serve, k + 1) == Cursors(serve, k) + {EndOf(PageAt(serve, k))}
    ensures CursorAt(serve, k + 1) == Some(EndOf(PageAt(serve, k)))
  {
  }

  /** If any scan of this service completes, it reads page `k` too, and goes on from it when there is more. */
  lemma NeedsPage(serve: Service, k: nat)
    requires Scanned(serve, k)
    ensures (exists n: nat :: Complete(serve, n)) ==>
              && PageOk(serve, k) && WithinBounds(serve, k + 1) && k < MAX_COMMENT_PAGES
              && (More(PageAt(serve, k)) ==> k + 1 < MAX_COMMENT_PAGES && Continues(serve, k))
  {
    hide PageOk, WithinBounds, PageAt, Continues;
    if n: nat :| Complete(serve, n) {
      EndsLater(serve, k, n);
    }
  }

  lemma LastPage(serve: Service, k: nat)
    requires k < MAX_COMMENT_PAGES && Scanned(serve, k) && PageOk(serve, k) && WithinBounds(serve, k + 1) && !More(PageAt(serve, k))
    ensures Complete(serve, k + 1)
  {
    hide WithinBounds, PageAt, PageOk, Cursors;
  }

  lemma NextFails(serve: Service, k: nat)
    ensures Continues(serve, k) <==> More(PageAt(serve, k)) && Usable(EndOf(PageAt(serve, k))) && EndOf(PageAt(serve, k)) !in Cursors(serve, k)
  {
  }

  lemma GoesOn(serve: Service, k: nat)
    requires Scanned(serve, k) && PageOk(serve, k) && WithinBounds(serve, k + 1)
    requires More(PageAt(serve, k)) && Usable(EndOf(PageAt(serve, k))) && EndOf(PageAt(serve, k)) !in Cursors(serve, k)
    ensures Scanned(serve, k + 1)
  {
    hide WithinBounds, PageAt, PageOk, Cursors;
  }

  /** The checks on one page, in the order they are made. */
  method AcceptPage(serve: Service, k: nat, response: Response, received: nat, issue: Option<string>,
                    comments: seq<Comment>, bodyBytes: nat) returns (r: Result<nat>)
    requires response == PageAt(serve, k) && received == Received(serve, k + 1)
    requires issue == if k == 0 then None else Some(IssueOf(PageAt(serve, 0)))
    requires WithinBounds(serve, k) && comments == Nodes(serve, k) && bodyBytes == BodyBytes(comments)
    ensures r.Ok? <==> PageOk(serve, k) && WithinBounds(serve, k + 1)
    ensures r.Ok? ==> response.Page? && response.issue == IssueOf(PageAt(serve, 0)) && r.value == BodyBytes(comments + response.nodes)
    ensures r.Ok? ==> comments + response.nodes == Nodes(serve, k + 1)
  {
    hide PageAt, Received, BodyBytes;
    if response.Lost? {
      return Raised(RuntimeFault);
    }
    if received > MAX_RESPONSE_BYTES {
      return Raised(RuntimeFault);
    }
    if response.Rejected? || response.issue == "" || (issue.Some? && issue.value != response.issue) {
      return Raised(InvalidValue);
    }
    if |response.nodes| > COMMENT_PAGE_SIZE {
      return Raised(InvalidValue);
    }
    if |comments| + |response.nodes| > MAX_COMMENTS {
      return Raised(RuntimeFault);
    }
    r := AddBodies(comments, response.nodes, bodyBytes);
  }

  /** The comment loop: body bytes are bounded as they are added up. */
  method AddBodies(comments: seq<Comment>, nodes: seq<Comment>, bodyBytes: nat) returns (r: Result<nat>)
    requires bodyBytes == BodyBytes(comments) <= MAX_COMMENT_BODY_BYTES
    ensures r.Ok? <==> BodyBytes(comments + nodes) <= MAX_COMMENT_BODY_BYTES
    ensures r.Ok? ==> r.value == BodyBytes(comments + nodes)
  {
    var total := bodyBytes;
    assert comments + nodes[..0] == comments;
    for k := 0 to |nodes|
      invariant total == BodyBytes(comments + nodes[..k]) <= MAX_COMMENT_BODY_BYTES
    {
      assert (comments + nodes[..k + 1])[..|comments| + k] == comments + nodes[..k];
      total := total + |nodes[k].body|;
      if total > MAX_COMMENT_BODY_BYTES {
        assert comments + nodes == (comments + nodes[..k + 1]) + nodes[k + 1..];
        BodyBytesConcat(comments + nodes[..k + 1], nodes[k + 1..]);
        return Raised(RuntimeFault);
      }
    }
    assert nodes[..|nodes|] == nodes;
    return Ok(total);
  }

  /** The cursor of the next page: well formed, not seen before, and within the page limit. */
  method NextCursor(response: Response, k: nat, cursor: Option<string>, seen: set<string>) returns (r: Result<string>)
    requires response.Page? && (cursor.Some? ==> cursor.value in seen)
    ensures r.Ok? <==> Usable(response.endCursor) && response.endCursor !in seen && k + 1 < MAX_COMMENT_PAGES
    ensures r.Ok? ==> r.value == response.endCursor
  {
    var end := response.endCursor;
    if end == "" || |end| > MAX_CURSOR_BYTES {
      return Raised(InvalidValue);
    }
    if cursor == Some(end) || end in seen {
      return Raised(RuntimeFault);
    }
    if k + 1 >= MAX_COMMENT_PAGES {
      return Raised(RuntimeFault);
    }
    return Ok(end);
  }

  // ---------------------------------------------------------------- a service that pages a list

  function CursorFor(name: nat -> string, position: nat): Option<string> {
    if position == 0 then None else Some(name(position))
  }

  function Until(all: seq<Comment>, position: nat): nat {
    if position <= |all| then position else |all|
  }

  /** The slice after a position, with the cursor of the next one. */
  predicate SliceAt(r: Response, name: nat -> string, issue: string, all: seq<Comment>, p: nat)
    requires p <= |all|
  {
    && r.Page? && r.issue == issue
    && r.nodes == all[p..Until(all, p + COMMENT_PAGE_SIZE)]
    && (r.hasNext <==> p + COMMENT_PAGE_SIZE < |all|)
    && (r.hasNext ==> r.endCursor == name(p + COMMENT_PAGE_SIZE))
  }

  /** Each answer is a failure or the slice its cursor stands for. */
  predicate Serves(serve: Service, name: nat -> string, issue: string, all: seq<Comment>) {
    forall p {:trigger CursorFor(name, p)} :: 0 <= p <= |all| ==>
      serve(CursorFor(name, p)).Page? ==> SliceAt(serve(CursorFor(name, p)), name, issue, all, p)
  }

  lemma {:induction false} PagesAreSlices(serve: Service, name: nat -> string, issue: string, all: seq<Comment>, n: nat, k: nat)
    requires Serves(serve, name, issue, all) && k < n
    requires (forall j :: 0 <= j < n ==> PageOk(serve, j)) && (forall j :: 0 <= j < n - 1 ==> More(PageAt(serve, j)))
    ensures COMMENT_PAGE_SIZE * k <= |all| && SliceAt(PageAt(serve, k), name, issue, all, COMMENT_PAGE_SIZE * k)
    ensures Nodes(serve, k) == all[..COMMENT_PAGE_SIZE * k]
    decreases k
  {
    var p := COMMENT_PAGE_SIZE * k;
    if k > 0 {
      PagesAreSlices(serve, name, issue, all, n, k - 1);
      assert More(PageAt(serve, k - 1));
      assert all[..p - COMMENT_PAGE_SIZE] + all[p - COMMENT_PAGE_SIZE..p] == all[..p];
    }
    assert CursorAt(serve, k) == CursorFor(name, p);
    assert PageOk(serve, k);
  }

  /** A scan that succeeds against a paging service returns every comment, in order. */
  lemma ScanReturnsEverything(serve: Service, name: nat -> string, issue: string, all: seq<Comment>, n: nat)
    requires Serves(serve, name, issue, all) && Complete(serve, n)
    ensures Nodes(serve, n) == all && IssueOf(PageAt(serve, 0)) == issue
  {
    hide WithinBounds, Cursors;
    forall j | 0 <= j < n - 1 ensures More(PageAt(serve, j)) {
      assert Continues(serve, j);
    }
    PagesAreSlices(serve, name, issue, all, n, n - 1);
    PagesAreSlices(serve, name, issue, all, n, 0);
    var p := COMMENT_PAGE_SIZE * (n - 1);
    assert all[..p] + all[p..] == all;
  }

  /** Every page is answered, under usable and different cursors. */
  ghost predicate Answers(serve: Service, name: nat -> string, all: seq<Comment>) {
    && (forall p {:trigger CursorFor(name, p)} :: 0 <= p <= |all| ==> serve(CursorFor(name, p)).Page?)
    && (forall p :: 0 < p <= |all| ==> Usable(name(p)))
    && (forall p, q :: 0 < p < q <= |all| ==> name(p) != name(q))
  }

  /** The number of pages a list takes. */
  predicate PagesFor(all: seq<Comment>, n: nat) {
    0 < n && COMMENT_PAGE_SIZE * (n - 1) <= |all| <= COMMENT_PAGE_SIZE * n && (n > 1 ==> COMMENT_PAGE_SIZE * (n - 1) < |all|)
  }

  lemma {:induction false} AnsweredAt(serve: Service, name: nat -> string, issue: string, all: seq<Comment>, n: nat, k: nat)
    requires Serves(serve, name, issue, all) && Answers(serve, name, all) && issue != "" && PagesFor(all, n) && k < n
    ensures SliceAt(PageAt(serve, k), name, issue, all, COMMENT_PAGE_SIZE * k)
    ensures More(PageAt(serve, k)) <==> k < n - 1
    ensures forall c :: c in Cursors(serve, k) ==> exists j :: 0 < j <= k && c == name(COMMENT_PAGE_SIZE * j)
    ensures PageAt(serve, k).issue == issue && |PageAt(serve, k).nodes| <= COMMENT_PAGE_SIZE
    decreases k
  {
    var p := COMMENT_PAGE_SIZE * k;
    if k > 0 {
      AnsweredAt(serve, name, issue, all, n, k - 1);
    }
    assert CursorAt(serve, k) == CursorFor(name, p);
  }

  /** Then the scan succeeds exactly when the comments, their bodies and the answers are within the bounds. */
  lemma ScanSucceedsWithinBounds(serve: Service, name: nat -> string, issue: string, all: seq<Comment>, n: nat)
    requires Serves(serve, name, issue, all) && Answers(serve, name, all) && issue != "" && PagesFor(all, n)
    ensures Complete(serve, n) <==>
            |all| <= MAX_COMMENTS && BodyBytes(all) <= MAX_COMMENT_BODY_BYTES && Received(serve, n) <= MAX_RESPONSE_BYTES
  {
    forall k | 0 <= k < n ensures PageOk(serve, k) && (k < n - 1 ==> Continues(serve, k)) && (k == n - 1 ==> !More(PageAt(serve, k))) {
      AnsweredOk(serve, name, issue, all, n, k);
    }
    hide Received, BodyBytes, PageAt, PageOk, Continues, Nodes, SliceAt, Serves, Answers, Until, Cursors;
    AnsweredNodes(serve, name, issue, all, n);
  }

  lemma AnsweredNodes(serve: Service, name: nat -> string, issue: string, all: seq<Comment>, n: nat)
    requires Serves(serve, name, issue, all) && PagesFor(all, n)
    requires forall k :: 0 <= k < n ==> PageOk(serve, k) && (k < n - 1 ==> Continues(serve, k)) && (k == n - 1 ==> !More(PageAt(serve, k)))
    ensures Nodes(serve, n) == all
  {
    hide Cursors, Answers;
    forall j | 0 <= j < n - 1 ensures More(PageAt(serve, j)) {
      assert PageOk(serve, j);
    }
    PagesAreSlices(serve, name, issue, all, n, n - 1);
    var p := COMMENT_PAGE_SIZE * (n - 1);
    assert all[..p] + all[p..] == all;
    assert PageOk(serve, n - 1);
  }

  lemma AnsweredOk(serve: Service, name: nat -> string, issue: string, all: seq<Comment>, n: nat, k: nat)
    requires Serves(serve, name, issue, all) && Answers(serve, name, all) && issue != "" && PagesFor(all, n) && k < n
    ensures PageOk(serve, k) && (k < n - 1 ==> Continues(serve, k)) && (k == n - 1 ==> !More(PageAt(serve, k)))
  {
    AnsweredAt(serve, name, issue, all, n, k);
    AnsweredAt(serve, name, issue, all, n, 0);
    hide Serves, Cursors, PageAt;
    if k < n - 1 {
      var p := COMMENT_PAGE_SIZE * (k + 1);
      assert Usable(name(p));
      forall j | 0 < j <= k ensures name(COMMENT_PAGE_SIZE * j) != name(p) {
      }
    }
  }
}
