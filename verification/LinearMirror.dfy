/**
  `handle_request` of src/agent_session_harness/adapters/linear.py: look for the marker, create
  the comment, and read back. The service may lose any answer, whether or not it acted on the
  request; other people comment on the issue too.
 */
module LinearMirror {
  import opened Options
  import opened LinearComments
  import opened Sequences

  datatype Operation = ReadMarker | WriteCheckpoint | Acknowledge

  /** A validated request: its markers and the checkpoint text. */
  datatype Request = Request(operation: Operation, checkpointMarker: string, acknowledgementMarker: string, text: string)

  datatype Outcome = Success | Failure(retryable: bool)

  function MarkerOf(q: Request): string {
    if q.operation.Acknowledge? then q.acknowledgementMarker else q.checkpointMarker
  }

  function BodyOf(q: Request): string {
    if q.operation.Acknowledge? then q.acknowledgementMarker else q.checkpointMarker + q.text
  }

  lemma BodyCarriesItsMarker(q: Request)
    ensures Contains(BodyOf(q), MarkerOf(q))
  {
    assert StandsAt(BodyOf(q), MarkerOf(q), 0);
  }

  function Marked(comments: seq<Comment>, marker: string): nat {
    if comments == [] then 0
    else Marked(comments[..|comments| - 1], marker) + if Contains(comments[|comments| - 1].body, marker) then 1 else 0
  }

  lemma MarkedPush(comments: seq<Comment>, c: Comment, marker: string)
    ensures Marked(comments + [c], marker) == Marked(comments, marker) + if Contains(c.body, marker) then 1 else 0
  {
    assert (comments + [c])[..|comments|] == comments;
  }

  lemma {:induction false} MarkedMeans(comments: seq<Comment>, marker: string)
    ensures Marked(comments, marker) > 0 <==> exists k :: 0 <= k < |comments| && Contains(comments[k].body, marker)
  {
    if comments != [] {
      var n := |comments| - 1;
      MarkedMeans(comments[..n], marker);
      if Marked(comments[..n], marker) > 0 {
        var k :| 0 <= k < n && Contains(comments[..n][k].body, marker);
        assert Contains(comments[k].body, marker);
      }
    }
  }

  /** `_has_marker`. */
  method HasMarker(issue: Issue, marker: string) returns (found: bool)
    ensures found <==> Marked(issue.comments, marker) > 0
  {
    MarkedMeans(issue.comments, marker);
    for k := 0 to |issue.comments|
      invariant forall j :: 0 <= j < k ==> !Contains(issue.comments[j].body, marker)
    {
      if Contains(issue.comments[k].body, marker) {
        return true;
      }
    }
    return false;
  }

  /** The marker stands somewhere in the body. */
  ghost predicate Bears(body: string, marker: string) {
    exists k: nat :: Stands(body, marker, k)
  }

  ghost predicate Stands(body: string, marker: string, k: nat) {
    k + |marker| <= |body| && body[k..k + |marker|] == marker
  }

  /** Some comment bears it. */
  ghost predicate Posted(comments: seq<Comment>, marker: string) {
    exists k :: 0 <= k < |comments| && Bears(comments[k].body, marker)
  }

  lemma BearsContains(body: string, marker: string)
    ensures Bears(body, marker) <==> Contains(body, marker)
  {
    if k: nat :| Stands(body, marker, k) {
      assert StandsAt(body, marker, k);
    }
    if k :| 0 <= k <= |body| && StandsAt(body, marker, k) {
      assert Stands(body, marker, k);
    }
  }

  lemma PostedIsMarked(comments: seq<Comment>, marker: string)
    ensures Posted(comments, marker) <==> Marked(comments, marker) > 0
  {
    MarkedMeans(comments, marker);
    hide Bears, Contains;
    forall k | 0 <= k < |comments| ensures Bears(comments[k].body, marker) <==> Contains(comments[k].body, marker) {
      BearsContains(comments[k].body, marker);
    }
  }

  /** A scan of this service can be completed. */
  ghost predicate Scannable(serve: Service) {
    exists n: nat :: Complete(serve, n)
  }

  /**
    What one request does. `marker` and `body` are those of the operation: an acknowledgement looks
    for and posts its own marker, a write posts the checkpoint marker and the text, a read posts
    nothing.
   */
  ghost predicate Handled(q: Request, before: seq<Comment>, after: seq<Comment>, first: Service, newId: string,
                          acts: bool, answer: Result<()>, readBack: Service, outcome: Outcome)
  {
    var marker := if q.operation == Acknowledge then q.acknowledgementMarker else q.checkpointMarker;
    var body := if q.operation == Acknowledge then q.acknowledgementMarker else q.checkpointMarker + q.text;
    if !Scannable(first) then
      outcome.Failure? && after == before
    else if Posted(before, marker) then
      outcome == Success && after == before
    else if q.operation == ReadMarker then
      outcome == Failure(true) && after == before
    else
      && after == (if acts then before + [Comment(newId, body)] else before)
      && (outcome == Success <==> answer.Ok? && Scannable(readBack) && acts)
      && (answer.Raised? ==> outcome == Failure(answer.reason == RuntimeFault))
  }

  class LinearIssue {
    const id: string
    /** The comments as the service holds them. */
    var comments: seq<Comment>
    /** How the service names positions in its cursors. */
    const name: nat -> string

    constructor (id: string, name: nat -> string, comments: seq<Comment>)
      requires id != ""
      ensures this.id == id && this.comments == comments
    {
      this.id, this.comments, this.name := id, comments, name;
    }

    /** Somebody else comments, without the marker of this harness. */
    method OthersComment(c: Comment, ghost marker: string)
      requires !Contains(c.body, marker)
      modifies this
      ensures comments == old(comments) + [c] && Marked(comments, marker) == old(Marked(comments, marker))
    {
      MarkedPush(comments, c, marker);
      comments := comments + [c];
    }

    /** One scan: whatever pages are lost or refused, what it returns is every comment there is. */
    method Scan(serve: Service) returns (r: Result<Issue>)
      requires Serves(serve, name, id, comments)
      ensures r.Ok? ==> r.value == Issue(id, comments)
      ensures r.Ok? <==> exists n: nat :: Complete(serve, n)
    {
      r := FetchIssue(serve);
      if r.Ok? {
        ghost var n: nat :| Complete(serve, n) && r.value == Issue(IssueOf(PageAt(serve, 0)), Nodes(serve, n));
        ScanReturnsEverything(serve, name, id, comments, n);
      }
    }

    /** `_create_comment`: the service acts or not, and its answer arrives, is refused, or is lost. */
    method CreateComment(body: string, newId: string, acts: bool, answer: Result<()>) returns (r: Result<()>)
      modifies this
      ensures comments == if acts then old(comments) + [Comment(newId, body)] else old(comments)
      ensures r == answer
    {
      if acts {
        comments := comments + [Comment(newId, body)];
      }
      return answer;
    }

    /** Permanent for an error of the service, retryable for a transport failure or a bound. */
    static function FailureOf(reason: Reason): Outcome {
      Failure(reason == RuntimeFault)
    }

    /**
      `handle_request`: success exactly when the marker is there already, or the comment was
      created and read back; no comment is added when the marker is there already or only looked
      for, and at most one otherwise.
    */
    method HandleRequest(q: Request, first: Service, newId: string, acts: bool, answer: Result<()>, readBack: Service)
      returns (outcome: Outcome)
      requires Serves(first, name, id, comments)
      requires Serves(readBack, name, id, if acts then comments + [Comment(newId, BodyOf(q))] else comments)
      modifies this
      ensures Handled(q, old(comments), comments, first, newId, acts, answer, readBack, outcome)
      ensures comments == old(comments) || comments == old(comments) + [Comment(newId, BodyOf(q))]
      ensures outcome.Success? ==> Marked(comments, MarkerOf(q)) > 0
      ensures old(Marked(comments, MarkerOf(q))) > 0 || q.operation.ReadMarker? ==> comments == old(comments)
    {
      hide Marked, Serves, Complete, Posted;
      PostedIsMarked(comments, MarkerOf(q));
      var issue := Scan(first);
      if issue.Raised? {
        return FailureOf(issue.reason);
      }
      var marker := MarkerOf(q);
      var present := HasMarker(issue.value, marker);
      if q.operation.ReadMarker? {
        return if present then Success else Failure(true);
      }
      if present {
        return Success;
      }
      var created := CreateComment(BodyOf(q), newId, acts, answer);
      if created.Raised? {
        return FailureOf(created.reason);
      }
      BodyCarriesItsMarker(q);
      MarkedPush(old(comments), Comment(newId, BodyOf(q)), marker);
      var verified := Scan(readBack);
      if verified.Raised? {
        return FailureOf(verified.reason);
      }
      var confirmed := HasMarker(verified.value, marker);
      if !confirmed {
        return Failure(true);
      }
      return Success;
    }

    /**
      Any number of tries by one writer, any answers lost, any comments by others in between:
      at most one comment ever carries the marker, success means that it is there, and a try in
      which everything answers succeeds.
    */
    method Retry(q: Request, attempts: seq<Attempt>) returns (outcomes: seq<Outcome>)
      requires Marked(comments, MarkerOf(q)) <= 1
      requires forall t :: 0 <= t < |attempts| ==> attempts[t].Fits(name, id)
      modifies this
      ensures Marked(comments, MarkerOf(q)) <= 1
      ensures Success in outcomes ==> Marked(comments, MarkerOf(q)) == 1
      ensures |outcomes| == |attempts|
      ensures forall t :: 0 <= t < |attempts| && attempts[t].Works() && !q.operation.ReadMarker? ==> outcomes[t] == Success
    {
      outcomes := [];
      for t := 0 to |attempts|
        invariant Marked(comments, MarkerOf(q)) <= 1
        invariant Success in outcomes ==> Marked(comments, MarkerOf(q)) == 1
        invariant |outcomes| == t
        invariant forall u :: 0 <= u < t && attempts[u].Works() && !q.operation.ReadMarker? ==> outcomes[u] == Success
      {
        var outcome := Try(q, attempts[t]);
        outcomes := outcomes + [outcome];
      }
    }

    method Try(q: Request, attempt: Attempt) returns (outcome: Outcome)
      requires Marked(comments, MarkerOf(q)) <= 1 && attempt.Fits(name, id)
      modifies this
      ensures old(Marked(comments, MarkerOf(q))) <= Marked(comments, MarkerOf(q)) <= 1
      ensures outcome == Success ==> Marked(comments, MarkerOf(q)) == 1
      ensures attempt.Works() && !q.operation.ReadMarker? ==> outcome == Success
    {
      hide Marked, Contains, Serves, Complete, Posted;
      var marker := MarkerOf(q);
      if !Contains(attempt.remark.body, marker) {
        OthersComment(attempt.remark, marker);
      }
      var created := Comment(attempt.newId, BodyOf(q));
      MarkedPush(comments, created, marker);
      outcome := HandleRequest(q, attempt.first(comments), attempt.newId, attempt.acts, attempt.answer,
                               attempt.readBack(if attempt.acts then comments + [created] else comments));
    }
  }

  /** One try: a comment by somebody else before it, and how the service behaves for the comments it then holds. */
  datatype Attempt = Attempt(remark: Comment, first: seq<Comment> -> Service, newId: string, acts: bool, answer: Result<()>,
                             readBack: seq<Comment> -> Service)
  {
    ghost predicate Fits(name: nat -> string, id: string) {
      forall comments: seq<Comment> :: Serves(first(comments), name, id, comments) && Serves(readBack(comments), name, id, comments)
    }

    /** Every page arrives, and the service acts and says so. */
    ghost predicate Works() {
      && acts && answer.Ok?
      && forall comments: seq<Comment> :: Scannable(first(comments)) && Scannable(readBack(comments))
    }
  }
}
