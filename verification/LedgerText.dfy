/**
  The ledger file as text: its lines, what each line parses to, and when reading it in two
  pieces agrees with reading it whole.
 */
module LedgerText {
  import opened Activity

  datatype Parsed = Blank | NotJson | NotEvent | Good(event: Event)

  /** Position of the first newline, or the length. */
  function LineEnd(text: string): (r: nat)
    ensures r <= |text| && '\n' !in text[..r] && (r < |text| ==> text[r] == '\n')
  {
    if text == "" || text[0] == '\n' then 0
    else
      var r := 1 + LineEnd(text[1..]);
      assert text[..r] == [text[0]] + text[1..][..r - 1];
      r
  }

  /** Lines without their newlines; a last line may lack one. */
  function LinesOf(text: string): seq<string>
    decreases |text|
  {
    if text == "" then []
    else if LineEnd(text) == |text| then [text]
    else [text[..LineEnd(text)]] + LinesOf(text[LineEnd(text) + 1..])
  }

  predicate Whole(text: string) {
    text == "" || text[|text| - 1] == '\n'
  }

  lemma LineEndUnique(text: string, r: nat)
    requires r <= |text| && '\n' !in text[..r] && (r < |text| ==> text[r] == '\n')
    ensures LineEnd(text) == r
  {
    assert forall k | 0 <= k < r :: text[..r][k] != '\n';
    assert forall k | 0 <= k < LineEnd(text) :: text[..LineEnd(text)][k] != '\n';
  }

  lemma {:induction false} LinesConcat(a: string, b: string)
    requires Whole(a)
    ensures LinesOf(a + b) == LinesOf(a) + LinesOf(b)
    decreases |a|
  {
    if a == "" {
      assert a + b == b;
    } else {
      hide LinesOf, LineEnd, Whole;
      var k := LineEnd(a);
      FirstLineStays(a, b);
      LinesConcat(a[k + 1..], b);
      Associates([a[..k]], LinesOf(a[k + 1..]), LinesOf(b));
    }
  }

  lemma Associates(s: seq<string>, t: seq<string>, u: seq<string>)
    ensures (s + t) + u == s + (t + u)
  {
  }

  /** In whole text the first line ends before the end, whatever follows. */
  lemma FirstLineStays(a: string, b: string)
    requires a != "" && Whole(a)
    ensures LineEnd(a) < |a| && Whole(a[LineEnd(a) + 1..])
    ensures LinesOf(a) == [a[..LineEnd(a)]] + LinesOf(a[LineEnd(a) + 1..])
    ensures LinesOf(a + b) == [a[..LineEnd(a)]] + LinesOf(a[LineEnd(a) + 1..] + b)
  {
    var k := LineEnd(a);
    assert forall j :: 0 <= j < k ==> a[..k][j] == a[j] && a[j] != '\n';
    assert (a + b)[..k] == a[..k];
    LineEndUnique(a + b, k);
    assert (a + b)[k + 1..] == a[k + 1..] + b;
  }

  /** A line cut in two is read as two lines. */
  lemma {:induction false} CutLineCountsTwice(a: string, b: string)
    requires !Whole(a) && b != ""
    ensures |LinesOf(a + b)| < |LinesOf(a)| + |LinesOf(b)|
    decreases |a|
  {
    hide LineEnd;
    var k := LineEnd(a);
    if k == |a| {
      LastLineJoined(a, b);
    } else {
      assert (a + b)[..k] == a[..k];
      LineEndUnique(a + b, k);
      assert (a + b)[k + 1..] == a[k + 1..] + b;
      CutLineCountsTwice(a[k + 1..], b);
    }
  }

  lemma LastLineJoined(a: string, b: string)
    requires a != "" && b != "" && LineEnd(a) == |a|
    ensures |LinesOf(a + b)| == |LinesOf(b)| && |LinesOf(a)| == 1
  {
    hide LineEnd;
    var m := LineEnd(b);
    assert a[..|a|] == a;
    assert (a + b)[..|a| + m] == a + b[..m];
    LineEndUnique(a + b, |a| + m);
    if m < |b| {
      assert (a + b)[|a| + m + 1..] == b[m + 1..];
    }
  }

  /** Reading in two pieces gives the lines of the whole exactly when the cut is at a line boundary. */
  lemma SplitReadAgrees(a: string, b: string)
    ensures LinesOf(a + b) == LinesOf(a) + LinesOf(b) <==> Whole(a) || b == ""
  {
    if Whole(a) {
      LinesConcat(a, b);
    } else if b == "" {
      assert a + b == a;
    } else {
      CutLineCountsTwice(a, b);
    }
  }

  // ---------------------------------------------------------------- what the lines say

  function EventsOf(parse: string -> Parsed, lines: seq<string>): seq<Event> {
    if lines == [] then []
    else
      var n := |lines| - 1;
      EventsOf(parse, lines[..n]) + (if parse(lines[n]).Good? then [parse(lines[n]).event] else [])
  }

  /** Findings about single lines; `base` lines come before these. */
  function MessagesOf(parse: string -> Parsed, lines: seq<string>, base: nat): seq<Message> {
    if lines == [] then []
    else
      var n := |lines| - 1;
      MessagesOf(parse, lines[..n], base)
      + (if parse(lines[n]).NotJson? then [InvalidJson(base + n + 1)]
         else if parse(lines[n]).NotEvent? then [InvalidEvent(base + n + 1)]
         else [])
  }

  /** The findings of a read: each line that is not JSON, or JSON but no event, under its number, and no other. */
  lemma {:induction false} MessagesMean(parse: string -> Parsed, lines: seq<string>, base: nat, m: Message)
    ensures m in MessagesOf(parse, lines, base) <==>
              exists k :: 0 <= k < |lines| && ((parse(lines[k]).NotJson? && m == InvalidJson(base + k + 1))
                                               || (parse(lines[k]).NotEvent? && m == InvalidEvent(base + k + 1)))
  {
    if lines != [] {
      var n := |lines| - 1;
      MessagesMean(parse, lines[..n], base, m);
      assert forall k :: 0 <= k < n ==> lines[..n][k] == lines[k];
    }
  }

  lemma {:induction false} EventsMean(parse: string -> Parsed, lines: seq<string>, e: Event)
    ensures e in EventsOf(parse, lines) <==> exists k :: 0 <= k < |lines| && parse(lines[k]) == Good(e)
  {
    if lines != [] {
      var n := |lines| - 1;
      EventsMean(parse, lines[..n], e);
      assert forall k :: 0 <= k < n ==> lines[..n][k] == lines[k];
    }
  }

  /** The lines, each with its newline again. */
  function Joined(lines: seq<string>): string {
    if lines == [] then "" else lines[0] + "\n" + Joined(lines[1..])
  }

  /** Whole text is its lines and nothing else, and no line holds a newline. */
  lemma {:induction false} LinesJoin(text: string)
    requires Whole(text)
    ensures Joined(LinesOf(text)) == text
    ensures forall k :: 0 <= k < |LinesOf(text)| ==> '\n' !in LinesOf(text)[k]
    decreases |text|
  {
    if text != "" {
      var r := LineEnd(text);
      assert text == text[..r] + "\n" + text[r + 1..];
      LinesJoin(text[r + 1..]);
    }
  }

  lemma {:induction false} EventsConcat(parse: string -> Parsed, s: seq<string>, t: seq<string>)
    ensures EventsOf(parse, s + t) == EventsOf(parse, s) + EventsOf(parse, t)
  {
    if t == [] {
      assert s + t == s;
    } else {
      assert (s + t)[..|s + t| - 1] == s + t[..|t| - 1];
      EventsConcat(parse, s, t[..|t| - 1]);
    }
  }

  lemma {:induction false} MessagesConcat(parse: string -> Parsed, s: seq<string>, t: seq<string>, base: nat)
    ensures MessagesOf(parse, s + t, base) == MessagesOf(parse, s, base) + MessagesOf(parse, t, base + |s|)
  {
    if t == [] {
      assert s + t == s;
    } else {
      assert (s + t)[..|s + t| - 1] == s + t[..|t| - 1];
      MessagesConcat(parse, s, t[..|t| - 1], base);
    }
  }

  predicate AboutLines(messages: seq<Message>, base: nat, last: nat) {
    forall k :: 0 <= k < |messages| ==>
      || (messages[k].InvalidJson? && base < messages[k].line <= last)
      || (messages[k].InvalidEvent? && base < messages[k].line <= last)
  }

  lemma {:induction false} MessagesAboutLines(parse: string -> Parsed, lines: seq<string>, base: nat)
    ensures AboutLines(MessagesOf(parse, lines, base), base, base + |lines|)
  {
    if lines != [] {
      MessagesAboutLines(parse, lines[..|lines| - 1], base);
    }
  }

  lemma {:induction false} MessagesPrefixShorter(parse: string -> Parsed, lines: seq<string>, base: nat, k: nat)
    requires k <= |lines|
    ensures |MessagesOf(parse, lines[..k], base)| <= |MessagesOf(parse, lines, base)|
    ensures |EventsOf(parse, lines[..k])| <= |EventsOf(parse, lines)|
  {
    assert lines == lines[..k] + lines[k..];
    MessagesConcat(parse, lines[..k], lines[k..], base);
    EventsConcat(parse, lines[..k], lines[k..]);
  }

  // ---------------------------------------------------------------- retained warnings

  const MAX_RETAINED_WARNINGS := 256

  function MessagesIn(warnings: seq<Warning>): seq<Message> {
    seq(|warnings|, k requires 0 <= k < |warnings| => warnings[k].message)
  }

  ghost predicate StickyIn(warnings: seq<Warning>) {
    exists k :: 0 <= k < |warnings| && warnings[k].sticky
  }

  /** First position holding the message, or the length. */
  function Find(warnings: seq<Warning>, message: Message): (r: nat)
    ensures r <= |warnings|
    ensures forall k :: 0 <= k < r ==> warnings[k].message != message
    ensures r < |warnings| ==> warnings[r].message == message
  {
    if warnings == [] || warnings[0].message == message then 0 else 1 + Find(warnings[1..], message)
  }

  function FirstTransient(warnings: seq<Warning>): (r: nat)
    ensures r <= |warnings|
    ensures forall k :: 0 <= k < r ==> warnings[k].sticky
    ensures r < |warnings| ==> !warnings[r].sticky
  {
    if warnings == [] || !warnings[0].sticky then 0 else 1 + FirstTransient(warnings[1..])
  }

  /** A repeat is refreshed in place; a new finding is appended, evicting a transient one beyond the cap. */
  function Recorded(warnings: seq<Warning>, message: Message, now: int, sticky: bool): seq<Warning> {
    var at := Find(warnings, message);
    if at < |warnings| then warnings[at := Warning(message, now, warnings[at].sticky || sticky)]
    else
      var grown := warnings + [Warning(message, now, sticky)];
      if |grown| <= MAX_RETAINED_WARNINGS then grown
      else
        var drop := if FirstTransient(grown) < |grown| then FirstTransient(grown) else 0;
        grown[..drop] + grown[drop + 1..]
  }

  /** Recording never loses the last sticky finding, and makes a sticky one present. */
  lemma RecordedKeepsSticky(warnings: seq<Warning>, message: Message, now: int, sticky: bool)
    requires StickyIn(warnings) || sticky
    ensures StickyIn(Recorded(warnings, message, now, sticky))
  {
    var at := Find(warnings, message);
    var after := Recorded(warnings, message, now, sticky);
    if at < |warnings| {
      if StickyIn(warnings) {
        var k :| 0 <= k < |warnings| && warnings[k].sticky;
        assert after[k].sticky;
      } else {
        assert after[at].sticky;
      }
    } else {
      var grown := warnings + [Warning(message, now, sticky)];
      var k :| 0 <= k < |grown| && grown[k].sticky by {
        if StickyIn(warnings) {
          var j :| 0 <= j < |warnings| && warnings[j].sticky;
          assert grown[j].sticky;
        } else {
          assert grown[|warnings|].sticky;
        }
      }
      if |grown| > MAX_RETAINED_WARNINGS {
        if FirstTransient(grown) < |grown| {
          var drop := FirstTransient(grown);
          assert after[if k < drop then k else k - 1].sticky;
        } else {
          assert after[0] == grown[1];
        }
      } else {
        assert after[k].sticky;
      }
    }
  }

  lemma RecordedStaysBounded(warnings: seq<Warning>, message: Message, now: int, sticky: bool)
    requires |warnings| <= MAX_RETAINED_WARNINGS
    ensures |Recorded(warnings, message, now, sticky)| <= MAX_RETAINED_WARNINGS
  {
  }

  lemma RecordedNew(warnings: seq<Warning>, message: Message, now: int, sticky: bool)
    requires message !in MessagesIn(warnings) && |warnings| < MAX_RETAINED_WARNINGS
    ensures Recorded(warnings, message, now, sticky) == warnings + [Warning(message, now, sticky)]
    ensures MessagesIn(Recorded(warnings, message, now, sticky)) == MessagesIn(warnings) + [message]
  {
    assert forall k | 0 <= k < |warnings| :: MessagesIn(warnings)[k] == warnings[k].message;
  }
}
