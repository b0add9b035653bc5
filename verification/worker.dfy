/**
 * The occurrence worker (`ProcessadorPalavras`): turns one line into one unit event
 * per occurrence of each target word, in target-list order.
 */
module Worker {
  import opened Wrappers
  import opened Messages
  import opened WordMatch

  /** `n` unit events for term `w` from worker `id`. */
  function UnitEvents(id: int, w: string, n: nat): (es: seq<Event>)
    ensures |es| == n
    ensures forall k :: 0 <= k < n ==> es[k] == Event(w, 1, id)
  {
    seq(n, _ => Event(w, 1, id))
  }

  /** Total occurrences of the listed targets in a line; a word listed twice counts twice. */
  function LineOccurrences(line: Option<string>, targets: seq<string>): nat
    decreases |targets|
  {
    if |targets| == 0 then 0
    else CountOccurrences(line, Some(targets[0])) + LineOccurrences(line, targets[1..])
  }

  /** `processarLinha`: for each target in list order, one event per occurrence. */
  function ProcessLine(id: int, targets: seq<string>, line: Option<string>): (es: seq<Event>)
    ensures |es| == LineOccurrences(line, targets)
    ensures forall k :: 0 <= k < |es| ==>
      es[k].occurrences == 1 && es[k].origin == id && es[k].term in targets
    decreases |targets|
  {
    if |targets| == 0 then []
    else
      UnitEvents(id, targets[0], CountOccurrences(line, Some(targets[0])))
      + ProcessLine(id, targets[1..], line)
  }

  /** The message listener: only text messages are processed; any other message yields nothing. */
  function OnMessage(id: int, targets: seq<string>, msg: Message): (es: seq<Event>)
    ensures !msg.TextMessage? ==> es == []
    ensures msg.TextMessage? ==> es == ProcessLine(id, targets, msg.text)
    ensures msg.TextMessage? ==> |es| == LineOccurrences(msg.text, targets)
    ensures forall k :: 0 <= k < |es| ==>
      es[k].occurrences == 1 && es[k].origin == id && es[k].term in targets
  {
    match msg
    case TextMessage(text) => ProcessLine(id, targets, text)
    case _ => []
  }

  /** Events come out grouped by the target list: the events for a concatenated list
      are those of its first part followed by those of its second part. */
  lemma {:induction false} ProcessLineConcat(id: int, ts1: seq<string>, ts2: seq<string>, line: Option<string>)
    ensures ProcessLine(id, ts1 + ts2, line) == ProcessLine(id, ts1, line) + ProcessLine(id, ts2, line)
    decreases |ts1|
  {
    if |ts1| == 0 {
      assert ts1 + ts2 == ts2;
    } else {
      assert (ts1 + ts2)[0] == ts1[0];
      assert (ts1 + ts2)[1..] == ts1[1..] + ts2;
      ProcessLineConcat(id, ts1[1..], ts2, line);
    }
  }

  lemma {:induction false} UnitEventsTermTotal(id: int, w: string, n: nat, t: string)
    ensures TermTotal(UnitEvents(id, w, n), t) == if w == t then n else 0
    decreases n
  {
    if n > 0 {
      assert UnitEvents(id, w, n)[1..] == UnitEvents(id, w, n - 1);
      UnitEventsTermTotal(id, w, n - 1, t);
    }
  }

  lemma StepTotal(a: int, b: int, c: int, m: int, same: bool)
    requires a == (if same then c else 0) && b == c * m
    ensures a + b == c * ((if same then 1 else 0) + m)
  {
  }

  lemma MultisetHead(targets: seq<string>, t: string)
    requires |targets| > 0
    ensures multiset(targets)[t] == (if targets[0] == t then 1 else 0) + multiset(targets[1..])[t]
  {
    assert targets == [targets[0]] + targets[1..];
  }

  /** For each term, the line yields exactly its occurrence count once per listing of
      that term in the target list (events for a term carry occurrence 1 each). */
  lemma {:induction false} ProcessLineTermTotal(id: int, targets: seq<string>, line: Option<string>, t: string)
    ensures TermTotal(ProcessLine(id, targets, line), t)
      == CountOccurrences(line, Some(t)) * multiset(targets)[t]
    decreases |targets|
  {
    if |targets| > 0 {
      var w := targets[0];
      var n := CountOccurrences(line, Some(w));
      var head := UnitEvents(id, w, n);
      var rest := ProcessLine(id, targets[1..], line);
      TermTotalConcat(head, rest, t);
      UnitEventsTermTotal(id, w, n, t);
      ProcessLineTermTotal(id, targets[1..], line, t);
      MultisetHead(targets, t);
      StepTotal(TermTotal(head, t), TermTotal(rest, t),
        CountOccurrences(line, Some(t)), multiset(targets[1..])[t], w == t);
    }
  }
}
