/** The two message shapes carried by the broker, and totals over event streams. */
module Messages {
  import opened Wrappers

  /** A line on the work queue: the text and its "linha" int property. */
  datatype WorkItem = WorkItem(linha: int, text: string)

  /** A map message on the result topic: "termo", "ocorrencias", "origemWorkerId". */
  datatype Event = Event(term: string, occurrences: int, origin: int)

  /** What a listener can be handed: a text message (whose body may be null),
      a map message, or any other kind of message. */
  datatype Message = TextMessage(text: Option<string>) | MapMessage(event: Event) | OtherMessage

  /** Sum of the occurrence fields of the events carrying term `t`. */
  function TermTotal(es: seq<Event>, t: string): int
    decreases |es|
  {
    if |es| == 0 then 0
    else (if es[0].term == t then es[0].occurrences else 0) + TermTotal(es[1..], t)
  }

  /** Sum of the occurrence fields of all events. */
  function OccurrenceTotal(es: seq<Event>): int
    decreases |es|
  {
    if |es| == 0 then 0 else es[0].occurrences + OccurrenceTotal(es[1..])
  }

  lemma {:induction false} TermTotalConcat(a: seq<Event>, b: seq<Event>, t: string)
    ensures TermTotal(a + b, t) == TermTotal(a, t) + TermTotal(b, t)
    decreases |a|
  {
    if |a| == 0 {
      assert a + b == b;
    } else {
      assert (a + b)[1..] == a[1..] + b;
      TermTotalConcat(a[1..], b, t);
    }
  }

  predicate AllUnit(es: seq<Event>) {
    forall k :: 0 <= k < |es| ==> es[k].occurrences == 1
  }

  /** With unit events, the occurrence total is the number of events. */
  lemma {:induction false} UnitTotalIsLength(es: seq<Event>)
    requires AllUnit(es)
    ensures OccurrenceTotal(es) == |es|
    decreases |es|
  {
    if |es| > 0 {
      UnitTotalIsLength(es[1..]);
    }
  }
}
