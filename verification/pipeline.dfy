/**
 * One run end to end: the two producers publish the odd and even lines of the file, the
 * broker hands each work item to one of the competing workers in some order, the workers'
 * events reach the monitor in some order, and the monitor merges them into its seeded map.
 * The final counts do not depend on either order nor on which worker took which line.
 */
module Pipeline {
  import opened Wrappers
  import opened JavaText
  import JavaTextExamples
  import opened Messages
  import opened WordMatch
  import opened Worker
  import opened Monitor
  import opened Producer
  import opened Sums

  /** A work item as taken by worker `worker`. */
  datatype Delivery = Delivery(item: WorkItem, worker: int)

  function Items(ds: seq<Delivery>): (items: seq<WorkItem>)
    ensures |items| == |ds|
    ensures forall k :: 0 <= k < |ds| ==> items[k] == ds[k].item
  {
    seq(|ds|, k requires 0 <= k < |ds| => ds[k].item)
  }

  /** The events the workers publish, delivery by delivery. */
  function WorkerEvents(words: seq<string>, ds: seq<Delivery>): seq<Event>
    decreases |ds|
  {
    if |ds| == 0 then []
    else ProcessLine(ds[0].worker, words, Some(ds[0].item.text)) + WorkerEvents(words, ds[1..])
  }

  /** Whole-word, case-insensitive occurrences of `t` in one work item's line. */
  function TextCount(t: string): WorkItem -> int {
    (item: WorkItem) => CountOccurrences(Some(item.text), Some(t))
  }

  /** Occurrences of all the listed words in one work item's line. */
  function LineCount(words: seq<string>): WorkItem -> int {
    (item: WorkItem) => LineOccurrences(Some(item.text), words)
  }

  /** Occurrences of `t` over the lines of the file. */
  function FileCount(lines: seq<string>, t: string): int
    decreases |lines|
  {
    if |lines| == 0 then 0 else CountOccurrences(Some(lines[0]), Some(t)) + FileCount(lines[1..], t)
  }

  /** A run: the deliveries carry exactly the items the two producers published, and the
      monitor receives exactly the events the workers published, in any order. */
  predicate IsRun(file: seq<string>, words: seq<string>, ds: seq<Delivery>, delivered: seq<Event>) {
    && multiset(Items(ds)) == multiset(Produce(Pares, file)) + multiset(Produce(Impares, file))
    && multiset(delivered) == multiset(WorkerEvents(words, ds))
  }

  /** The monitor's final map. */
  function Final(words: seq<string>, delivered: seq<Event>): Counts {
    Fold(Seed(words), delivered)
  }

  lemma {:induction false} WorkerEventsTermTotal(words: seq<string>, ds: seq<Delivery>, t: string)
    ensures TermTotal(WorkerEvents(words, ds), t) == SumOf(Items(ds), TextCount(t)) * multiset(words)[t]
    decreases |ds|
  {
    if |ds| > 0 {
      var head := ProcessLine(ds[0].worker, words, Some(ds[0].item.text));
      TermTotalConcat(head, WorkerEvents(words, ds[1..]), t);
      ProcessLineTermTotal(ds[0].worker, words, Some(ds[0].item.text), t);
      WorkerEventsTermTotal(words, ds[1..], t);
      ItemsStep(ds, TextCount(t));
      SumStep(TextCount(t)(ds[0].item), SumOf(Items(ds[1..]), TextCount(t)), multiset(words)[t]);
    }
  }

  lemma ItemsStep(ds: seq<Delivery>, f: WorkItem -> int)
    requires |ds| > 0
    ensures SumOf(Items(ds), f) == f(ds[0].item) + SumOf(Items(ds[1..]), f)
  {
    assert Items(ds)[1..] == Items(ds[1..]);
  }

  lemma SumStep(a: int, b: int, m: int)
    ensures a * m + b * m == (a + b) * m
  {
  }

  lemma {:induction false} WorkerEventsLength(words: seq<string>, ds: seq<Delivery>)
    ensures |WorkerEvents(words, ds)| == SumOf(Items(ds), LineCount(words))
    ensures AllUnit(WorkerEvents(words, ds))
    decreases |ds|
  {
    if |ds| > 0 {
      WorkerEventsLength(words, ds[1..]);
      ItemsStep(ds, LineCount(words));
      var head := ProcessLine(ds[0].worker, words, Some(ds[0].item.text));
      var es := WorkerEvents(words, ds);
      assert es == head + WorkerEvents(words, ds[1..]);
      forall k | 0 <= k < |es| ensures es[k].occurrences == 1 {
        if k >= |head| {
          assert es[k] == WorkerEvents(words, ds[1..])[k - |head|];
        }
      }
    }
  }

  /** Summing over items that carry the file's lines, in file order, gives the file count. */
  lemma {:induction false} ItemsCarryLines(items: seq<WorkItem>, lines: seq<string>, t: string)
    requires |items| == |lines|
    requires forall k :: 0 <= k < |items| ==> items[k].text == lines[k]
    ensures SumOf(items, TextCount(t)) == FileCount(lines, t)
    decreases |items|
  {
    if |items| > 0 {
      ItemsCarryLines(items[1..], lines[1..], t);
    }
  }

  lemma {:induction false} WorkerEventsTerms(words: seq<string>, ds: seq<Delivery>)
    ensures forall e :: e in WorkerEvents(words, ds) ==> e.term in words
    decreases |ds|
  {
    if |ds| > 0 {
      WorkerEventsTerms(words, ds[1..]);
      var head := ProcessLine(ds[0].worker, words, Some(ds[0].item.text));
      assert WorkerEvents(words, ds) == head + WorkerEvents(words, ds[1..]);
      forall e | e in head ensures e.term in words {
        var k :| 0 <= k < |head| && head[k] == e;
      }
    }
  }

  /** The monitor's keys are the trimmed seeds plus, at most, words of the list as the
      workers report them (untrimmed); no other key ever appears. */
  lemma FinalKeysAreWords(file: seq<string>, words: seq<string>, ds: seq<Delivery>,
                          delivered: seq<Event>)
    requires IsRun(file, words, ds, delivered)
    ensures forall key :: key in Final(words, delivered) ==> key in Seed(words) || key in words
  {
    WorkerEventsTerms(words, ds);
    forall key | key in Final(words, delivered)
      ensures key in Seed(words) || key in words
    {
      FoldContents(Seed(words), delivered, key);
      if key !in Seed(words) {
        var k :| 0 <= k < |delivered| && delivered[k].term == key;
        assert delivered[k] in multiset(WorkerEvents(words, ds));
      }
    }
  }

  /** The central promise: whatever the delivery order and whichever worker takes each line,
      the final count of a term is its number of whole-word occurrences in the file, times the
      number of times it appears in the word list. */
  lemma CountsAreOrderIndependent(file: seq<string>, words: seq<string>, ds: seq<Delivery>,
                                  delivered: seq<Event>, t: string)
    requires IsRun(file, words, ds, delivered)
    ensures Get(Final(words, delivered), t) == multiset(words)[t] * FileCount(file, t)
  {
    FoldPermutation(Seed(words), delivered, WorkerEvents(words, ds));
    FoldContents(Seed(words), WorkerEvents(words, ds), t);
    WorkerEventsTermTotal(words, ds, t);
    PartitionIsExact(file);
    SumOfPermutation(Items(ds), AllItems(file), TextCount(t));
    ItemsCarryLines(AllItems(file), file, t);
  }

  /** The grand total shown by the monitor is the number of occurrences of all listed words
      over all the lines of the file. */
  lemma GrandTotal(file: seq<string>, words: seq<string>, ds: seq<Delivery>, delivered: seq<Event>)
    requires IsRun(file, words, ds, delivered)
    ensures MapSum(Final(words, delivered)) == SumOf(AllItems(file), LineCount(words))
  {
    var es := WorkerEvents(words, ds);
    WorkerEventsLength(words, ds);
    assert |delivered| == |es| by {
      assert |multiset(delivered)| == |multiset(es)|;
    }
    forall k | 0 <= k < |delivered| ensures delivered[k].occurrences == 1 {
      assert delivered[k] in multiset(es);
    }
    UnitEventsTotal(words, delivered);
    PartitionIsExact(file);
    SumOfPermutation(Items(ds), AllItems(file), LineCount(words));
  }

  /** The word list of "Java, Python" keeps the blank, and the monitor's seed trims it. */
  lemma BlankAfterCommaSeedsTrimmed(words: seq<string>)
    requires words == ["Java", " Python"]
    ensures words == Split("Java, Python")
    ensures "Python" in Seed(words) && " Python" !in Seed(words)
  {
    JavaTextExamples.SplitKeepsBlanks();
    assert Trim(words[1]) == "Python";
    assert Trim(words[0]) != " Python" by {
      assert |Trim(words[0])| <= 4;
    }
  }

  /** A blank after a comma in the word field: splitting "Java, Python" gives the word list
      below, and the monitor then shows "Python" with a count that stays 0, whatever the file
      holds, since the workers search for and report " Python" untrimmed. */
  lemma BlankAfterCommaNeverCounts(file: seq<string>, words: seq<string>, ds: seq<Delivery>,
                                   delivered: seq<Event>)
    requires words == ["Java", " Python"]
    requires IsRun(file, words, ds, delivered)
    ensures words == Split("Java, Python")
    ensures "Python" in Final(words, delivered)
    ensures Get(Final(words, delivered), "Python") == 0
  {
    BlankAfterCommaSeedsTrimmed(words);
    FoldContents(Seed(words), delivered, "Python");
    CountsAreOrderIndependent(file, words, ds, delivered, "Python");
    assert multiset(words)["Python"] == 0;
  }
}
