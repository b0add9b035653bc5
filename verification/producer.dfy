/**
 * The line producer (`ProdutorLinhas`): reads a file line by line with a 1-based
 * counter and publishes the even (`PARES`) or odd (`IMPARES`) lines as work items.
 * The file is an input (`None` when it does not exist), and so is the first line
 * number at which the thread's interrupt flag is seen set.
 */
module Producer {
  import opened Wrappers
  import opened Messages

  /** `TipoLeitura`. */
  datatype Mode = Pares | Impares

  const TwoTo31: int := 0x8000_0000
  const TwoTo32: int := 0x1_0000_0000

  /** Java's `(int)` cast of a `long`: keeps the low 32 bits, as a signed value. */
  function ToInt32(n: int): (r: int)
    ensures -TwoTo31 <= r < TwoTo31
    ensures (r - n) % TwoTo32 == 0
    ensures 0 <= n < TwoTo31 ==> r == n
  {
    var low := n % TwoTo32;
    if low >= TwoTo31 then low - TwoTo32 else low
  }

  lemma ToInt32KeepsParity(n: int)
    ensures ToInt32(n) % 2 == n % 2
  {
    var q := n / TwoTo32;
    var low := n % TwoTo32;
    EvenMultiple(q, TwoTo31);
    ShiftByEven(low, q * TwoTo32);
    ShiftByEven(low, -TwoTo32);
  }

  lemma EvenMultiple(q: int, h: int)
    ensures (q * (2 * h)) % 2 == 0
  {
    assert q * (2 * h) == 2 * (q * h);
  }

  lemma ShiftByEven(a: int, e: int)
    requires e % 2 == 0
    ensures (a + e) % 2 == a % 2
  {
  }

  /** Whether the producer of this mode publishes line number n. */
  predicate Selects(mode: Mode, n: int) {
    var even := n % 2 == 0;
    (mode == Pares && even) || (mode == Impares && !even)
  }

  /** The message for line number n: its text and its "linha" property. */
  function Item(n: nat, text: string): WorkItem {
    WorkItem(ToInt32(n), text)
  }

  /** The items published for the lines read, numbered from 1, in file order. */
  function Produce(mode: Mode, lines: seq<string>): seq<WorkItem>
    decreases |lines|
  {
    if |lines| == 0 then []
    else
      var n := |lines|;
      Produce(mode, lines[..n - 1]) + (if Selects(mode, n) then [Item(n, lines[n - 1])] else [])
  }

  /** Every line read, as an item, in file order. */
  function AllItems(lines: seq<string>): (items: seq<WorkItem>)
    ensures |items| == |lines|
    ensures forall k :: 0 <= k < |lines| ==> items[k] == Item(k + 1, lines[k])
  {
    seq(|lines|, k requires 0 <= k < |lines| => Item(k + 1, lines[k]))
  }

  /** `PARES` publishes exactly the even-numbered lines, `IMPARES` exactly the odd ones,
      each with its own text and its 1-based number, in file order. */
  lemma {:induction false} ProduceSelectsByParity(mode: Mode, lines: seq<string>)
    ensures mode == Pares ==> (Produce(mode, lines)
      == seq(|lines| / 2, k requires 0 <= k < |lines| / 2 => Item(2 * k + 2, lines[2 * k + 1])))
    ensures mode == Impares ==> (Produce(mode, lines)
      == seq((|lines| + 1) / 2, k requires 0 <= k < (|lines| + 1) / 2 => Item(2 * k + 1, lines[2 * k])))
    decreases |lines|
  {
    if |lines| > 0 {
      var n := |lines|;
      var prefix := lines[..n - 1];
      ProduceSelectsByParity(mode, prefix);
      assert forall k :: 0 <= k < n - 1 ==> prefix[k] == lines[k];
    }
  }

  /** The two producers split the file: together they publish every line exactly once
      (as multisets, their outputs add up to the whole file), and no item is published by both. */
  lemma PartitionIsExact(lines: seq<string>)
    ensures multiset(Produce(Pares, lines)) + multiset(Produce(Impares, lines)) == multiset(AllItems(lines))
    ensures forall x :: x in Produce(Pares, lines) ==> x !in Produce(Impares, lines)
  {
    PartitionCoversFile(lines);
    ProducedParity(Pares, lines);
    ProducedParity(Impares, lines);
  }

  lemma {:induction false} PartitionCoversFile(lines: seq<string>)
    ensures multiset(Produce(Pares, lines)) + multiset(Produce(Impares, lines)) == multiset(AllItems(lines))
    decreases |lines|
  {
    if |lines| > 0 {
      var n := |lines|;
      var prefix := lines[..n - 1];
      var x := Item(n, lines[n - 1]);
      PartitionCoversFile(prefix);
      AllItemsStep(lines);
      var p, i := Produce(Pares, prefix), Produce(Impares, prefix);
      if Selects(Pares, n) {
        assert multiset(Produce(Pares, lines)) == multiset(p) + multiset{x};
        assert multiset(Produce(Impares, lines)) == multiset(i);
      } else {
        assert multiset(Produce(Pares, lines)) == multiset(p);
        assert multiset(Produce(Impares, lines)) == multiset(i) + multiset{x};
      }
    }
  }

  lemma AllItemsStep(lines: seq<string>)
    requires |lines| > 0
    ensures multiset(AllItems(lines))
      == multiset(AllItems(lines[..|lines| - 1])) + multiset{Item(|lines|, lines[|lines| - 1])}
  {
    assert AllItems(lines) == AllItems(lines[..|lines| - 1]) + [Item(|lines|, lines[|lines| - 1])];
  }

  /** Every item a producer publishes carries a "linha" of the producer's parity. */
  lemma {:induction false} ProducedParity(mode: Mode, lines: seq<string>)
    ensures forall x :: x in Produce(mode, lines) ==> Selects(mode, x.linha)
    decreases |lines|
  {
    if |lines| > 0 {
      var n := |lines|;
      ProducedParity(mode, lines[..n - 1]);
      ToInt32KeepsParity(n);
    }
  }

  /** Stopping early publishes a prefix of what the whole file would have published. */
  lemma {:induction false} ProducePrefix(mode: Mode, lines: seq<string>, j: nat)
    requires j <= |lines|
    ensures |Produce(mode, lines[..j])| <= |Produce(mode, lines)|
    ensures Produce(mode, lines[..j]) == Produce(mode, lines)[..|Produce(mode, lines[..j])|]
    decreases |lines|
  {
    if j < |lines| {
      var n := |lines|;
      assert lines[..n - 1][..j] == lines[..j];
      ProducePrefix(mode, lines[..n - 1], j);
    } else {
      assert lines[..j] == lines;
    }
  }

  /** With fewer than 2^31 lines, the published line numbers increase strictly and
      each item's text is the line with that number. */
  lemma ProduceInFileOrder(mode: Mode, lines: seq<string>)
    requires |lines| < TwoTo31
    ensures var items := Produce(mode, lines);
      (forall i, j :: 0 <= i < j < |items| ==> items[i].linha < items[j].linha)
      && (forall i :: 0 <= i < |items| ==>
            1 <= items[i].linha <= |lines| && items[i].text == lines[items[i].linha - 1])
  {
    ProduceSelectsByParity(mode, lines);
  }

  // ---------------------------------------------------------------------------
  // The thread body.

  /** What the producer writes to the log. */
  datatype LogEntry = Started(mode: Mode) | FileNotFound(path: string) | Finished(mode: Mode)

  /** The interrupt flag, once set, stays set: it is seen before every line numbered
      at least `interruptAt`. */
  predicate Interrupted(interruptAt: Option<nat>, n: nat) {
    interruptAt.Some? && n >= interruptAt.value
  }

  /** How many lines are read before the loop stops. */
  function LinesRead(count: nat, interruptAt: Option<nat>): (r: nat)
    ensures r <= count
    ensures forall n :: 1 <= n <= r ==> !Interrupted(interruptAt, n)
    ensures r < count ==> Interrupted(interruptAt, r + 1)
  {
    match interruptAt
    case None => count
    case Some(k) => if k == 0 then 0 else if k - 1 < count then k - 1 else count
  }

  /** `run()`: a missing file logs one error and publishes nothing; otherwise each line
      read is checked for interruption, numbered, and published when selected. */
  method Run(mode: Mode, path: string, file: Option<seq<string>>, interruptAt: Option<nat>)
    returns (published: seq<WorkItem>, log: seq<LogEntry>)
    ensures file.None? ==> published == [] && log == [Started(mode), FileNotFound(path)]
    ensures file.Some? ==> log == [Started(mode), Finished(mode)]
    ensures file.Some? ==>
      published == Produce(mode, file.value[..LinesRead(|file.value|, interruptAt)])
  {
    log := [Started(mode)];
    if file.None? {
      published := [];
      log := log + [FileNotFound(path)];
      return;
    }
    var lines := file.value;
    published := [];
    var counter: nat := 1;
    while counter <= |lines|
      invariant 1 <= counter <= |lines| + 1
      invariant counter - 1 <= LinesRead(|lines|, interruptAt)
      invariant published == Produce(mode, lines[..counter - 1])
    {
      if Interrupted(interruptAt, counter) {
        break;
      }
      assert lines[..counter] == lines[..counter - 1] + [lines[counter - 1]];
      assert lines[..counter][..counter - 1] == lines[..counter - 1];
      if Selects(mode, counter) {
        published := published + [Item(counter, lines[counter - 1])];
      }
      counter := counter + 1;
    }
    log := log + [Finished(mode)];
  }
}
