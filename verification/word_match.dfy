/**
 * Whole-word, case-insensitive, literal occurrence counting: the behaviour of
 * `Pattern.compile("\\b" + Pattern.quote(alvo) + "\\b", CASE_INSENSITIVE)` driven by
 * `while (m.find()) count++`, specified directly over characters.
 */
module WordMatch {
  import opened Wrappers
  import opened JavaText

  /** `\b` holds at position i (0 <= i <= |t|) when exactly one of the characters
      on either side of it is a word character. */
  predicate IsBoundary(t: string, i: int) {
    0 <= i <= |t| &&
    ((i > 0 && IsWordChar(t[i - 1])) != (i < |t| && IsWordChar(t[i])))
  }

  /** The quoted target matches at i: the characters are equal up to ASCII case
      (no character of the target is a metacharacter) and both ends are boundaries. */
  predicate MatchAt(t: string, w: string, i: int) {
    0 <= i && i + |w| <= |t|
    && IsBoundary(t, i)
    && IsBoundary(t, i + |w|)
    && EqualIgnoreCase(t[i..i + |w|], w)
  }

  /** Where `find()` resumes after a match at i: at its end, or one further for an empty match. */
  function Resume(w: string, i: nat): nat {
    if |w| == 0 then i + 1 else i + |w|
  }

  /** The leftmost match at or after `from`. */
  function FindFrom(t: string, w: string, from: nat): (r: Option<nat>)
    ensures r.Some? ==> from <= r.value <= |t| && MatchAt(t, w, r.value)
    ensures r.Some? ==> forall j :: from <= j < r.value ==> !MatchAt(t, w, j)
    ensures r.None? ==> forall j :: from <= j ==> !MatchAt(t, w, j)
    decreases |t| + 1 - from
  {
    if from > |t| then None
    else if MatchAt(t, w, from) then Some(from)
    else FindFrom(t, w, from + 1)
  }

  /** The positions the scan reports, left to right, starting at `from`: every one is a
      match, each starts no earlier than where the previous one resumed (so they do not
      overlap), and every match that is not reported lies inside a reported one. */
  function MatchPositions(t: string, w: string, from: nat): (ps: seq<nat>)
    ensures forall k :: 0 <= k < |ps| ==> from <= ps[k] && MatchAt(t, w, ps[k])
    ensures forall a, b :: 0 <= a < b < |ps| ==> Resume(w, ps[a]) <= ps[b]
    decreases |t| + 1 - from
  {
    match FindFrom(t, w, from)
    case None => []
    case Some(i) => [i] + MatchPositions(t, w, Resume(w, i))
  }

  /** Match j is reported in ps, or starts strictly inside the span of a reported match. */
  predicate Covered(w: string, ps: seq<nat>, j: nat) {
    j in ps || exists k :: 0 <= k < |ps| && ps[k] < j < Resume(w, ps[k])
  }

  lemma CoveredCons(w: string, i: nat, rest: seq<nat>, j: nat)
    requires Covered(w, rest, j)
    ensures Covered(w, [i] + rest, j)
  {
    var ps := [i] + rest;
    if j !in rest {
      var k :| 0 <= k < |rest| && rest[k] < j < Resume(w, rest[k]);
      assert ps[k + 1] == rest[k];
    }
  }

  /** Every match at or after `from` that the scan does not report starts strictly inside
      the span of a reported match, so the scan misses no match it could have taken. */
  lemma {:induction false} MatchPositionsGreedy(t: string, w: string, from: nat, j: nat)
    requires from <= j && MatchAt(t, w, j)
    ensures Covered(w, MatchPositions(t, w, from), j)
    decreases |t| + 1 - from
  {
    assert FindFrom(t, w, from).Some?;
    var i := FindFrom(t, w, from).value;
    ScanStep(t, w, from, i);
    var rest := MatchPositions(t, w, Resume(w, i));
    if j < Resume(w, i) {
      assert ([i] + rest)[0] == i;
    } else {
      MatchPositionsGreedy(t, w, Resume(w, i), j);
      CoveredCons(w, i, rest, j);
    }
  }

  /** An independent description of a left-to-right non-overlapping scan from `from`:
      only matches, in order without overlap, and no match left out except inside a taken one. */
  ghost predicate IsGreedyScan(t: string, w: string, from: nat, qs: seq<nat>) {
    && (forall k :: 0 <= k < |qs| ==> from <= qs[k] && MatchAt(t, w, qs[k]))
    && (forall a, b :: 0 <= a < b < |qs| ==> Resume(w, qs[a]) <= qs[b])
    && (forall j :: from <= j && MatchAt(t, w, j) ==> Covered(w, qs, j))
  }

  /** A greedy scan from `from` starts with the leftmost match. */
  lemma GreedyScanHead(t: string, w: string, from: nat, qs: seq<nat>, i: nat)
    requires IsGreedyScan(t, w, from, qs)
    requires FindFrom(t, w, from) == Some(i)
    ensures |qs| > 0 && qs[0] == i
  {
    assert i in qs by {
      if i !in qs {
        assert false;
      }
    }
    var m :| 0 <= m < |qs| && qs[m] == i;
    assert i <= qs[0];
    if m > 0 {
      assert false;
    }
  }

  /** What follows the first position of a greedy scan is a greedy scan from where it resumes. */
  lemma GreedyScanTail(t: string, w: string, from: nat, qs: seq<nat>)
    requires IsGreedyScan(t, w, from, qs) && |qs| > 0
    ensures IsGreedyScan(t, w, Resume(w, qs[0]), qs[1..])
  {
    var r := Resume(w, qs[0]);
    var rest := qs[1..];
    forall k | 0 <= k < |rest|
      ensures r <= rest[k] && MatchAt(t, w, rest[k])
    {
      assert Resume(w, qs[0]) <= qs[k + 1];
    }
    forall a, b | 0 <= a < b < |rest| ensures Resume(w, rest[a]) <= rest[b] {
      assert Resume(w, qs[a + 1]) <= qs[b + 1];
    }
    forall j | r <= j && MatchAt(t, w, j)
      ensures Covered(w, rest, j)
    {
      assert Covered(w, qs, j);
      if j in qs {
        var a :| 0 <= a < |qs| && qs[a] == j;
        assert a != 0;
        assert rest[a - 1] == j;
      } else {
        var a :| 0 <= a < |qs| && qs[a] < j < Resume(w, qs[a]);
        assert a != 0;
        assert rest[a - 1] < j < Resume(w, rest[a - 1]);
      }
    }
  }

  /** Any greedy scan is the scan's own position sequence: the description has one solution. */
  lemma {:induction false} GreedyScanIsUnique(t: string, w: string, from: nat, qs: seq<nat>)
    requires IsGreedyScan(t, w, from, qs)
    ensures qs == MatchPositions(t, w, from)
    decreases |t| + 1 - from
  {
    match FindFrom(t, w, from)
    case None =>
      if |qs| > 0 {
        assert false;
      }
    case Some(i) =>
      GreedyScanHead(t, w, from, qs, i);
      GreedyScanTail(t, w, from, qs);
      GreedyScanIsUnique(t, w, Resume(w, i), qs[1..]);
      assert qs == [i] + qs[1..];
  }

  /** The scan's positions form a greedy scan, and they are the only one. */
  lemma GreedyScanCharacterizes(t: string, w: string, from: nat, qs: seq<nat>)
    ensures IsGreedyScan(t, w, from, qs) <==> qs == MatchPositions(t, w, from)
  {
    if qs == MatchPositions(t, w, from) {
      forall j | from <= j && MatchAt(t, w, j)
        ensures Covered(w, qs, j)
      {
        MatchPositionsGreedy(t, w, from, j);
      }
    }
    if IsGreedyScan(t, w, from, qs) {
      GreedyScanIsUnique(t, w, from, qs);
    }
  }

  /** Matching ignores ASCII case in both the text and the target. */
  lemma MatchAtIgnoresCase(t1: string, t2: string, w1: string, w2: string, i: int)
    requires EqualIgnoreCase(t1, t2) && EqualIgnoreCase(w1, w2)
    ensures MatchAt(t1, w1, i) == MatchAt(t2, w2, i)
  {
    if 0 <= i && i + |w1| <= |t1| {
      if i > 0 { FoldingKeepsWordChar(t1[i - 1], t2[i - 1]); }
      if i < |t1| { FoldingKeepsWordChar(t1[i], t2[i]); }
      if i + |w1| > 0 { FoldingKeepsWordChar(t1[i + |w1| - 1], t2[i + |w1| - 1]); }
      if i + |w1| < |t1| { FoldingKeepsWordChar(t1[i + |w1|], t2[i + |w1|]); }
    }
  }

  /** A greedy scan depends only on where the target matches and on its length. */
  lemma GreedyScanTransfer(t1: string, w1: string, t2: string, w2: string, from: nat, qs: seq<nat>)
    requires |w1| == |w2|
    requires forall i :: MatchAt(t1, w1, i) == MatchAt(t2, w2, i)
    requires IsGreedyScan(t1, w1, from, qs)
    ensures IsGreedyScan(t2, w2, from, qs)
  {
    forall k | 0 <= k < |qs| ensures from <= qs[k] && MatchAt(t2, w2, qs[k]) {
      assert MatchAt(t1, w1, qs[k]);
    }
    forall a, b | 0 <= a < b < |qs| ensures Resume(w2, qs[a]) <= qs[b] {
      assert Resume(w1, qs[a]) <= qs[b];
    }
    forall j | from <= j && MatchAt(t2, w2, j)
      ensures Covered(w2, qs, j)
    {
      assert MatchAt(t1, w1, j) && Covered(w1, qs, j);
      if j !in qs {
        var k :| 0 <= k < |qs| && qs[k] < j < Resume(w1, qs[k]);
        assert Resume(w2, qs[k]) == Resume(w1, qs[k]);
      }
    }
  }

  /** The count is the same for any spelling of text and target that differ only in ASCII case. */
  lemma {:induction false} CountIgnoresCase(t1: string, t2: string, w1: string, w2: string)
    requires EqualIgnoreCase(t1, t2) && EqualIgnoreCase(w1, w2)
    ensures CountOccurrences(Some(t1), Some(w1)) == CountOccurrences(Some(t2), Some(w2))
  {
    forall i: int ensures MatchAt(t1, w1, i) == MatchAt(t2, w2, i) {
      MatchAtIgnoresCase(t1, t2, w1, w2, i);
    }
    var ps := MatchPositions(t1, w1, 0);
    GreedyScanCharacterizes(t1, w1, 0, ps);
    GreedyScanTransfer(t1, w1, t2, w2, 0, ps);
    GreedyScanIsUnique(t2, w2, 0, ps);
  }

  /** For a target that starts and ends with a word character, a match is exactly a
      case-insensitive occurrence not flanked by a word character on either side. */
  lemma WholeWordMatch(t: string, w: string, i: int)
    requires |w| > 0 && IsWordChar(w[0]) && IsWordChar(w[|w| - 1])
    ensures MatchAt(t, w, i) <==>
      0 <= i && i + |w| <= |t| && EqualIgnoreCase(t[i..i + |w|], w)
      && (i == 0 || !IsWordChar(t[i - 1]))
      && (i + |w| == |t| || !IsWordChar(t[i + |w|]))
  {
    if 0 <= i && i + |w| <= |t| && EqualIgnoreCase(t[i..i + |w|], w) {
      assert t[i..i + |w|][0] == t[i];
      assert t[i..i + |w|][|w| - 1] == t[i + |w| - 1];
      FoldingKeepsWordChar(t[i], w[0]);
      FoldingKeepsWordChar(t[i + |w| - 1], w[|w| - 1]);
    }
  }

  /** `contarNoTexto(texto, alvo)`: 0 when either reference is null, otherwise the number
      of matches the left-to-right scan finds. */
  function CountOccurrences(text: Option<string>, target: Option<string>): nat {
    if text.None? || target.None? then 0
    else |MatchPositions(text.value, target.value, 0)|
  }

  /** The counting loop itself: one `find()` per iteration until it fails. */
  method CountByScan(text: Option<string>, target: Option<string>) returns (count: nat)
    ensures count == CountOccurrences(text, target)
  {
    if text.None? || target.None? {
      return 0;
    }
    var t, w := text.value, target.value;
    count := 0;
    var from: nat := 0;
    var found := FindFrom(t, w, from);
    while found.Some?
      invariant from <= |t| + 1
      invariant found == FindFrom(t, w, from)
      invariant count + |MatchPositions(t, w, from)| == |MatchPositions(t, w, 0)|
      decreases |t| + 1 - from
    {
      count := count + 1;
      from := Resume(w, found.value);
      found := FindFrom(t, w, from);
    }
  }

  // ---------------------------------------------------------------------------
  // Single steps of the scan, for following it on a concrete line.

  lemma FindFromSkip(t: string, w: string, from: nat)
    requires from <= |t| && !MatchAt(t, w, from)
    ensures FindFrom(t, w, from) == FindFrom(t, w, from + 1)
  {
  }

  lemma FindFromPast(t: string, w: string, from: nat)
    requires from > |t|
    ensures FindFrom(t, w, from) == None
  {
  }

  lemma FindFromTooShort(t: string, w: string, from: nat)
    requires from + |w| > |t|
    ensures FindFrom(t, w, from) == None
  {
  }

  lemma ScanStep(t: string, w: string, from: nat, i: nat)
    requires FindFrom(t, w, from) == Some(i)
    ensures MatchPositions(t, w, from) == [i] + MatchPositions(t, w, Resume(w, i))
  {
  }

  lemma ScanDone(t: string, w: string, from: nat)
    requires FindFrom(t, w, from) == None
    ensures MatchPositions(t, w, from) == []
  {
  }
}


/** Worked examples of the counting rule on concrete lines, each followed step by step. */
module WordMatchExamples {
  import opened Wrappers
  import opened WordMatch

  const Golang := "Golang and Go are different"

  lemma GolangMisses0()
    ensures !MatchAt(Golang, "Go", 0)
      && !MatchAt(Golang, "Go", 1)
      && !MatchAt(Golang, "Go", 2)
      && !MatchAt(Golang, "Go", 3)
  {
  }

  lemma GolangMisses4()
    ensures !MatchAt(Golang, "Go", 4)
      && !MatchAt(Golang, "Go", 5)
      && !MatchAt(Golang, "Go", 6)
      && !MatchAt(Golang, "Go", 7)
  {
  }

  lemma GolangMisses8()
    ensures !MatchAt(Golang, "Go", 8)
      && !MatchAt(Golang, "Go", 9)
      && !MatchAt(Golang, "Go", 10)
  {
  }

  lemma GolangMisses13()
    ensures !MatchAt(Golang, "Go", 13)
      && !MatchAt(Golang, "Go", 14)
      && !MatchAt(Golang, "Go", 15)
      && !MatchAt(Golang, "Go", 16)
      && !MatchAt(Golang, "Go", 17)
  {
  }

  lemma GolangMisses18()
    ensures !MatchAt(Golang, "Go", 18)
      && !MatchAt(Golang, "Go", 19)
      && !MatchAt(Golang, "Go", 20)
      && !MatchAt(Golang, "Go", 21)
      && !MatchAt(Golang, "Go", 22)
  {
  }

  lemma GolangMisses23()
    ensures !MatchAt(Golang, "Go", 23)
      && !MatchAt(Golang, "Go", 24)
      && !MatchAt(Golang, "Go", 25)
      && !MatchAt(Golang, "Go", 26)
      && !MatchAt(Golang, "Go", 27)
  {
  }

  lemma GolangFirst()
    ensures FindFrom(Golang, "Go", 0) == Some(11)
  {
    GolangMisses0();
    GolangMisses4();
    GolangMisses8();
    assert MatchAt(Golang, "Go", 11);
    FindFromSkip(Golang, "Go", 0);
    FindFromSkip(Golang, "Go", 1);
    FindFromSkip(Golang, "Go", 2);
    FindFromSkip(Golang, "Go", 3);
    FindFromSkip(Golang, "Go", 4);
    FindFromSkip(Golang, "Go", 5);
    FindFromSkip(Golang, "Go", 6);
    FindFromSkip(Golang, "Go", 7);
    FindFromSkip(Golang, "Go", 8);
    FindFromSkip(Golang, "Go", 9);
    FindFromSkip(Golang, "Go", 10);
  }

  lemma GolangRest()
    ensures FindFrom(Golang, "Go", 13) == None
  {
    GolangMisses13();
    GolangMisses18();
    GolangMisses23();
    FindFromSkip(Golang, "Go", 13);
    FindFromSkip(Golang, "Go", 14);
    FindFromSkip(Golang, "Go", 15);
    FindFromSkip(Golang, "Go", 16);
    FindFromSkip(Golang, "Go", 17);
    FindFromSkip(Golang, "Go", 18);
    FindFromSkip(Golang, "Go", 19);
    FindFromSkip(Golang, "Go", 20);
    FindFromSkip(Golang, "Go", 21);
    FindFromSkip(Golang, "Go", 22);
    FindFromSkip(Golang, "Go", 23);
    FindFromSkip(Golang, "Go", 24);
    FindFromSkip(Golang, "Go", 25);
    FindFromSkip(Golang, "Go", 26);
    FindFromSkip(Golang, "Go", 27);
    FindFromPast(Golang, "Go", 28);
  }

  /** "Go" inside "Golang" is not a whole word, so only the standalone "Go" counts. */
  lemma GoCountsOnceBesideGolang()
    ensures MatchPositions(Golang, "Go", 0) == [11]
    ensures CountOccurrences(Some(Golang), Some("Go")) == 1
  {
    GolangFirst();
    GolangRest();
    ScanStep(Golang, "Go", 0, 11);
    ScanDone(Golang, "Go", 13);
  }

  lemma JavaMisses4()
    ensures !MatchAt("Java is great", "java", 4)
      && !MatchAt("Java is great", "java", 5)
      && !MatchAt("Java is great", "java", 6)
      && !MatchAt("Java is great", "java", 7)
      && !MatchAt("Java is great", "java", 8)
  {
  }

  lemma JavaMisses9()
    ensures !MatchAt("Java is great", "java", 9)
      && !MatchAt("Java is great", "java", 10)
      && !MatchAt("Java is great", "java", 11)
      && !MatchAt("Java is great", "java", 12)
      && !MatchAt("Java is great", "java", 13)
  {
  }

  /** A lower-case target finds a capitalised word. */
  lemma JavaMatchesIgnoringCase()
    ensures CountOccurrences(Some("Java is great"), Some("java")) == 1
  {
    var t := "Java is great";
    assert MatchAt(t, "java", 0);
    JavaMisses4();
    JavaMisses9();
    FindFromSkip(t, "java", 4);
    FindFromSkip(t, "java", 5);
    FindFromSkip(t, "java", 6);
    FindFromSkip(t, "java", 7);
    FindFromSkip(t, "java", 8);
    FindFromSkip(t, "java", 9);
    FindFromSkip(t, "java", 10);
    FindFromSkip(t, "java", 11);
    FindFromSkip(t, "java", 12);
    FindFromSkip(t, "java", 13);
    FindFromPast(t, "java", 14);
    ScanStep(t, "java", 0, 0);
    ScanDone(t, "java", 4);
  }

  /** A regex metacharacter in the target stands for itself. */
  lemma DotIsLiteral()
    ensures CountOccurrences(Some("a.b"), Some(".")) == 1
    ensures CountOccurrences(Some("axb"), Some(".")) == 0
  {
    assert !MatchAt("a.b", ".", 0) && MatchAt("a.b", ".", 1);
    assert !MatchAt("a.b", ".", 2) && !MatchAt("a.b", ".", 3);
    FindFromSkip("a.b", ".", 0);
    FindFromSkip("a.b", ".", 2);
    FindFromSkip("a.b", ".", 3);
    FindFromPast("a.b", ".", 4);
    ScanStep("a.b", ".", 0, 1);
    ScanDone("a.b", ".", 2);
    assert !MatchAt("axb", ".", 0) && !MatchAt("axb", ".", 1);
    assert !MatchAt("axb", ".", 2) && !MatchAt("axb", ".", 3);
    FindFromSkip("axb", ".", 0);
    FindFromSkip("axb", ".", 1);
    FindFromSkip("axb", ".", 2);
    FindFromSkip("axb", ".", 3);
    FindFromPast("axb", ".", 4);
    ScanDone("axb", ".", 0);
  }

  lemma CommaBlankMisses0()
    ensures !MatchAt("Java, Python", " Python", 0)
      && !MatchAt("Java, Python", " Python", 1)
      && !MatchAt("Java, Python", " Python", 2)
      && !MatchAt("Java, Python", " Python", 3)
      && !MatchAt("Java, Python", " Python", 4)
      && !MatchAt("Java, Python", " Python", 5)
      && !MatchAt("Java, Python", " Python", 6)
  {
  }

  lemma CommaBlankMisses7()
    ensures !MatchAt("Java, Python", " Python", 7)
      && !MatchAt("Java, Python", " Python", 8)
      && !MatchAt("Java, Python", " Python", 9)
      && !MatchAt("Java, Python", " Python", 10)
      && !MatchAt("Java, Python", " Python", 11)
      && !MatchAt("Java, Python", " Python", 12)
  {
  }

  lemma UseMisses0()
    ensures !MatchAt("I use Python", " Python", 0)
      && !MatchAt("I use Python", " Python", 1)
      && !MatchAt("I use Python", " Python", 2)
      && !MatchAt("I use Python", " Python", 3)
      && !MatchAt("I use Python", " Python", 4)
  {
  }

  lemma CommaBlankScanHead()
    ensures FindFrom("Java, Python", " Python", 0) == FindFrom("Java, Python", " Python", 7)
  {
    CommaBlankMisses0();
    FindFromSkip("Java, Python", " Python", 0);
    FindFromSkip("Java, Python", " Python", 1);
    FindFromSkip("Java, Python", " Python", 2);
    FindFromSkip("Java, Python", " Python", 3);
    FindFromSkip("Java, Python", " Python", 4);
    FindFromSkip("Java, Python", " Python", 5);
    FindFromSkip("Java, Python", " Python", 6);
  }

  lemma CommaBlankScanTail()
    ensures FindFrom("Java, Python", " Python", 7) == None
  {
    CommaBlankMisses7();
    FindFromSkip("Java, Python", " Python", 7);
    FindFromSkip("Java, Python", " Python", 8);
    FindFromSkip("Java, Python", " Python", 9);
    FindFromSkip("Java, Python", " Python", 10);
    FindFromSkip("Java, Python", " Python", 11);
    FindFromSkip("Java, Python", " Python", 12);
    FindFromPast("Java, Python", " Python", 13);
  }

  lemma BlankAfterWordScan()
    ensures FindFrom("I use Python", " Python", 0) == Some(5)
    ensures FindFrom("I use Python", " Python", 12) == None
  {
    var u := "I use Python";
    UseMisses0();
    assert MatchAt(u, " Python", 5);
    FindFromSkip(u, " Python", 0);
    FindFromSkip(u, " Python", 1);
    FindFromSkip(u, " Python", 2);
    FindFromSkip(u, " Python", 3);
    FindFromSkip(u, " Python", 4);
    assert !MatchAt(u, " Python", 12);
    FindFromSkip(u, " Python", 12);
    FindFromPast(u, " Python", 13);
  }

  /** A target with a leading blank needs a word character before the blank: after a
      comma it never matches, after a word it does. */
  lemma LeadingBlankTarget()
    ensures CountOccurrences(Some("Java, Python"), Some(" Python")) == 0
    ensures CountOccurrences(Some("I use Python"), Some(" Python")) == 1
  {
    CommaBlankScanHead();
    CommaBlankScanTail();
    ScanDone("Java, Python", " Python", 0);
    BlankAfterWordScan();
    ScanStep("I use Python", " Python", 0, 5);
    ScanDone("I use Python", " Python", 12);
  }

  lemma EmptyTargetPositions()
    ensures MatchAt("ab cd", "", 0) && !MatchAt("ab cd", "", 1) && MatchAt("ab cd", "", 2)
    ensures MatchAt("ab cd", "", 3) && !MatchAt("ab cd", "", 4) && MatchAt("ab cd", "", 5)
  {
  }

  /** The empty target matches at every word boundary, the scan moving one past each. */
  lemma EmptyTargetCountsBoundaries()
    ensures MatchPositions("ab cd", "", 0) == [0, 2, 3, 5]
    ensures CountOccurrences(Some("ab cd"), Some("")) == 4
  {
    var t := "ab cd";
    EmptyTargetPositions();
    FindFromSkip(t, "", 1);
    FindFromSkip(t, "", 4);
    FindFromPast(t, "", 6);
    ScanStep(t, "", 0, 0);
    ScanStep(t, "", 1, 2);
    ScanStep(t, "", 3, 3);
    ScanStep(t, "", 4, 5);
    ScanDone(t, "", 6);
  }

  /** Matches do not overlap: the second "a a" in "a a a" starts inside the first. */
  lemma OverlappingMatchesCountOnce()
    ensures MatchAt("a a a", "a a", 2)
    ensures MatchPositions("a a a", "a a", 0) == [0]
    ensures CountOccurrences(Some("a a a"), Some("a a")) == 1
  {
    var t := "a a a";
    assert MatchAt(t, "a a", 0) && MatchAt(t, "a a", 2);
    assert !MatchAt(t, "a a", 3) && !MatchAt(t, "a a", 4) && !MatchAt(t, "a a", 5);
    FindFromSkip(t, "a a", 3);
    FindFromSkip(t, "a a", 4);
    FindFromSkip(t, "a a", 5);
    FindFromPast(t, "a a", 6);
    ScanStep(t, "a a", 0, 0);
    ScanDone(t, "a a", 3);
  }
}
