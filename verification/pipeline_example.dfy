/**
 * A worked example, end to end: a four-line file and the word list "Java" and "Python".
 * Whatever worker takes each line and whatever the delivery order, the monitor ends at
 * Java 2, Python 2, total 4.
 */
module PipelineExample {
  import opened Wrappers
  import opened JavaText
  import opened Messages
  import opened WordMatch
  import opened Monitor
  import opened Pipeline

  const File: seq<string> := ["Java code", "Python code", "Java and Python", "nothing here"]
  const Words: seq<string> := ["Java", "Python"]

  // Each line scanned for each word, position by position.

  lemma JavaCodeJavaPositions()
    ensures MatchAt("Java code", "Java", 0)
      && !MatchAt("Java code", "Java", 4)
      && !MatchAt("Java code", "Java", 5)
  {
  }

  lemma JavaCodeJavaScan()
    ensures MatchPositions("Java code", "Java", 0) == [0]
  {
    JavaCodeJavaPositions();
    ScanStep("Java code", "Java", 0, 0);
    FindFromSkip("Java code", "Java", 4);
    FindFromSkip("Java code", "Java", 5);
    FindFromTooShort("Java code", "Java", 6);
    ScanDone("Java code", "Java", 4);
  }

  lemma JavaCodePythonPositions()
    ensures !MatchAt("Java code", "Python", 0)
      && !MatchAt("Java code", "Python", 1)
      && !MatchAt("Java code", "Python", 2)
      && !MatchAt("Java code", "Python", 3)
  {
  }

  lemma JavaCodePythonScan()
    ensures MatchPositions("Java code", "Python", 0) == []
  {
    JavaCodePythonPositions();
    FindFromSkip("Java code", "Python", 0);
    FindFromSkip("Java code", "Python", 1);
    FindFromSkip("Java code", "Python", 2);
    FindFromSkip("Java code", "Python", 3);
    FindFromTooShort("Java code", "Python", 4);
    ScanDone("Java code", "Python", 0);
  }

  lemma PythonCodeJavaPositions0()
    ensures !MatchAt("Python code", "Java", 0)
      && !MatchAt("Python code", "Java", 1)
      && !MatchAt("Python code", "Java", 2)
      && !MatchAt("Python code", "Java", 3)
  {
  }

  lemma PythonCodeJavaPositions1()
    ensures !MatchAt("Python code", "Java", 4)
      && !MatchAt("Python code", "Java", 5)
      && !MatchAt("Python code", "Java", 6)
      && !MatchAt("Python code", "Java", 7)
  {
  }

  lemma PythonCodeJavaScan()
    ensures MatchPositions("Python code", "Java", 0) == []
  {
    PythonCodeJavaPositions0();
    PythonCodeJavaPositions1();
    FindFromSkip("Python code", "Java", 0);
    FindFromSkip("Python code", "Java", 1);
    FindFromSkip("Python code", "Java", 2);
    FindFromSkip("Python code", "Java", 3);
    FindFromSkip("Python code", "Java", 4);
    FindFromSkip("Python code", "Java", 5);
    FindFromSkip("Python code", "Java", 6);
    FindFromSkip("Python code", "Java", 7);
    FindFromTooShort("Python code", "Java", 8);
    ScanDone("Python code", "Java", 0);
  }

  lemma PythonCodePythonPositions()
    ensures MatchAt("Python code", "Python", 0)
  {
  }

  lemma PythonCodePythonScan()
    ensures MatchPositions("Python code", "Python", 0) == [0]
  {
    PythonCodePythonPositions();
    ScanStep("Python code", "Python", 0, 0);
    FindFromTooShort("Python code", "Python", 6);
    ScanDone("Python code", "Python", 6);
  }

  lemma JavaAndPythonJavaPositions0()
    ensures MatchAt("Java and Python", "Java", 0)
      && !MatchAt("Java and Python", "Java", 4)
      && !MatchAt("Java and Python", "Java", 5)
      && !MatchAt("Java and Python", "Java", 6)
  {
  }

  lemma JavaAndPythonJavaPositions1()
    ensures !MatchAt("Java and Python", "Java", 7)
      && !MatchAt("Java and Python", "Java", 8)
      && !MatchAt("Java and Python", "Java", 9)
      && !MatchAt("Java and Python", "Java", 10)
  {
  }

  lemma JavaAndPythonJavaPositions2()
    ensures !MatchAt("Java and Python", "Java", 11)
  {
  }

  lemma JavaAndPythonJavaScan()
    ensures MatchPositions("Java and Python", "Java", 0) == [0]
  {
    JavaAndPythonJavaPositions0();
    JavaAndPythonJavaPositions1();
    JavaAndPythonJavaPositions2();
    ScanStep("Java and Python", "Java", 0, 0);
    FindFromSkip("Java and Python", "Java", 4);
    FindFromSkip("Java and Python", "Java", 5);
    FindFromSkip("Java and Python", "Java", 6);
    FindFromSkip("Java and Python", "Java", 7);
    FindFromSkip("Java and Python", "Java", 8);
    FindFromSkip("Java and Python", "Java", 9);
    FindFromSkip("Java and Python", "Java", 10);
    FindFromSkip("Java and Python", "Java", 11);
    FindFromTooShort("Java and Python", "Java", 12);
    ScanDone("Java and Python", "Java", 4);
  }

  lemma JavaAndPythonPythonPositions0()
    ensures !MatchAt("Java and Python", "Python", 0)
      && !MatchAt("Java and Python", "Python", 1)
      && !MatchAt("Java and Python", "Python", 2)
      && !MatchAt("Java and Python", "Python", 3)
  {
  }

  lemma JavaAndPythonPythonPositions1()
    ensures !MatchAt("Java and Python", "Python", 4)
      && !MatchAt("Java and Python", "Python", 5)
      && !MatchAt("Java and Python", "Python", 6)
      && !MatchAt("Java and Python", "Python", 7)
  {
  }

  lemma JavaAndPythonPythonPositions2()
    ensures !MatchAt("Java and Python", "Python", 8)
      && MatchAt("Java and Python", "Python", 9)
  {
  }

  lemma JavaAndPythonPythonScan()
    ensures MatchPositions("Java and Python", "Python", 0) == [9]
  {
    JavaAndPythonPythonPositions0();
    JavaAndPythonPythonPositions1();
    JavaAndPythonPythonPositions2();
    FindFromSkip("Java and Python", "Python", 0);
    FindFromSkip("Java and Python", "Python", 1);
    FindFromSkip("Java and Python", "Python", 2);
    FindFromSkip("Java and Python", "Python", 3);
    FindFromSkip("Java and Python", "Python", 4);
    FindFromSkip("Java and Python", "Python", 5);
    FindFromSkip("Java and Python", "Python", 6);
    FindFromSkip("Java and Python", "Python", 7);
    FindFromSkip("Java and Python", "Python", 8);
    ScanStep("Java and Python", "Python", 0, 9);
    FindFromTooShort("Java and Python", "Python", 15);
    ScanDone("Java and Python", "Python", 15);
  }

  lemma NothingHereJavaPositions0()
    ensures !MatchAt("nothing here", "Java", 0)
      && !MatchAt("nothing here", "Java", 1)
      && !MatchAt("nothing here", "Java", 2)
      && !MatchAt("nothing here", "Java", 3)
  {
  }

  lemma NothingHereJavaPositions1()
    ensures !MatchAt("nothing here", "Java", 4)
      && !MatchAt("nothing here", "Java", 5)
      && !MatchAt("nothing here", "Java", 6)
      && !MatchAt("nothing here", "Java", 7)
  {
  }

  lemma NothingHereJavaPositions2()
    ensures !MatchAt("nothing here", "Java", 8)
  {
  }

  lemma NothingHereJavaScan()
    ensures MatchPositions("nothing here", "Java", 0) == []
  {
    NothingHereJavaPositions0();
    NothingHereJavaPositions1();
    NothingHereJavaPositions2();
    FindFromSkip("nothing here", "Java", 0);
    FindFromSkip("nothing here", "Java", 1);
    FindFromSkip("nothing here", "Java", 2);
    FindFromSkip("nothing here", "Java", 3);
    FindFromSkip("nothing here", "Java", 4);
    FindFromSkip("nothing here", "Java", 5);
    FindFromSkip("nothing here", "Java", 6);
    FindFromSkip("nothing here", "Java", 7);
    FindFromSkip("nothing here", "Java", 8);
    FindFromTooShort("nothing here", "Java", 9);
    ScanDone("nothing here", "Java", 0);
  }

  lemma NothingHerePythonPositions0()
    ensures !MatchAt("nothing here", "Python", 0)
      && !MatchAt("nothing here", "Python", 1)
      && !MatchAt("nothing here", "Python", 2)
      && !MatchAt("nothing here", "Python", 3)
  {
  }

  lemma NothingHerePythonPositions1()
    ensures !MatchAt("nothing here", "Python", 4)
      && !MatchAt("nothing here", "Python", 5)
      && !MatchAt("nothing here", "Python", 6)
  {
  }

  lemma NothingHerePythonScan()
    ensures MatchPositions("nothing here", "Python", 0) == []
  {
    NothingHerePythonPositions0();
    NothingHerePythonPositions1();
    FindFromSkip("nothing here", "Python", 0);
    FindFromSkip("nothing here", "Python", 1);
    FindFromSkip("nothing here", "Python", 2);
    FindFromSkip("nothing here", "Python", 3);
    FindFromSkip("nothing here", "Python", 4);
    FindFromSkip("nothing here", "Python", 5);
    FindFromSkip("nothing here", "Python", 6);
    FindFromTooShort("nothing here", "Python", 7);
    ScanDone("nothing here", "Python", 0);
  }

  lemma FileCountStep(lines: seq<string>, t: string)
    requires |lines| > 0
    ensures FileCount(lines, t) == CountOccurrences(Some(lines[0]), Some(t)) + FileCount(lines[1..], t)
  {
  }

  lemma FileCountOfFour(lines: seq<string>, t: string, c0: nat, c1: nat, c2: nat, c3: nat)
    requires |lines| == 4
    requires CountOccurrences(Some(lines[0]), Some(t)) == c0
    requires CountOccurrences(Some(lines[1]), Some(t)) == c1
    requires CountOccurrences(Some(lines[2]), Some(t)) == c2
    requires CountOccurrences(Some(lines[3]), Some(t)) == c3
    ensures FileCount(lines, t) == c0 + c1 + c2 + c3
  {
    var l1 := lines[1..];
    var l2 := l1[1..];
    var l3 := l2[1..];
    FileCountStep(lines, t);
    FileCountStep(l1, t);
    FileCountStep(l2, t);
    FileCountStep(l3, t);
    assert l1[0] == lines[1] && l2[0] == lines[2] && l3[0] == lines[3] && |l3[1..]| == 0;
  }

  lemma CountJavaCodeJava()
    ensures CountOccurrences(Some(File[0]), Some("Java")) == 1
  {
    JavaCodeJavaScan();
  }

  lemma CountPythonCodeJava()
    ensures CountOccurrences(Some(File[1]), Some("Java")) == 0
  {
    PythonCodeJavaScan();
  }

  lemma CountJavaAndPythonJava()
    ensures CountOccurrences(Some(File[2]), Some("Java")) == 1
  {
    JavaAndPythonJavaScan();
  }

  lemma CountNothingHereJava()
    ensures CountOccurrences(Some(File[3]), Some("Java")) == 0
  {
    NothingHereJavaScan();
  }

  lemma CountJavaCodePython()
    ensures CountOccurrences(Some(File[0]), Some("Python")) == 0
  {
    JavaCodePythonScan();
  }

  lemma CountPythonCodePython()
    ensures CountOccurrences(Some(File[1]), Some("Python")) == 1
  {
    PythonCodePythonScan();
  }

  lemma CountJavaAndPythonPython()
    ensures CountOccurrences(Some(File[2]), Some("Python")) == 1
  {
    JavaAndPythonPythonScan();
  }

  lemma CountNothingHerePython()
    ensures CountOccurrences(Some(File[3]), Some("Python")) == 0
  {
    NothingHerePythonScan();
  }

  lemma FileCountJava()
    ensures FileCount(File, "Java") == 2
  {
    CountJavaCodeJava();
    CountPythonCodeJava();
    CountJavaAndPythonJava();
    CountNothingHereJava();
    FileCountOfFour(File, "Java", 1, 0, 1, 0);
  }

  lemma FileCountPython()
    ensures FileCount(File, "Python") == 2
  {
    CountJavaCodePython();
    CountPythonCodePython();
    CountJavaAndPythonPython();
    CountNothingHerePython();
    FileCountOfFour(File, "Python", 0, 1, 1, 0);
  }

  lemma SeedOfTwoWords(words: seq<string>)
    requires words == ["Java", "Python"]
    ensures Seed(words).Keys == {"Java", "Python"}
  {
    TrimKeepsTrimmed("Java");
    TrimKeepsTrimmed("Python");
    assert (set k | 0 <= k < |words| :: Trim(words[k])) == {"Java", "Python"} by {
      assert Trim(words[0]) == "Java" && Trim(words[1]) == "Python";
    }
  }

  lemma TotalOfTwoKeys(m: Counts)
    requires m.Keys == {"Java", "Python"}
    ensures MapSum(m) == m["Java"] + m["Python"]
  {
    SumOverRemove(m, m.Keys, "Java");
    assert m.Keys - {"Java"} == {"Python"};
    SumOverRemove(m, {"Python"}, "Python");
    assert {"Python"} - {"Python"} == {};
  }

  lemma TwoWordsOnceEach(words: seq<string>)
    requires words == ["Java", "Python"]
    ensures multiset(words)["Java"] == 1 && multiset(words)["Python"] == 1
  {
  }

  /** With the two words listed, the monitor ends with exactly those two keys. */
  lemma TwoWordsKeys(file: seq<string>, words: seq<string>, ds: seq<Delivery>, delivered: seq<Event>)
    requires IsRun(file, words, ds, delivered)
    requires words == ["Java", "Python"]
    ensures Final(words, delivered).Keys == {"Java", "Python"}
  {
    SeedOfTwoWords(words);
    FinalKeysAreWords(file, words, ds, delivered);
    FoldContents(Seed(words), delivered, "Java");
    FoldContents(Seed(words), delivered, "Python");
  }

  /** Each of the two words ends at its number of occurrences in the file. */
  lemma TwoWordsCounts(file: seq<string>, words: seq<string>, ds: seq<Delivery>, delivered: seq<Event>)
    requires IsRun(file, words, ds, delivered)
    requires words == ["Java", "Python"]
    ensures Get(Final(words, delivered), "Java") == FileCount(file, "Java")
    ensures Get(Final(words, delivered), "Python") == FileCount(file, "Python")
  {
    TwoWordsOnceEach(words);
    CountsAreOrderIndependent(file, words, ds, delivered, "Java");
    CountsAreOrderIndependent(file, words, ds, delivered, "Python");
  }

  /** Whatever worker takes each line and whatever order the events arrive in, the monitor
      ends with exactly the keys Java and Python, at 2 each, and a grand total of 4. */
  lemma JavaPythonScenario(ds: seq<Delivery>, delivered: seq<Event>)
    requires IsRun(File, Words, ds, delivered)
    ensures Final(Words, delivered).Keys == {"Java", "Python"}
    ensures Get(Final(Words, delivered), "Java") == 2
    ensures Get(Final(Words, delivered), "Python") == 2
    ensures MapSum(Final(Words, delivered)) == 4
  {
    FileCountJava();
    FileCountPython();
    TwoWordsKeys(File, Words, ds, delivered);
    TwoWordsCounts(File, Words, ds, delivered);
    TotalOfTwoKeys(Final(Words, delivered));
  }
}
