/**
 * The Java string operations the pipeline relies on, over `string` = `seq<char>`:
 * ASCII word characters and ASCII case folding (the semantics assumed for the regular
 * expression `\b...\b` with CASE_INSENSITIVE), `String.trim()` and `String.split(",")`.
 */
module JavaText {

  /** A word character for `\b`: ASCII `[A-Za-z0-9_]`. */
  predicate IsWordChar(c: char) {
    ('a' <= c <= 'z') || ('A' <= c <= 'Z') || ('0' <= c <= '9') || c == '_'
  }

  /** ASCII-only lower-casing, as the regex engine does without UNICODE_CASE. */
  function ToLowerAscii(c: char): char {
    if 'A' <= c <= 'Z' then (c as int - 'A' as int + 'a' as int) as char else c
  }

  predicate EqualIgnoreCase(a: string, b: string) {
    |a| == |b| && forall i :: 0 <= i < |a| ==> ToLowerAscii(a[i]) == ToLowerAscii(b[i])
  }

  /** Characters equal up to case are both word characters or both not. */
  lemma FoldingKeepsWordChar(a: char, b: char)
    requires ToLowerAscii(a) == ToLowerAscii(b)
    ensures IsWordChar(a) == IsWordChar(b)
  {
  }

  // ---------------------------------------------------------------------------
  // String.trim(): strips every character <= U+0020 from both ends.

  /** Where the kept part begins: the first index at or after `st` holding a
      character above U+0020, or |s|. */
  function TrimStartIndex(s: string, st: nat): (r: nat)
    requires st <= |s|
    ensures st <= r <= |s|
    ensures forall k :: st <= k < r ==> s[k] <= ' '
    ensures r < |s| ==> s[r] > ' '
    decreases |s| - st
  {
    if st < |s| && s[st] <= ' ' then TrimStartIndex(s, st + 1) else st
  }

  /** Where the kept part ends: moving `len` down past characters up to U+0020,
      never below `st`. */
  function TrimEndIndex(s: string, st: nat, len: nat): (r: nat)
    requires st <= len <= |s|
    ensures st <= r <= len
    ensures forall k :: r <= k < len ==> s[k] <= ' '
    ensures r > st ==> s[r - 1] > ' '
    decreases len
  {
    if st < len && s[len - 1] <= ' ' then TrimEndIndex(s, st, len - 1) else len
  }

  /** The number of characters `trim()` removes at the front. */
  function LeadingBlanks(s: string): (r: nat)
    ensures r <= |s|
  {
    TrimStartIndex(s, 0)
  }

  /** The result is the slice of `s` left after removing the maximal runs of
      control/space characters at both ends. */
  function Trim(s: string): (r: string)
    ensures r == [] || (r[0] > ' ' && r[|r| - 1] > ' ')
    ensures LeadingBlanks(s) + |r| <= |s| && r == s[LeadingBlanks(s)..LeadingBlanks(s) + |r|]
    ensures forall k :: 0 <= k < LeadingBlanks(s) ==> s[k] <= ' '
    ensures forall k :: LeadingBlanks(s) + |r| <= k < |s| ==> s[k] <= ' '
  {
    var st := TrimStartIndex(s, 0);
    var len := TrimEndIndex(s, st, |s|);
    s[st..len]
  }

  lemma TrimKeepsTrimmed(s: string)
    requires s == [] || (s[0] > ' ' && s[|s| - 1] > ' ')
    ensures Trim(s) == s
  {
    assert TrimStartIndex(s, 0) == 0;
    assert TrimEndIndex(s, 0, |s|) == |s|;
  }

  lemma TrimIdempotent(s: string)
    ensures Trim(Trim(s)) == Trim(s)
  {
    TrimKeepsTrimmed(Trim(s));
  }

  // ---------------------------------------------------------------------------
  // String.split(","): the comma-separated pieces, with trailing empty pieces removed.

  /** Every piece between commas, none dropped. */
  function SplitAll(s: string): (parts: seq<string>)
    ensures |parts| >= 1
    ensures forall k :: 0 <= k < |parts| ==> ',' !in parts[k]
    decreases |s|
  {
    if |s| == 0 then [""]
    else
      var rest := SplitAll(s[1..]);
      if s[0] == ',' then [""] + rest
      else [[s[0]] + rest[0]] + rest[1..]
  }

  function Join(parts: seq<string>): string
    requires |parts| >= 1
    decreases |parts|
  {
    if |parts| == 1 then parts[0] else parts[0] + "," + Join(parts[1..])
  }

  lemma {:induction false} JoinSplitAll(s: string)
    ensures Join(SplitAll(s)) == s
    decreases |s|
  {
    if |s| > 0 {
      var rest := SplitAll(s[1..]);
      JoinSplitAll(s[1..]);
      if s[0] == ',' {
        assert ([""] + rest)[1..] == rest;
      } else {
        var parts := [[s[0]] + rest[0]] + rest[1..];
        if |rest| > 1 {
          assert parts[1..] == rest[1..];
          assert Join(rest) == rest[0] + "," + Join(rest[1..]);
        }
        assert s == [s[0]] + s[1..];
      }
    }
  }

  lemma {:induction false} SplitAllNoComma(p: string)
    requires ',' !in p
    ensures SplitAll(p) == [p]
    decreases |p|
  {
    if |p| > 0 {
      assert ',' !in p[1..] by {
        forall k | 0 <= k < |p[1..]| ensures p[1..][k] != ',' {
          assert p[1..][k] == p[k + 1];
        }
      }
      SplitAllNoComma(p[1..]);
      assert [p[0]] + p[1..] == p;
    }
  }

  lemma {:induction false} SplitAllField(p: string, y: string)
    requires ',' !in p
    ensures SplitAll(p + "," + y) == [p] + SplitAll(y)
    decreases |p|
  {
    var s := p + "," + y;
    if |p| == 0 {
      assert s[1..] == y;
    } else {
      assert s[1..] == p[1..] + "," + y;
      assert ',' !in p[1..] by {
        forall k | 0 <= k < |p[1..]| ensures p[1..][k] != ',' {
          assert p[1..][k] == p[k + 1];
        }
      }
      SplitAllField(p[1..], y);
      assert [p[0]] + p[1..] == p;
    }
  }

  /** Splitting a comma-joined list of comma-free pieces gives back the pieces. */
  lemma {:induction false} SplitAllJoin(parts: seq<string>)
    requires |parts| >= 1
    requires forall k :: 0 <= k < |parts| ==> ',' !in parts[k]
    ensures SplitAll(Join(parts)) == parts
    decreases |parts|
  {
    if |parts| == 1 {
      SplitAllNoComma(parts[0]);
    } else {
      SplitAllJoin(parts[1..]);
      SplitAllField(parts[0], Join(parts[1..]));
      assert parts == [parts[0]] + parts[1..];
    }
  }

  function DropTrailingEmpty(parts: seq<string>): (r: seq<string>)
    ensures |r| <= |parts| && r == parts[..|r|]
    ensures forall k :: |r| <= k < |parts| ==> parts[k] == ""
    ensures r == [] || r[|r| - 1] != ""
    decreases |parts|
  {
    if |parts| > 0 && parts[|parts| - 1] == "" then DropTrailingEmpty(parts[..|parts| - 1]) else parts
  }

  /** `s.split(",")`: the pieces between commas, untrimmed, in order, with trailing empty
      pieces dropped; a string without a comma (even the empty one) gives itself. */
  function Split(s: string): (r: seq<string>)
    ensures |r| <= |SplitAll(s)| && r == SplitAll(s)[..|r|]
    ensures forall k :: |r| <= k < |SplitAll(s)| ==> SplitAll(s)[k] == ""
    ensures ',' in s ==> r == [] || r[|r| - 1] != ""
    ensures ',' !in s ==> r == [s]
  {
    if ',' !in s then SplitAllNoComma(s); [s] else DropTrailingEmpty(SplitAll(s))
  }
}

/** Worked examples of `split(",")` and `trim()`. */
module JavaTextExamples {
  import opened JavaText

  lemma JavaPythonPieces()
    ensures "Java, Python" == "Java" + "," + " Python"
    ensures ',' !in "Java" && ',' !in " Python"
  {
  }

  lemma SplitAllOfJavaPython()
    ensures SplitAll("Java, Python") == ["Java", " Python"]
  {
    JavaPythonPieces();
    SplitAllField("Java", " Python");
    SplitAllNoComma(" Python");
  }

  lemma TrimOfBlankPython()
    ensures Trim(" Python") == "Python"
  {
    var s := " Python";
    assert TrimStartIndex(s, 1) == 1;
    assert TrimStartIndex(s, 0) == 1;
    assert TrimEndIndex(s, 1, 7) == 7;
    assert s[1..7] == "Python";
  }

  lemma SplitOfJavaPython()
    ensures Split("Java, Python") == ["Java", " Python"]
  {
    SplitAllOfJavaPython();
    assert ',' in "Java, Python" by { assert "Java, Python"[4] == ','; }
    assert DropTrailingEmpty(["Java", " Python"]) == ["Java", " Python"];
  }

  /** The blank after the comma stays on the second word; trimming removes it. */
  lemma SplitKeepsBlanks()
    ensures Split("Java, Python") == ["Java", " Python"]
    ensures Trim(" Python") == "Python"
  {
    SplitOfJavaPython();
    TrimOfBlankPython();
  }

  lemma SplitAllWithEmpties()
    ensures SplitAll("a,,b,,") == ["a", "", "b", "", ""]
  {
    var s4 := "" + "," + "";
    SplitAllField("", "");
    var s3 := "b" + "," + s4;
    SplitAllField("b", s4);
    var s2 := "" + "," + s3;
    SplitAllField("", s3);
    var s1 := "a" + "," + s2;
    SplitAllField("a", s2);
    assert s1 == "a,,b,,";
  }

  /** Inner empty pieces stay and trailing ones go. */
  lemma SplitDropsOnlyTrailingEmpties()
    ensures Split("a,,b,,") == ["a", "", "b"]
  {
    SplitAllWithEmpties();
    assert ',' in "a,,b,," by { assert "a,,b,,"[1] == ','; }
    DropTwoTrailingEmpties();
  }

  lemma DropTwoTrailingEmpties()
    ensures DropTrailingEmpty(["a", "", "b", "", ""]) == ["a", "", "b"]
  {
    var parts := ["a", "", "b", "", ""];
    assert parts[..4] == ["a", "", "b", ""];
    assert ["a", "", "b", ""][..3] == ["a", "", "b"];
    assert DropTrailingEmpty(["a", "", "b"]) == ["a", "", "b"];
    assert DropTrailingEmpty(["a", "", "b", ""]) == ["a", "", "b"];
  }

  /** A lone comma yields no word at all; the empty string yields itself. */
  lemma SplitDegenerateInputs()
    ensures Split(",") == []
    ensures Split("") == [""]
  {
    assert "," == "" + "," + "";
    SplitAllField("", "");
    assert ',' in "," by { assert ","[0] == ','; }
  }
}
