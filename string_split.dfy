/**
 * StringSplitUtil.splitKeepTrailingWhiteSpace: splitting a string on one
 * character, keeping every empty part (leading, inner and trailing).
 * The implementation is not part of this model; the function below is
 * the contract that StringUtilTest pins down.
 */
module StringSplit {
  import opened Wrappers

  datatype SplitError = NullSource

  /** The parts of s between occurrences of sep, in order, empty parts included. */
  function Split(s: string, sep: char): (parts: seq<string>)
    ensures |parts| >= 1
    decreases |s|
  {
    if |s| == 0 then [""]
    else
      var rest := Split(s[1..], sep);
      if s[0] == sep then [""] + rest else [[s[0]] + rest[0]] + rest[1..]
  }

  /** The entry point: a null source raises, as the test with a null source asserts. */
  function SplitKeepTrailingWhiteSpace(source: Option<string>, sep: char): (r: Result<seq<string>, SplitError>)
    ensures source.None? <==> r == Failure(NullSource)
    ensures source.Some? ==> r.Success? && Join(r.value, sep) == source.value
    ensures source.Some? ==> |r.value| >= 1 && Separated(r.value, sep)
  {
    match source
    case None => Failure(NullSource)
    case Some(s) => SplitJoin(s, sep); SplitSeparated(s, sep); Success(Split(s, sep))
  }

  /** The parts glued back together with sep between neighbours. */
  function Join(parts: seq<string>, sep: char): string
    decreases |parts|
  {
    if |parts| == 0 then ""
    else if |parts| == 1 then parts[0]
    else parts[0] + [sep] + Join(parts[1..], sep)
  }

  function Occurrences(s: string, ch: char): nat
    decreases |s|
  {
    if |s| == 0 then 0 else (if s[0] == ch then 1 else 0) + Occurrences(s[1..], ch)
  }

  /** No part contains the separator. */
  ghost predicate Separated(parts: seq<string>, sep: char) {
    forall i :: 0 <= i < |parts| ==> sep !in parts[i]
  }

  /** Rejoining the parts with the separator gives back the source. */
  lemma {:induction false} SplitJoin(s: string, sep: char)
    ensures Join(Split(s, sep), sep) == s
    decreases |s|
  {
    if |s| > 0 {
      SplitJoin(s[1..], sep);
      var rest := Split(s[1..], sep);
      if s[0] == sep {
        assert Split(s, sep) == [""] + rest;
        assert ([""] + rest)[1..] == rest;
      } else if |rest| == 1 {
        assert Split(s, sep) == [[s[0]] + rest[0]];
      } else {
        var parts := [[s[0]] + rest[0]] + rest[1..];
        assert Join(rest, sep) == rest[0] + [sep] + Join(rest[1..], sep);
        assert parts[1..] == rest[1..];
        assert Join(parts, sep) == [s[0]] + rest[0] + [sep] + Join(rest[1..], sep);
        assert s == [s[0]] + s[1..];
      }
    }
  }

  /** There is one more part than there are separators. */
  lemma {:induction false} SplitCount(s: string, sep: char)
    ensures |Split(s, sep)| == Occurrences(s, sep) + 1
    decreases |s|
  {
    if |s| > 0 {
      SplitCount(s[1..], sep);
    }
  }

  /** No part contains the separator. */
  lemma {:induction false} SplitSeparated(s: string, sep: char)
    ensures Separated(Split(s, sep), sep)
    decreases |s|
  {
    if |s| > 0 {
      SplitSeparated(s[1..], sep);
      var rest := Split(s[1..], sep);
      if s[0] != sep {
        assert sep !in [s[0]] + rest[0] by {
          assert sep !in rest[0];
        }
        var parts := Split(s, sep);
        forall i | 0 <= i < |parts| ensures sep !in parts[i] {
          if i > 0 { assert parts[i] == rest[i]; }
        }
      } else {
        var parts := Split(s, sep);
        forall i | 0 <= i < |parts| ensures sep !in parts[i] {
          if i > 0 { assert parts[i] == rest[i - 1]; }
        }
      }
    }
  }

  /**
   * The other direction of the round trip: any non-empty list of parts free of
   * the separator is what splitting their join gives. So Split is the only
   * function with the three properties proved above.
   */
  lemma {:induction false} JoinSplit(parts: seq<string>, sep: char)
    requires |parts| >= 1
    requires Separated(parts, sep)
    ensures Split(Join(parts, sep), sep) == parts
    decreases |parts|, |parts[0]|
  {
    if |parts[0]| > 0 {
      // Peel the first character of the first part.
      var p0 := parts[0];
      var shorter := [p0[1..]] + parts[1..];
      SeparatedPeel(parts, sep);
      JoinSplit(shorter, sep);
      JoinPeel(parts, sep);
      var j := Join(parts, sep);
      assert p0[0] != sep by { assert p0[0] in p0; }
      var rest := Split(j[1..], sep);
      assert rest == shorter;
      assert [p0[0]] + p0[1..] == p0;
      assert Split(j, sep) == [[p0[0]] + rest[0]] + rest[1..];
    } else if |parts| > 1 {
      var tail := parts[1..];
      assert Separated(tail, sep) by {
        forall i | 0 <= i < |tail| ensures sep !in tail[i] {
          assert tail[i] == parts[i + 1];
        }
      }
      JoinSplit(tail, sep);
      var j := Join(parts, sep);
      assert j == [sep] + Join(tail, sep);
      assert j[1..] == Join(tail, sep);
      assert Split(j, sep) == [""] + tail;
      assert parts == [""] + tail;
    } else {
      assert parts == [""];
    }
  }

  /** Dropping the first character of the first part keeps the parts free of the separator. */
  lemma SeparatedPeel(parts: seq<string>, sep: char)
    requires |parts| >= 1 && |parts[0]| > 0 && Separated(parts, sep)
    ensures Separated([parts[0][1..]] + parts[1..], sep)
  {
    var shorter := [parts[0][1..]] + parts[1..];
    forall i | 0 <= i < |shorter| ensures sep !in shorter[i] {
      if i == 0 {
        assert sep !in parts[0];
        assert forall ch :: ch in parts[0][1..] ==> ch in parts[0];
      } else {
        assert shorter[i] == parts[i];
      }
    }
  }

  /** The join starts with the first character of the first part, followed by the join without it. */
  lemma JoinPeel(parts: seq<string>, sep: char)
    requires |parts| >= 1 && |parts[0]| > 0
    ensures Join(parts, sep)[0] == parts[0][0]
    ensures Join(parts, sep)[1..] == Join([parts[0][1..]] + parts[1..], sep)
  {
    var p0 := parts[0];
    var shorter := [p0[1..]] + parts[1..];
    assert shorter[1..] == parts[1..];
    if |parts| > 1 {
      assert Join(parts, sep) == p0 + [sep] + Join(parts[1..], sep);
      assert Join(shorter, sep) == p0[1..] + [sep] + Join(parts[1..], sep);
    }
  }

  /** A list of parts is the split of s exactly when it has the three properties. */
  lemma SplitCharacterised(s: string, sep: char, parts: seq<string>)
    ensures Split(s, sep) == parts <==> |parts| >= 1 && Separated(parts, sep) && Join(parts, sep) == s
  {
    SplitJoin(s, sep);
    SplitSeparated(s, sep);
    if |parts| >= 1 && Separated(parts, sep) && Join(parts, sep) == s {
      JoinSplit(parts, sep);
    }
  }

  // ---------------------------------------------------------------------
  // Java's String.split, for comparison: it drops trailing empty parts.
  // The comparison treats the separator as a literal character.

  function DropTrailingEmpty(parts: seq<string>): (r: seq<string>)
    ensures |r| <= |parts| && r == parts[..|r|]
    ensures |r| > 0 ==> r[|r| - 1] != ""
    ensures forall i :: |r| <= i < |parts| ==> parts[i] == ""
    decreases |parts|
  {
    if |parts| == 0 then []
    else if parts[|parts| - 1] == "" then DropTrailingEmpty(parts[..|parts| - 1])
    else parts
  }

  /** String.split: no occurrence gives the source itself, otherwise trailing empty parts go. */
  function JavaSplit(s: string, sep: char): seq<string> {
    if sep !in s then [s] else DropTrailingEmpty(Split(s, sep))
  }

  lemma {:induction false} LastPartEmpty(s: string, sep: char)
    ensures Split(s, sep)[|Split(s, sep)| - 1] == "" <==> |s| == 0 || s[|s| - 1] == sep
    decreases |s|
  {
    if |s| > 0 {
      LastPartEmpty(s[1..], sep);
      var rest := Split(s[1..], sep);
      if s[0] != sep && |rest| == 1 {
        assert |s[1..]| == 0 || s[1..][|s[1..]| - 1] == s[|s| - 1];
      }
    }
  }

  lemma {:induction false} NoSeparatorOnePart(s: string, sep: char)
    requires sep !in s
    ensures Split(s, sep) == [s]
  {
    SplitCharacterised(s, sep, [s]);
  }

  /**
   * The two splits agree exactly when the source is empty or does not end in
   * the separator: keeping trailing empty parts is the only difference.
   */
  lemma SplitsAgree(s: string, sep: char)
    ensures Split(s, sep) == JavaSplit(s, sep) <==> |s| == 0 || s[|s| - 1] != sep
  {
    var parts := Split(s, sep);
    LastPartEmpty(s, sep);
    if sep !in s {
      NoSeparatorOnePart(s, sep);
      assert |s| > 0 ==> s[|s| - 1] in s;
    } else {
      if parts[|parts| - 1] == "" {
        assert |DropTrailingEmpty(parts)| < |parts|;
      }
    }
  }

  // ---------------------------------------------------------------------
  // The cases of StringUtilTest.

  lemma SplitEmptySource()
    ensures SplitKeepTrailingWhiteSpace(Some(""), '.') == Success([""])
    ensures JavaSplit("", '.') == [""]
  {
  }

  /** Splitting at the first separator: the part before it, then the split of the rest. */
  lemma {:induction false} SplitAtFirst(a: string, b: string, sep: char)
    requires sep !in a
    ensures Split(a + [sep] + b, sep) == [a] + Split(b, sep)
    decreases |a|
  {
    var s := a + [sep] + b;
    if |a| == 0 {
      assert s[0] == sep && s[1..] == b;
    } else {
      assert sep !in a[1..] by { assert forall ch :: ch in a[1..] ==> ch in a; }
      SplitAtFirst(a[1..], b, sep);
      assert s[0] == a[0] && s[1..] == a[1..] + [sep] + b;
      assert [a[0]] + a[1..] == a;
    }
  }

  /** One separator between two separator-free strings gives two parts. */
  lemma SplitOnce(a: string, b: string, sep: char)
    requires sep !in a && sep !in b
    ensures Split(a + [sep] + b, sep) == [a, b]
  {
    SplitAtFirst(a, b, sep);
    NoSeparatorOnePart(b, sep);
  }

  /** Two adjacent separators leave one empty part between them. */
  lemma SplitTwice(a: string, b: string, sep: char)
    requires sep !in a && sep !in b
    ensures Split(a + [sep, sep] + b, sep) == [a, "", b]
  {
    assert a + [sep, sep] + b == a + [sep] + ([] + [sep] + b);
    SplitAtFirst(a, [] + [sep] + b, sep);
    SplitOnce([], b, sep);
  }

  /** Three adjacent separators leave two empty parts between them. */
  lemma SplitThrice(a: string, b: string, sep: char)
    requires sep !in a && sep !in b
    ensures Split(a + [sep, sep, sep] + b, sep) == [a, "", "", b]
  {
    assert a + [sep, sep, sep] + b == a + [sep] + ([] + [sep, sep] + b);
    SplitAtFirst(a, [] + [sep, sep] + b, sep);
    SplitTwice([], b, sep);
  }

  lemma SplitTwoParts()
    ensures Split("test.test1", '.') == ["test", "test1"]
  {
    assert "test.test1" == "test" + ['.'] + "test1";
    SplitOnce("test", "test1", '.');
  }

  lemma SplitDoubleSeparator()
    ensures Split("test..test1", '.') == ["test", "", "test1"]
  {
    assert "test..test1" == "test" + ['.', '.'] + "test1";
    SplitTwice("test", "test1", '.');
  }

  lemma SplitTripleSeparator()
    ensures Split("test...test1", '.') == ["test", "", "", "test1"]
  {
    assert "test...test1" == "test" + ['.', '.', '.'] + "test1";
    SplitThrice("test", "test1", '.');
  }

  lemma SplitLeadingSeparator()
    ensures Split(".test1", '.') == ["", "test1"]
  {
    assert ".test1" == "" + ['.'] + "test1";
    SplitOnce("", "test1", '.');
  }

  lemma SplitTrailingSeparator()
    ensures Split("test.", '.') == ["test", ""]
    ensures Split("test..", '.') == ["test", "", ""]
    ensures JavaSplit("test.", '.') == ["test"]
  {
    assert "test." == "test" + ['.'] + "";
    SplitOnce("test", "", '.');
    assert "test.." == "test" + ['.', '.'] + "";
    SplitTwice("test", "", '.');
  }
}
