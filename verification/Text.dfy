/** Go's strings.Split and strings.Join for a one-character separator. */
module Text {

  function Split(s: string, sep: char): (parts: seq<string>)
    ensures |parts| > 0
  {
    if s == "" then [""] else
      var rest := Split(s[1..], sep);
      if s[0] == sep then [""] + rest else [[s[0]] + rest[0]] + rest[1..]
  }

  function Join(parts: seq<string>, sep: char): string {
    if |parts| == 0 then ""
    else if |parts| == 1 then parts[0]
    else parts[0] + [sep] + Join(parts[1..], sep)
  }

  predicate Free(s: string, sep: char) {
    sep !in s
  }

  predicate AllFree(parts: seq<string>, sep: char) {
    forall p | p in parts :: Free(p, sep)
  }

  lemma {:induction false} JoinOfSplit(s: string, sep: char)
    ensures Join(Split(s, sep), sep) == s
  {
    if s != "" {
      var rest := Split(s[1..], sep);
      JoinOfSplit(s[1..], sep);
      if s[0] == sep {
        assert ([""] + rest)[1..] == rest;
      } else if |rest| > 1 {
        assert ([[s[0]] + rest[0]] + rest[1..])[1..] == rest[1..];
      }
    }
  }

  lemma {:induction false} SplitPiecesFree(s: string, sep: char)
    ensures AllFree(Split(s, sep), sep)
  {
    if s != "" {
      SplitPiecesFree(s[1..], sep);
      var rest := Split(s[1..], sep);
      forall p | p in Split(s, sep) ensures Free(p, sep) {
        if s[0] != sep && p == [s[0]] + rest[0] {
          assert Free(rest[0], sep);
        } else if p != "" {
          assert p in rest;
        }
      }
    }
  }

  lemma {:induction false} SplitOfFree(s: string, sep: char)
    requires Free(s, sep)
    ensures Split(s, sep) == [s]
  {
    if s != "" {
      assert s == [s[0]] + s[1..];
      SplitOfFree(s[1..], sep);
    }
  }

  lemma Regroup(x: seq<string>, y: seq<string>, z: seq<string>)
    ensures (x + y) + z == x + (y + z)
  {}

  /** A separator cuts the split in two. */
  lemma {:induction false} SplitAtSeparator(a: string, b: string, sep: char)
    ensures Split(a + [sep] + b, sep) == Split(a, sep) + Split(b, sep)
  {
    var s := a + [sep] + b;
    if a == "" {
      assert s[1..] == b;
    } else {
      var rest := a[1..] + [sep] + b;
      assert s[0] == a[0] && s[1..] == rest;
      SplitAtSeparator(a[1..], b, sep);
      var front, back := Split(a[1..], sep), Split(b, sep);
      assert Split(rest, sep)[0] == front[0] && Split(rest, sep)[1..] == front[1..] + back;
      if a[0] == sep {
        Regroup([""], front, back);
      } else {
        Regroup([[a[0]] + front[0]], front[1..], back);
      }
    }
  }

  lemma {:induction false} JoinOfConcat(a: seq<string>, b: seq<string>, sep: char)
    requires |a| > 0 && |b| > 0
    ensures Join(a + b, sep) == Join(a, sep) + [sep] + Join(b, sep)
  {
    if |a| == 1 {
      assert (a + b)[1..] == b;
    } else {
      assert (a + b)[1..] == a[1..] + b;
      JoinOfConcat(a[1..], b, sep);
    }
  }

  /** Splitting undoes joining exactly on non-empty lists of pieces without the separator. */
  lemma {:induction false} SplitOfJoin(parts: seq<string>, sep: char)
    requires |parts| > 0
    ensures Split(Join(parts, sep), sep) == parts <==> AllFree(parts, sep)
  {
    SplitPiecesFree(Join(parts, sep), sep);
    if AllFree(parts, sep) {
      SplitOfFree(parts[0], sep);
      if |parts| > 1 {
        SplitOfJoin(parts[1..], sep);
        SplitAtSeparator(parts[0], Join(parts[1..], sep), sep);
      }
    }
  }

  lemma SplitInjective(s: string, t: string, sep: char)
    ensures Split(s, sep) == Split(t, sep) <==> s == t
  {
    JoinOfSplit(s, sep);
    JoinOfSplit(t, sep);
  }

  lemma PrefixSplits(p: string, rest: string, sep: char)
    ensures Split(p, sep) < Split(p + [sep] + rest, sep)
  {
    SplitAtSeparator(p, rest, sep);
  }

  lemma SplitPrefixes(p: string, s: string, sep: char)
    requires Split(p, sep) < Split(s, sep)
    ensures p + [sep] <= s
  {
    var rest := Split(s, sep)[|Split(p, sep)|..];
    JoinOfConcat(Split(p, sep), rest, sep);
    JoinOfSplit(p, sep);
    JoinOfSplit(s, sep);
    assert s == p + [sep] + Join(rest, sep) by { assert Split(s, sep) == Split(p, sep) + rest; }
  }

  /** A string followed by the separator is a prefix exactly when its pieces are a proper prefix. */
  lemma PrefixAtSeparator(p: string, s: string, sep: char)
    ensures p + [sep] <= s <==> Split(p, sep) < Split(s, sep)
  {
    if p + [sep] <= s {
      PrefixSplits(p, s[|p| + 1..], sep);
      assert s == p + [sep] + s[|p| + 1..];
    }
    if Split(p, sep) < Split(s, sep) {
      SplitPrefixes(p, s, sep);
    }
  }
}
