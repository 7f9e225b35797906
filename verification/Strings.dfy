/** The byte order on strings, as Go's < compares them. */
module Strings {

  predicate Less(a: string, b: string) {
    b != [] && (a == [] || a[0] < b[0] || (a[0] == b[0] && Less(a[1..], b[1..])))
  }

  lemma {:induction false} LessIrreflexive(a: string)
    ensures !Less(a, a)
  {
    if a != [] {
      LessIrreflexive(a[1..]);
    }
  }

  lemma {:induction false} LessTotal(a: string, b: string)
    ensures Less(a, b) || Less(b, a) || a == b
  {
    if a != [] && b != [] && a[0] == b[0] {
      LessTotal(a[1..], b[1..]);
      if a[1..] == b[1..] {
        assert a == [a[0]] + a[1..] == [b[0]] + b[1..] == b;
      }
    }
  }

  lemma {:induction false} LessTransitive(a: string, b: string, c: string)
    requires Less(a, b) && Less(b, c)
    ensures Less(a, c)
  {
    if a != [] && b != [] && c != [] && a[0] == b[0] && b[0] == c[0] {
      LessTransitive(a[1..], b[1..], c[1..]);
    }
  }

  /** Neither is below the other only when they are the same string. */
  lemma NotLessBothWays(a: string, b: string)
    requires !Less(a, b) && !Less(b, a)
    ensures a == b
  {
    LessTotal(a, b);
  }

  lemma NotLessTransitive(a: string, b: string, c: string)
    requires !Less(b, a) && !Less(c, b)
    ensures !Less(c, a)
  {
    LessTotal(a, b);
    LessTotal(b, c);
    if Less(c, a) {
      if a == b {
      } else {
        LessTransitive(c, a, b);
      }
    }
  }

  /** The first separator ends the left part. */
  lemma FirstSeparator(a: string, b: string, joined: string, separator: char)
    requires separator !in a && joined == a + [separator] + b
    ensures joined[|a|] == separator && (forall i :: 0 <= i < |a| ==> joined[i] != separator)
    ensures joined[..|a|] == a && joined[|a| + 1..] == b
  {
  }

  /** A separator that occurs in neither left part splits a joined string in one way only. */
  lemma JoinInjective(a: string, b: string, c: string, d: string, separator: char)
    requires separator !in a && separator !in c
    requires a + [separator] + b == c + [separator] + d
    ensures a == c && b == d
  {
    FirstSeparator(a, b, a + [separator] + b, separator);
    FirstSeparator(c, d, a + [separator] + b, separator);
    assert |a| == |c|;
  }
}
