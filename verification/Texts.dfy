/** Texts as sequences of UTF-16 code units, compared unit by unit. */
module Texts {

  newtype CodeUnit = x: int | 0 <= x < 0x10000

  type Text = seq<CodeUnit>

  predicate Less(a: Text, b: Text) {
    if b == [] then false
    else if a == [] then true
    else a[0] < b[0] || (a[0] == b[0] && Less(a[1..], b[1..]))
  }

  lemma {:induction false} LessIrreflexive(a: Text)
    ensures !Less(a, a)
  {
    if a != [] {
      LessIrreflexive(a[1..]);
    }
  }

  lemma {:induction false} LessTransitive(a: Text, b: Text, c: Text)
    requires Less(a, b) && Less(b, c)
    ensures Less(a, c)
  {
    if a != [] && a[0] == b[0] && b[0] == c[0] {
      LessTransitive(a[1..], b[1..], c[1..]);
    }
  }

  lemma {:induction false} LessTotal(a: Text, b: Text)
    ensures a == b || Less(a, b) || Less(b, a)
  {
    if a != [] && b != [] && a[0] == b[0] {
      LessTotal(a[1..], b[1..]);
      assert a == [a[0]] + a[1..] && b == [b[0]] + b[1..];
    }
  }

  /** `a` and `b` agree before `i`, where `a` has the smaller unit. */
  predicate SmallerAt(a: Text, b: Text, i: nat) {
    i < |a| && i < |b| && a[..i] == b[..i] && a[i] < b[i]
  }

  lemma SmallerNext(a: Text, b: Text, i: nat)
    requires a != [] && b != [] && a[0] == b[0] && SmallerAt(a[1..], b[1..], i)
    ensures SmallerAt(a, b, i + 1)
  {
    assert a[..i + 1] == [a[0]] + a[1..][..i] && b[..i + 1] == [b[0]] + b[1..][..i];
  }

  lemma SmallerBefore(a: Text, b: Text, i: nat)
    requires SmallerAt(a, b, i)
    ensures i == 0 ==> a[0] < b[0]
    ensures i > 0 ==> a[0] == b[0] && SmallerAt(a[1..], b[1..], i - 1)
  {
    if i > 0 {
      assert a[0] == a[..i][0] == b[..i][0] == b[0];
      assert a[1..][..i - 1] == a[..i][1..] && b[1..][..i - 1] == b[..i][1..];
    }
  }

  /** A text comes before its continuations, and before every text that has the larger
      unit where the two first differ. */
  lemma {:induction false} LessMeans(a: Text, b: Text)
    ensures Less(a, b) <==> a < b || exists i: nat :: SmallerAt(a, b, i)
  {
    if i: nat :| SmallerAt(a, b, i) {
      SmallerBefore(a, b, i);
    }
    if a != [] && b != [] {
      if a[0] == b[0] {
        LessMeans(a[1..], b[1..]);
        assert a == [a[0]] + a[1..] && b == [b[0]] + b[1..];
        if i: nat :| SmallerAt(a[1..], b[1..], i) {
          SmallerNext(a, b, i);
        }
      } else if a[0] < b[0] {
        assert SmallerAt(a, b, 0);
      }
    }
  }
}
