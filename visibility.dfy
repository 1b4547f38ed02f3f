/** The visibility filter: the (buyer, offer id) marks that hide an offer from
    the feed of a buyer who has already acted on it. The marks are kept in the
    order they were set. */
module Visibility {
  import opened Records

  /** No element occurs twice. */
  predicate NoDup<T(==)>(s: seq<T>)
  {
    forall i, j :: 0 <= i < j < |s| ==> s[i] != s[j]
  }

  /** The buyer has already acted on the offer. */
  predicate IsMarked(marks: seq<Mark>, buyer: string, offerId: string)
  {
    Mark(buyer, offerId) in marks
  }

  /** Setting a mark: appended once, never twice; the marks already set keep their places. */
  function AddMark(marks: seq<Mark>, m: Mark): (r: seq<Mark>)
    ensures forall x :: x in r <==> x in marks || x == m
    ensures |marks| <= |r| <= |marks| + 1 && r[..|marks|] == marks
    ensures m in marks ==> r == marks
    ensures NoDup(marks) ==> NoDup(r)
  {
    if m in marks then marks else marks + [m]
  }

  /** Clearing a mark: every pair equal to `m` goes, the others stay. */
  function RemoveMark(marks: seq<Mark>, m: Mark): (r: seq<Mark>)
    ensures forall x :: x in r <==> x in marks && x != m
    ensures |r| <= |marks|
  {
    if marks == [] then []
    else (if marks[0] == m then [] else [marks[0]]) + RemoveMark(marks[1..], m)
  }

  /** Clearing over two stretches of the marks is the two clearings joined, so the
      pairs that stay keep their original order. */
  lemma {:induction false} RemoveMarkAppend(a: seq<Mark>, b: seq<Mark>, m: Mark)
    ensures RemoveMark(a + b, m) == RemoveMark(a, m) + RemoveMark(b, m)
  {
    if a == [] {
      assert a + b == b;
    } else {
      assert (a + b)[0] == a[0];
      assert (a + b)[1..] == a[1..] + b;
      RemoveMarkAppend(a[1..], b, m);
    }
  }

  /** Extending the scanned prefix by one pair keeps that pair unless it is the cleared one. */
  lemma RemoveMarkStep(marks: seq<Mark>, i: nat, m: Mark)
    requires i < |marks|
    ensures RemoveMark(marks[..i + 1], m) == RemoveMark(marks[..i], m) + (if marks[i] == m then [] else [marks[i]])
  {
    assert marks[..i + 1] == marks[..i] + [marks[i]];
    RemoveMarkAppend(marks[..i], [marks[i]], m);
    assert [marks[i]][1..] == [];
  }

  /** Clearing a mark that is not set changes nothing. */
  lemma {:induction false} RemoveMarkAbsent(marks: seq<Mark>, m: Mark)
    requires m !in marks
    ensures RemoveMark(marks, m) == marks
  {
    if marks != [] {
      assert marks[0] != m;
      RemoveMarkAbsent(marks[1..], m);
    }
  }

  /** Clearing is idempotent. */
  lemma {:induction false} RemoveMarkIdempotent(marks: seq<Mark>, m: Mark)
    ensures RemoveMark(RemoveMark(marks, m), m) == RemoveMark(marks, m)
  {
    RemoveMarkAbsent(RemoveMark(marks, m), m);
  }

  /** Clearing a mark that was just set where it was not set before gives back the marks as they were. */
  lemma {:induction false} RemoveAfterAdd(marks: seq<Mark>, m: Mark)
    requires m !in marks
    ensures RemoveMark(AddMark(marks, m), m) == marks
  {
    RemoveMarkAppend(marks, [m], m);
    RemoveMarkAbsent(marks, m);
  }

  /** Clearing never creates a duplicate. */
  lemma {:induction false} RemoveMarkKeepsNoDup(marks: seq<Mark>, m: Mark)
    requires NoDup(marks)
    ensures NoDup(RemoveMark(marks, m))
  {
    if marks != [] {
      var rest := marks[1..];
      assert NoDup(rest) by {
        forall i, j | 0 <= i < j < |rest| ensures rest[i] != rest[j] {
          assert rest[i] == marks[i + 1] && rest[j] == marks[j + 1];
        }
      }
      RemoveMarkKeepsNoDup(rest, m);
      assert marks[0] !in rest;
      var r := RemoveMark(marks, m);
      if marks[0] != m {
        assert r == [marks[0]] + RemoveMark(rest, m);
        forall i, j | 0 <= i < j < |r| ensures r[i] != r[j] {
          if i == 0 {
            assert r[j] in RemoveMark(rest, m);
          } else {
            assert r[i] == RemoveMark(rest, m)[i - 1] && r[j] == RemoveMark(rest, m)[j - 1];
          }
        }
      }
    }
  }
}
