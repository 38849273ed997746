/** The symptom vocabulary: the training table's column headers minus the
    label column and the placeholder names pandas gives to unnamed columns,
    in header order (app.py:42-43, web/app.py:33-34). */
module Vocabulary {

  const LabelColumn := "prognosis"
  const UnnamedPrefix := "Unnamed:"

  predicate StartsWith(s: string, prefix: string) {
    |prefix| <= |s| && s[..|prefix|] == prefix
  }

  /** A header names a symptom unless it is the label or an unnamed column. */
  predicate IsSymptomColumn(column: string) {
    column != LabelColumn && !StartsWith(column, UnnamedPrefix)
  }

  predicate Distinct<T(==)>(s: seq<T>) {
    forall i, j :: 0 <= i < j < |s| ==> s[i] != s[j]
  }

  /** The vocabulary of a header list, keeping the original order. */
  function Symptoms(columns: seq<string>): (vocab: seq<string>)
    ensures |vocab| <= |columns|
    ensures forall c :: c in vocab <==> c in columns && IsSymptomColumn(c)
  {
    if |columns| == 0 then []
    else
      assert forall c :: c in columns <==> c == columns[0] || c in columns[1..];
      (if IsSymptomColumn(columns[0]) then [columns[0]] else []) + Symptoms(columns[1..])
  }

  /** Filtering distributes over concatenation: no column is moved across another. */
  lemma {:induction false} SymptomsAppend(a: seq<string>, b: seq<string>)
    ensures Symptoms(a + b) == Symptoms(a) + Symptoms(b)
  {
    if |a| == 0 {
      assert a + b == b;
    } else {
      assert (a + b)[1..] == a[1..] + b;
      SymptomsAppend(a[1..], b);
    }
  }

  /** The number of vocabulary entries contributed by the first `i` columns,
      which is where column `i` lands when it is kept. */
  function Rank(columns: seq<string>, i: nat): nat
    requires i <= |columns|
  {
    |Symptoms(columns[..i])|
  }

  /** A kept column sits in the vocabulary at its rank. */
  lemma SymptomsPosition(columns: seq<string>, i: nat)
    requires i < |columns| && IsSymptomColumn(columns[i])
    ensures Rank(columns, i) < |Symptoms(columns)|
    ensures Symptoms(columns)[Rank(columns, i)] == columns[i]
  {
    assert columns == columns[..i] + ([columns[i]] + columns[i + 1..]);
    SymptomsAppend(columns[..i], [columns[i]] + columns[i + 1..]);
    assert ([columns[i]] + columns[i + 1..])[1..] == columns[i + 1..];
  }

  /** Ranks of a kept column and any later column are strictly ordered, so
      kept columns keep their relative order. */
  lemma RankOrdered(columns: seq<string>, i: nat, j: nat)
    requires i < j <= |columns| && IsSymptomColumn(columns[i])
    ensures Rank(columns, i) < Rank(columns, j)
  {
    assert columns[..j] == columns[..i] + ([columns[i]] + columns[i + 1..j]);
    SymptomsAppend(columns[..i], [columns[i]] + columns[i + 1..j]);
    assert ([columns[i]] + columns[i + 1..j])[1..] == columns[i + 1..j];
  }

  /** Headers that are all symptom names pass through unchanged. */
  lemma {:induction false} SymptomsOfSymptoms(columns: seq<string>)
    requires forall c :: c in columns ==> IsSymptomColumn(c)
    ensures Symptoms(columns) == columns
  {
    if |columns| > 0 {
      assert forall c :: c in columns[1..] ==> c in columns;
      SymptomsOfSymptoms(columns[1..]);
    }
  }

  /** pandas keeps column labels unique, and so the vocabulary has no repeats. */
  lemma {:induction false} SymptomsDistinct(columns: seq<string>)
    requires Distinct(columns)
    ensures Distinct(Symptoms(columns))
  {
    if |columns| > 0 {
      var rest := columns[1..];
      assert Distinct(rest) by {
        forall i, j | 0 <= i < j < |rest| ensures rest[i] != rest[j] {
          assert rest[i] == columns[i + 1] && rest[j] == columns[j + 1];
        }
      }
      SymptomsDistinct(rest);
      assert columns[0] !in rest by {
        forall k | 0 <= k < |rest| ensures rest[k] != columns[0] {
          assert rest[k] == columns[k + 1];
        }
      }
    }
  }
}
