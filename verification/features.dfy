/** Feature encoding: the requested symptoms as a 0/1 row aligned with the
    vocabulary (app.py:125-128, web/app.py:76-79). The source builds a
    dictionary with every vocabulary symptom set to 0, raises the requested
    ones that are keys to 1, and hands it to pandas as one row whose columns
    follow the vocabulary. */
module Features {
  import opened Vocabulary

  type Bit = b: int | 0 <= b <= 1

  /** Reference definition: position `i` is 1 exactly when vocabulary entry `i`
      was requested. */
  function FeatureVector(vocab: seq<string>, requested: seq<string>): (v: seq<Bit>)
    ensures |v| == |vocab|
  {
    seq(|vocab|, i requires 0 <= i < |vocab| => if vocab[i] in requested then 1 else 0)
  }

  /** The encoding loop of the source: a dictionary initialised to 0 for every
      vocabulary symptom, then raised to 1 for each requested symptom that is
      one of its keys; the row is read off in vocabulary order. */
  method Encode(vocab: seq<string>, requested: seq<string>) returns (v: seq<Bit>)
    ensures |v| == |vocab|
    ensures forall i :: 0 <= i < |vocab| ==> (v[i] == 1 <==> vocab[i] in requested)
    ensures v == FeatureVector(vocab, requested)
  {
    var input: map<string, Bit> := map s | s in vocab :: 0;
    var j := 0;
    while j < |requested|
      invariant 0 <= j <= |requested|
      invariant input.Keys == set s | s in vocab
      invariant forall s :: s in input ==> (input[s] == 1 <==> s in requested[..j])
    {
      if requested[j] in input {
        input := input[requested[j] := 1];
      }
      assert requested[..j + 1] == requested[..j] + [requested[j]];
      j := j + 1;
    }
    assert requested[..j] == requested;
    v := [];
    var i := 0;
    while i < |vocab|
      invariant 0 <= i <= |vocab|
      invariant |v| == i
      invariant forall k :: 0 <= k < i ==> (v[k] == 1 <==> vocab[k] in requested)
    {
      v := v + [input[vocab[i]]];
      i := i + 1;
    }
  }

  /** Requested names outside the vocabulary have no effect on the row: only
      which vocabulary symptoms were requested matters. */
  lemma OnlyKnownSymptomsMatter(vocab: seq<string>, r1: seq<string>, r2: seq<string>)
    requires forall s :: s in vocab ==> (s in r1 <==> s in r2)
    ensures FeatureVector(vocab, r1) == FeatureVector(vocab, r2)
  {
  }

  /** Adding unknown symptoms to a request leaves its row unchanged. */
  lemma UnknownSymptomsIgnored(vocab: seq<string>, requested: seq<string>, unknown: seq<string>)
    requires forall s :: s in unknown ==> s !in vocab
    ensures FeatureVector(vocab, requested + unknown) == FeatureVector(vocab, requested)
  {
    OnlyKnownSymptomsMatter(vocab, requested + unknown, requested);
  }

  /** The number of 1 entries of a row. */
  function Ones(v: seq<Bit>): nat {
    if |v| == 0 then 0 else Ones(v[..|v| - 1]) + v[|v| - 1]
  }

  /** Over a vocabulary without repeats, the row has exactly as many 1 entries
      as there are requested symptoms that the vocabulary knows. */
  lemma {:induction false} OnesCountKnownRequested(vocab: seq<string>, requested: seq<string>)
    requires Distinct(vocab)
    ensures Ones(FeatureVector(vocab, requested)) == |set s | s in vocab && s in requested|
  {
    if |vocab| > 0 {
      var n := |vocab| - 1;
      var init, last := vocab[..n], vocab[n];
      assert FeatureVector(vocab, requested)[..n] == FeatureVector(init, requested);
      assert Distinct(init);
      OnesCountKnownRequested(init, requested);
      var before := set s | s in init && s in requested;
      var after := set s | s in vocab && s in requested;
      assert vocab == init + [last];
      assert last !in init by {
        forall k | 0 <= k < n ensures init[k] != last {
          assert init[k] == vocab[k];
        }
      }
      if last in requested {
        assert after == before + {last};
      } else {
        assert after == before;
      }
    }
  }
}
