/** The split of the cleaned rows into consecutive subsets of 100 rows
    (`[df.iloc[i:i + 100] for i in range(0, len(df), 100)]`). */
module Batches {

  const BatchSize := 100

  function Flatten<T>(css: seq<seq<T>>): seq<T>
  {
    if css == [] then [] else css[0] + Flatten(css[1..])
  }

  lemma {:induction false} FlattenAppend<T>(a: seq<seq<T>>, b: seq<seq<T>>)
    ensures Flatten(a + b) == Flatten(a) + Flatten(b)
  {
    if a == [] {
      assert a + b == b;
    } else {
      assert (a + b)[0] == a[0];
      assert (a + b)[1..] == a[1..] + b;
      FlattenAppend(a[1..], b);
    }
  }

  lemma FlattenSnoc<T>(a: seq<seq<T>>, i: nat)
    requires i < |a|
    ensures Flatten(a[..i + 1]) == Flatten(a[..i]) + a[i]
  {
    assert a[..i + 1] == a[..i] + [a[i]];
    FlattenAppend(a[..i], [a[i]]);
    assert Flatten([a[i]]) == a[i] + Flatten([]);
  }

  /** Subsets of at most 100 consecutive rows: they concatenate back to the
      input, there are ceil(N / 100) of them, each is non-empty, and all but
      the last hold exactly 100 rows. */
  function Chunks<T>(s: seq<T>): (cs: seq<seq<T>>)
    ensures Flatten(cs) == s
    ensures |cs| == (|s| + BatchSize - 1) / BatchSize
    ensures forall i :: 0 <= i < |cs| ==> 0 < |cs[i]| <= BatchSize
    ensures forall i :: 0 <= i < |cs| - 1 ==> |cs[i]| == BatchSize
    decreases |s|
  {
    if s == [] then []
    else if |s| <= BatchSize then [s]
    else
      var rest := Chunks(s[BatchSize..]);
      assert s == s[..BatchSize] + s[BatchSize..];
      [s[..BatchSize]] + rest
  }

  /** Row `p` of the input is row `p % 100` of subset `p / 100`. */
  lemma {:induction false} ChunkPosition<T>(s: seq<T>, p: nat)
    requires p < |s|
    ensures p / BatchSize < |Chunks(s)|
    ensures p % BatchSize < |Chunks(s)[p / BatchSize]|
    ensures Chunks(s)[p / BatchSize][p % BatchSize] == s[p]
    decreases |s|
  {
    if p >= BatchSize {
      var tail := s[BatchSize..];
      ChunkPosition(tail, p - BatchSize);
      assert (p - BatchSize) / BatchSize == p / BatchSize - 1;
      assert (p - BatchSize) % BatchSize == p % BatchSize;
      assert Chunks(s) == [s[..BatchSize]] + Chunks(tail);
    }
  }

  /** 150 rows give two subsets, of 100 and 50 rows. */
  lemma HundredFifty<T>(s: seq<T>)
    requires |s| == 150
    ensures |Chunks(s)| == 2
    ensures Chunks(s)[0] == s[..100] && Chunks(s)[1] == s[100..]
  {
    assert Chunks(s) == [s[..100]] + Chunks(s[100..]);
    assert Chunks(s[100..]) == [s[100..]];
  }
}
