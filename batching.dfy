/** `formatInput` of the custom engine: cutting an ordered list of source
    strings into consecutive batches of at most `n` strings. */
module Batching {

  /** What `formatInput` returns: `undefined` for an empty list, the batch
      itself when there is exactly one, and the list of batches otherwise. */
  datatype FormatResult = None | One(batch: seq<string>) | Many(batches: seq<seq<string>>)

  /** The batches a result stands for, in order. */
  function Batches(r: FormatResult): seq<seq<string>>
  {
    match r
    case None => []
    case One(b) => [b]
    case Many(bs) => bs
  }

  /** The consecutive pieces of `texts`: `n` strings each, the last possibly fewer. */
  function Chunks(texts: seq<string>, n: nat): seq<seq<string>>
    requires n >= 1
    decreases |texts|
  {
    if |texts| == 0 then []
    else if |texts| <= n then [texts]
    else [texts[..n]] + Chunks(texts[n..], n)
  }

  /** The concatenation of a list of batches, in order. */
  function Flatten(bs: seq<seq<string>>): seq<string>
  {
    if bs == [] then [] else bs[0] + Flatten(bs[1..])
  }

  /** Concatenating the batches in order gives back exactly the input. */
  lemma {:induction false} ChunksFlatten(texts: seq<string>, n: nat)
    requires n >= 1
    ensures Flatten(Chunks(texts, n)) == texts
    decreases |texts|
  {
    if |texts| > n {
      ChunksFlatten(texts[n..], n);
      var cs := Chunks(texts, n);
      assert cs[1..] == Chunks(texts[n..], n);
      assert texts[..n] + texts[n..] == texts;
    }
  }

  /** No batch is empty, none holds more than `n` strings, and every batch but
      the last holds exactly `n`. */
  lemma {:induction false} ChunksBounds(texts: seq<string>, n: nat)
    requires n >= 1
    ensures forall i :: 0 <= i < |Chunks(texts, n)| ==> 1 <= |Chunks(texts, n)[i]| <= n
    ensures forall i :: 0 <= i < |Chunks(texts, n)| - 1 ==> |Chunks(texts, n)[i]| == n
    decreases |texts|
  {
    if |texts| > n {
      ChunksBounds(texts[n..], n);
      var cs := Chunks(texts, n);
      assert forall i :: 1 <= i < |cs| ==> cs[i] == Chunks(texts[n..], n)[i - 1];
    }
  }

  /** There are ceil(|texts| / n) batches. */
  lemma {:induction false} ChunksCount(texts: seq<string>, n: nat)
    requires n >= 1
    ensures |Chunks(texts, n)| == (|texts| + n - 1) / n
    decreases |texts|
  {
    if |texts| > n {
      ChunksCount(texts[n..], n);
      var k := (|texts| - 1) / n;
      DivQuotient(|texts| - 1, n, k, (|texts| - 1) % n);
      DivQuotient(|texts| + n - 1, n, k + 1, (|texts| - 1) % n);
    } else if |texts| > 0 {
      DivQuotient(|texts| + n - 1, n, 1, |texts| - 1);
    } else {
      DivQuotient(n - 1, n, 0, n - 1);
    }
  }

  lemma DivQuotient(x: nat, n: nat, q: nat, r: nat)
    requires n >= 1 && r < n && x == q * n + r
    ensures x / n == q
  {
    var q', r' := x / n, x % n;
    assert x == q' * n + r';
    if q' < q {
      MulDistance(q', q - q', n);
    } else if q' > q {
      MulDistance(q, q' - q, n);
    }
  }

  lemma {:induction false} MulDistance(a: nat, d: nat, n: nat)
    requires d >= 1
    ensures (a + d) * n >= a * n + n
    decreases d
  {
    if d > 1 {
      MulDistance(a, d - 1, n);
      assert (a + d) * n == (a + d - 1) * n + n;
    } else {
      assert (a + 1) * n == a * n + n;
    }
  }

  /** One turn of the batching loop: the first batch and the rest. */
  lemma ChunksStep(xs: seq<string>, n: nat)
    requires n >= 1 && |xs| > 0
    ensures var k := if n <= |xs| then n else |xs|;
      Chunks(xs, n) == [xs[..k]] + Chunks(xs[k..], n)
  {
    if |xs| <= n {
      assert xs[..|xs|] == xs;
      assert xs[|xs|..] == [];
    }
  }

  /** No batches for no strings, the whole list as the one batch for 1..n
      strings, and more than one batch beyond that. */
  lemma ChunksShape(texts: seq<string>, n: nat)
    requires n >= 1
    ensures |Chunks(texts, n)| == 0 <==> |texts| == 0
    ensures |Chunks(texts, n)| == 1 <==> 0 < |texts| <= n
    ensures 0 < |texts| <= n ==> Chunks(texts, n) == [texts]
  {
    if |texts| > n {
      assert |Chunks(texts[n..], n)| >= 1;
    }
  }

  /** `formatInput(texts, n)`: walks `texts` in steps of `n`, pushing each
      slice, then unwraps a lone batch and yields `undefined` for none. For a
      non-empty list the source loop never ends when `n <= 0`, hence the
      precondition (an empty list gives `undefined` for every `n`). */
  method FormatInput(texts: seq<string>, n: nat) returns (r: FormatResult)
    requires n >= 1
    ensures Batches(r) == Chunks(texts, n)
    ensures Flatten(Batches(r)) == texts
    ensures r.None? <==> |texts| == 0
    ensures r.One? <==> 0 < |texts| <= n
    ensures r.One? ==> r.batch == texts
    ensures r.Many? <==> |texts| > n
  {
    var result: seq<seq<string>> := [];
    var i := 0;
    while i < |texts|
      invariant 0 <= i
      invariant result + Chunks(texts[if i <= |texts| then i else |texts|..], n) == Chunks(texts, n)
      decreases |texts| - i
    {
      var end := if i + n <= |texts| then i + n else |texts|;
      var batch := texts[i..end];
      ChunksStep(texts[i..], n);
      assert texts[i..][..end - i] == batch;
      assert texts[i..][end - i..] == texts[end..];
      result := result + [batch];
      i := i + n;
    }
    assert texts[|texts|..] == [];
    assert result == Chunks(texts, n);
    ChunksShape(texts, n);
    ChunksFlatten(texts, n);
    if |result| > 1 {
      r := Many(result);
    } else if |result| == 1 {
      r := One(result[0]);
    } else {
      r := None;
    }
  }
}
