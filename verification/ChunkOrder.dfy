/** The order in which query.DecodeChunked accepts the statements of a chunked response. */
module ChunkOrder {
  import opened Wrappers

  /** One chunk's single result: its statement id, a statement error, data, and the partial flag of the result or of any
      of its series. */
  datatype Chunk = Chunk(id: Option<int>, error: bool, series: bool, partial: bool)

  datatype Error = EmptyResponse | Mismatch | Incomplete

  predicate Closes(c: Chunk) {
    c.error || !c.partial
  }

  predicate WellFormed(c: Chunk, n: nat) {
    c.id.Some? && 0 <= c.id.value < n && (c.error ==> !c.series && !c.partial)
  }

  /** A chunk follows one of the same statement exactly when that one was partial, and one of the statement before
      exactly when that one was closed. */
  predicate Successor(a: Chunk, b: Chunk)
    requires a.id.Some? && b.id.Some?
  {
    b.id.value == if Closes(a) then a.id.value + 1 else a.id.value
  }

  /** Whole response: every statement from 0 to n - 1 in order, each a run of partial chunks and one closing chunk. */
  predicate Complete(cs: seq<Chunk>, n: nat) {
    cs != [] && InOrder(cs, n) && cs[|cs| - 1].id == Some(n - 1) && Closes(cs[|cs| - 1])
  }

  predicate InOrder(cs: seq<Chunk>, n: nat) {
    && (forall k :: 0 <= k < |cs| ==> WellFormed(cs[k], n))
    && (cs != [] ==> cs[0].id == Some(0))
    && (forall k :: 0 < k < |cs| ==> Successor(cs[k - 1], cs[k]))
  }

  method CheckOrder(cs: seq<Chunk>, n: nat) returns (error: Option<Error>)
    requires n > 0
    ensures error.None? <==> Complete(cs, n)
    ensures error == Some(EmptyResponse) <==> cs == []
  {
    var seen, closed := seq(n, _ => false), seq(n, _ => false);
    var current := -1;
    for k := 0 to |cs|
      invariant |seen| == |closed| == n && -1 <= current < n
      invariant InOrder(cs[..k], n)
      invariant current == if k == 0 then -1 else cs[k - 1].id.value
      invariant forall i :: 0 <= i < n ==> (seen[i] <==> i <= current)
      invariant forall i :: 0 <= i < n ==> (closed[i] <==> i < current || (i == current && Closes(cs[k - 1])))
    {
      var c := cs[k];
      if c.id.None? || !(0 <= c.id.value < n) {
        Broken(cs, n, k);
        return Some(Mismatch);
      }
      var id := c.id.value;
      if current == -1 && id != 0 {
        Broken(cs, n, k);
        return Some(Mismatch);
      }
      if current >= 0 {
        if id < current || id > current + 1 {
          Broken(cs, n, k);
          return Some(Mismatch);
        }
        if id > current && !closed[current] {
          Broken(cs, n, k);
          return Some(Incomplete);
        }
      }
      if closed[id] {
        Broken(cs, n, k);
        return Some(Mismatch);
      }
      current := id;
      seen := seen[id := true];
      if c.error {
        if c.series || c.partial {
          Broken(cs, n, k);
          return Some(Mismatch);
        }
        closed := closed[id := true];
      } else if !c.partial {
        closed := closed[id := true];
      }
      assert cs[..k + 1] == cs[..k] + [c];
    }
    assert cs[..|cs|] == cs;
    if cs == [] { return Some(EmptyResponse); }
    for i := 0 to n
      invariant forall j :: 0 <= j < i ==> seen[j] && closed[j]
    {
      if !seen[i] { return Some(Mismatch); }
      if !closed[i] { return Some(Incomplete); }
    }
    assert seen[n - 1] && closed[n - 1];
    return None;
  }

  /** A response whose first k + 1 chunks are out of order stays out of order. */
  lemma Broken(cs: seq<Chunk>, n: nat, k: nat)
    requires k < |cs| && !InOrder(cs[..k + 1], n)
    ensures !Complete(cs, n)
  {
  }
}
