/** Traces cut into blocks, and what is counted in them. */
module Traces {
  import opened Common
  import opened Payloads
  import opened Platform

  type Block = seq<Call>

  function Flatten(blocks: seq<Block>): seq<Call> {
    if blocks == [] then []
    else Flatten(blocks[..|blocks| - 1]) + blocks[|blocks| - 1]
  }

  function Creates(t: seq<Call>): seq<Payload> {
    if t == [] then []
    else if t[|t| - 1].Create? then Creates(t[..|t| - 1]) + [t[|t| - 1].payload]
    else Creates(t[..|t| - 1])
  }

  function Relocks(t: seq<Call>): nat {
    if t == [] then 0
    else Relocks(t[..|t| - 1]) + if t[|t| - 1].Relock? then 1 else 0
  }

  /** Some call of t switches campaigns on. */
  predicate Enables(t: seq<Call>) {
    exists i :: 0 <= i < |t| && t[i].SetStatus? && t[i].enable
  }

  lemma {:induction false} CountsConcat(a: seq<Call>, b: seq<Call>)
    ensures Creates(a + b) == Creates(a) + Creates(b)
    ensures Relocks(a + b) == Relocks(a) + Relocks(b)
  {
    if b == [] {
      assert a + b == a;
    } else {
      assert (a + b)[..|a + b| - 1] == a + b[..|b| - 1];
      CountsConcat(a, b[..|b| - 1]);
    }
  }

  /** Nothing in t creates or relocks. */
  predicate Passive(t: seq<Call>) {
    forall i :: 0 <= i < |t| ==> !t[i].Create? && !t[i].Relock?
  }

  lemma {:induction false} CountsNothing(t: seq<Call>)
    requires Passive(t)
    ensures Creates(t) == [] && Relocks(t) == 0
  {
    if t != [] {
      CountsNothing(t[..|t| - 1]);
    }
  }

  /** A first call followed by passive ones. */
  predicate LedBy(t: seq<Call>, first: Call) {
    t != [] && t[0] == first && Passive(t[1..])
  }

  lemma CountsFirst(t: seq<Call>, first: Call)
    requires LedBy(t, first)
    ensures Creates(t) == if first.Create? then [first.payload] else []
    ensures Relocks(t) == if first.Relock? then 1 else 0
  {
    assert t == [first] + t[1..];
    CountsConcat([first], t[1..]);
    CountsNothing(t[1..]);
    assert [first][..0] == [];
  }

  /** Every block opens with the create of its own payload and goes on passively. */
  predicate OneCreateEach(blocks: seq<Block>, payloads: seq<Payload>) {
    && |blocks| <= |payloads|
    && forall i :: 0 <= i < |blocks| ==>
         blocks[i] != [] && blocks[i][0].Create? && blocks[i][0].payload == payloads[i]
         && LedBy(blocks[i], blocks[i][0])
  }

  lemma {:induction false} FlattenCounts(blocks: seq<Block>, payloads: seq<Payload>)
    requires OneCreateEach(blocks, payloads)
    ensures Creates(Flatten(blocks)) == payloads[..|blocks|]
    ensures Relocks(Flatten(blocks)) == 0
  {
    if blocks != [] {
      var n := |blocks| - 1;
      FlattenCounts(blocks[..n], payloads);
      CountsFirst(blocks[n], blocks[n][0]);
      CountsConcat(Flatten(blocks[..n]), blocks[n]);
      TakeNext(payloads, n);
    }
  }

  /** Where block i starts. */
  function Start(blocks: seq<Block>, i: nat): nat
    requires i <= |blocks|
  {
    |Flatten(blocks[..i])|
  }

  lemma {:induction false} BlockAt(blocks: seq<Block>, i: nat)
    requires i < |blocks|
    ensures Start(blocks, i) + |blocks[i]| == Start(blocks, i + 1) <= |Flatten(blocks)|
    ensures Flatten(blocks)[Start(blocks, i)..Start(blocks, i + 1)] == blocks[i]
  {
    var last := |blocks| - 1;
    TakeNext(blocks, i);
    if i == last {
      assert blocks[..i + 1] == blocks;
    } else {
      BlockAt(blocks[..last], i);
      assert blocks[..last][..i] == blocks[..i] && blocks[..last][..i + 1] == blocks[..i + 1];
    }
  }

  lemma {:induction false} StartsGrow(blocks: seq<Block>, i: nat, j: nat)
    requires i <= j <= |blocks|
    ensures Start(blocks, i) <= Start(blocks, j)
  {
    if i < j {
      StartsGrow(blocks, i, j - 1);
      TakeNext(blocks, j - 1);
    }
  }

  /** A slice of the middle of three parts is a slice of the whole. */
  lemma SliceOfMiddle<T>(a: seq<T>, m: seq<T>, c: seq<T>, lo: nat, hi: nat)
    requires lo <= hi <= |m|
    ensures (a + m + c)[|a| + lo..|a| + hi] == m[lo..hi]
  {
    var whole := a + m + c;
    forall k | 0 <= k < hi - lo ensures whole[|a| + lo..|a| + hi][k] == m[lo..hi][k] {
      assert whole[|a| + lo + k] == m[lo + k];
    }
  }

  /** Block i stands at its place in t, where the blocks begin at `offset`. */
  predicate InPlace(t: seq<Call>, blocks: seq<Block>, offset: nat, i: nat)
    requires i < |blocks|
  {
    var from := offset + Start(blocks, i);
    from + |blocks[i]| == offset + Start(blocks, i + 1) <= |t| && t[from..from + |blocks[i]|] == blocks[i]
  }

  lemma BlockInTrace(head: seq<Call>, blocks: seq<Block>, tail: seq<Call>, i: nat)
    requires i < |blocks|
    ensures InPlace(head + Flatten(blocks) + tail, blocks, |head|, i)
  {
    BlockAt(blocks, i);
    SliceOfMiddle(head, Flatten(blocks), tail, Start(blocks, i), Start(blocks, i + 1));
  }

  /** The calls of `block` stand in t from position `from`, all of them before position `at`. */
  predicate Before(t: seq<Call>, from: nat, block: Block, at: nat) {
    from + |block| <= at < |t| && t[from..from + |block|] == block
  }

  /** Block i lies wholly before the first call of block j. */
  lemma PlacesInOrder(t: seq<Call>, blocks: seq<Block>, offset: nat, i: nat, j: nat)
    requires i < j < |blocks| && blocks[j] != [] && Start(blocks, i + 1) <= Start(blocks, j)
    requires InPlace(t, blocks, offset, i) && InPlace(t, blocks, offset, j)
    ensures Before(t, offset + Start(blocks, i), blocks[i], offset + Start(blocks, j))
    ensures t[offset + Start(blocks, j)] == blocks[j][0]
  {
    var at := offset + Start(blocks, j);
    assert t[at] == t[at..at + |blocks[j]|][0];
  }

  lemma Glue<T>(a: seq<T>, b: seq<T>, c: seq<T>, d: seq<T>)
    ensures a + b + c + d == a + (b + c + d)
  {
  }

  lemma Regroup<T>(a: seq<T>, b: seq<T>, c: seq<T>)
    ensures a + b + c == a + (b + c)
    ensures a + b == a + b + []
  {
  }

  lemma FlattenNext(blocks: seq<Block>, b: Block)
    ensures Flatten(blocks + [b]) == Flatten(blocks) + b
  {
    assert (blocks + [b])[..|blocks|] == blocks;
  }

  lemma {:induction false} FlattenPassive(blocks: seq<Block>)
    requires forall i :: 0 <= i < |blocks| ==> Passive(blocks[i])
    ensures Passive(Flatten(blocks))
  {
    if blocks != [] {
      FlattenPassive(blocks[..|blocks| - 1]);
    }
  }

  lemma {:induction false} FlattenNever(blocks: seq<Block>)
    requires forall i :: 0 <= i < |blocks| ==> !Enables(blocks[i])
    ensures !Enables(Flatten(blocks))
  {
    if blocks != [] {
      FlattenNever(blocks[..|blocks| - 1]);
    }
  }
}
