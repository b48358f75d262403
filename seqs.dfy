/** Sequence utilities shared by the bucket reducer and the frame. */
module Sequences {

  /** Concatenation of a sequence of blocks, in order. */
  function Flatten<T>(blocks: seq<seq<T>>): seq<T>
  {
    if blocks == [] then [] else blocks[0] + Flatten(blocks[1..])
  }

  /** Flattening distributes over concatenation of the blocks. */
  lemma {:induction false} FlattenAppend<T>(front: seq<seq<T>>, back: seq<seq<T>>)
    ensures Flatten(front + back) == Flatten(front) + Flatten(back)
    decreases |front|
  {
    if front == [] {
      assert front + back == back;
    } else {
      assert (front + back)[0] == front[0];
      assert (front + back)[1..] == front[1..] + back;
      FlattenAppend(front[1..], back);
    }
  }

  /** Flattening a single block gives that block. */
  lemma FlattenSingle<T>(block: seq<T>)
    ensures Flatten([block]) == block
  {
    assert [block][1..] == [];
  }

  /** Flattening one more block of a prefix appends that block. */
  lemma FlattenPrefix<T>(blocks: seq<seq<T>>, i: nat)
    requires i < |blocks|
    ensures Flatten(blocks[..i + 1]) == Flatten(blocks[..i]) + blocks[i]
  {
    assert blocks[..i + 1] == blocks[..i] + [blocks[i]];
    FlattenAppend(blocks[..i], [blocks[i]]);
    FlattenSingle(blocks[i]);
  }
}
