/**
 * The state holder: a single optional slot holding the latest scan payload.
 * It starts absent, `UpdateScannedData` overwrites it with a string and
 * `ClearScannedData` resets it to absent. There is no queue and no history:
 * the slot after any sequence of operations is decided by the last one alone.
 */
module ViewModel {
  import opened Wrappers

  /** One write to the slot. */
  datatype SlotOp = Update(data: string) | Clear

  /** The slot after one write. */
  function Apply(slot: Option<string>, op: SlotOp): Option<string> {
    match op
    case Update(data) => Some(data)
    case Clear => None
  }

  /** The slot after a sequence of writes, applied in order. */
  function ApplyAll(slot: Option<string>, ops: seq<SlotOp>): Option<string>
    decreases |ops|
  {
    if ops == [] then slot else ApplyAll(Apply(slot, ops[0]), ops[1..])
  }

  /** Running two write sequences one after the other is running their concatenation. */
  lemma {:induction false} ApplyAllAppend(slot: Option<string>, a: seq<SlotOp>, b: seq<SlotOp>)
    ensures ApplyAll(slot, a + b) == ApplyAll(ApplyAll(slot, a), b)
    decreases |a|
  {
    if a != [] {
      assert (a + b)[0] == a[0];
      assert (a + b)[1..] == a[1..] + b;
      ApplyAllAppend(Apply(slot, a[0]), a[1..], b);
    } else {
      assert a + b == b;
    }
  }

  /**
   * Last write wins: after a non-empty sequence of writes the slot holds
   * exactly the last update's string, or is absent when the last write was a
   * clear, whatever it held before.
   */
  lemma {:induction false} LastWriteWins(slot: Option<string>, ops: seq<SlotOp>)
    requires ops != []
    ensures ops[|ops| - 1].Update? ==> ApplyAll(slot, ops) == Some(ops[|ops| - 1].data)
    ensures ops[|ops| - 1].Clear? ==> ApplyAll(slot, ops) == None
    decreases |ops|
  {
    if |ops| > 1 {
      LastWriteWins(Apply(slot, ops[0]), ops[1..]);
    }
  }

  /** No history: two slots that see the same non-empty write sequence end up equal. */
  lemma {:induction false} HistoryIrrelevant(s1: Option<string>, s2: Option<string>, ops: seq<SlotOp>)
    requires ops != []
    ensures ApplyAll(s1, ops) == ApplyAll(s2, ops)
  {
    LastWriteWins(s1, ops);
    LastWriteWins(s2, ops);
  }

  /**
   * Idempotence on state: repeating a write (`update(d)` twice, `clear` twice)
   * anywhere in a sequence leaves the same slot as doing it once.
   */
  lemma {:induction false} RepeatedWriteAbsorbed(slot: Option<string>, pre: seq<SlotOp>, op: SlotOp, post: seq<SlotOp>)
    ensures ApplyAll(slot, pre + [op, op] + post) == ApplyAll(slot, pre + [op] + post)
  {
    var mid := ApplyAll(slot, pre);
    assert pre + [op, op] + post == pre + ([op, op] + post);
    assert pre + [op] + post == pre + ([op] + post);
    ApplyAllAppend(slot, pre, [op, op] + post);
    ApplyAllAppend(slot, pre, [op] + post);
    ApplyAllAppend(mid, [op, op], post);
    ApplyAllAppend(mid, [op], post);
  }

  /**
   * The view model. `scannedSlot` is the private `_scannedData` slot and
   * `ScannedData()` its public read view; `history` records every write the
   * slot has seen since construction.
   */
  class ScannerViewModel {
    var scannedSlot: Option<string>
    ghost var history: seq<SlotOp>

    /** The slot is the result of applying its whole write history to the initial absent value. */
    ghost predicate Valid()
      reads this
    {
      scannedSlot == ApplyAll(None, history)
    }

    /** The read-only view handed to observers; it reads the slot itself, never a copy. */
    function ScannedData(): Option<string>
      reads this
    {
      scannedSlot
    }

    constructor ()
      ensures Valid() && history == []
      ensures ScannedData() == None
    {
      scannedSlot := None;
      history := [];
    }

    method UpdateScannedData(data: string)
      requires Valid()
      modifies this
      ensures Valid() && history == old(history) + [Update(data)]
      ensures ScannedData() == Some(data)
    {
      ApplyAllAppend(None, history, [Update(data)]);
      scannedSlot := Some(data);
      history := history + [Update(data)];
    }

    method ClearScannedData()
      requires Valid()
      modifies this
      ensures Valid() && history == old(history) + [Clear]
      ensures ScannedData() == None
    {
      ApplyAllAppend(None, history, [Clear]);
      scannedSlot := None;
      history := history + [Clear];
    }
  }
}
