/** The id boundary of the incremental filter, shared by both pipelines:
    keep the lifelogs before the first one whose id is the stored id. */
module IdFilter {
  import opened Common

  /** The position of the first lifelog whose id is `id`, or `|batch|`. */
  function IdIndex(batch: seq<Lifelog>, id: string): (k: nat)
    ensures k <= |batch|
    ensures forall j :: 0 <= j < k ==> batch[j].id != Some(id)
    ensures k < |batch| ==> batch[k].id == Some(id)
  {
    if batch == [] || batch[0].id == Some(id) then 0 else 1 + IdIndex(batch[1..], id)
  }

  /** The longest prefix of `batch` holding no lifelog with id `id`: the whole
      batch when the id is absent, empty when the first lifelog has it. */
  function PrefixBefore(batch: seq<Lifelog>, id: string): (r: seq<Lifelog>)
    ensures r <= batch
    ensures forall x :: x in r ==> x.id != Some(id)
    ensures |r| < |batch| ==> batch[|r|].id == Some(id)
  {
    batch[..IdIndex(batch, id)]
  }

  /** The id branch of the filter: scan in order, stop at the stored id. */
  method TakeBeforeId(batch: seq<Lifelog>, lastId: string) returns (kept: seq<Lifelog>)
    ensures kept == PrefixBefore(batch, lastId)
    ensures IsSubsequence(kept, batch)
  {
    kept := [];
    var i := 0;
    while i < |batch|
      invariant i <= |batch|
      invariant kept == batch[..i]
      invariant forall j :: 0 <= j < i ==> batch[j].id != Some(lastId)
    {
      if batch[i].id == Some(lastId) {
        break;
      }
      kept := kept + [batch[i]];
      i := i + 1;
    }
    assert batch[..i] == PrefixBefore(batch, lastId);
    PrefixIsSubsequence(kept, batch);
  }

  /** Given the batch a pass delivered, newest first, and a watermark moved to
      its first lifelog, the same batch holds nothing new on the next pass. */
  lemma RepeatHoldsNothingNew(batch: seq<Lifelog>, id: string)
    requires batch != [] && batch[0].id == Some(id)
    ensures PrefixBefore(batch, id) == []
  {
  }

  /** When the stored id is unique in the batch, the lifelogs kept are exactly
      those before it, and any lifelog after it is dropped. */
  lemma {:induction false} PrefixBeforeUnique(batch: seq<Lifelog>, p: nat, id: string)
    requires p < |batch| && batch[p].id == Some(id)
    requires forall j :: 0 <= j < |batch| && j != p ==> batch[j].id != Some(id)
    ensures PrefixBefore(batch, id) == batch[..p]
  {
    var k := IdIndex(batch, id);
    assert k == p by {
      if k < p {
        assert batch[k].id == Some(id);
      }
    }
  }
}
