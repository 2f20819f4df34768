/**
 * Queue navigation of the player: the pure part of `onPlayNext` and
 * `onPlayPrevious` in components/PlayerContent.tsx.
 *
 * The store holds an ordered list of song ids and an optional active id.
 * The active id is located with `findIndex` (first occurrence wins, -1 when
 * it is absent), the neighbour is read with a plain index, and a neighbour
 * that is missing or falsy (the empty string) makes the step wrap around.
 */
module Queue {
  import opened Wrappers

  /** JavaScript truthiness of a string: only the empty string is falsy. */
  predicate Truthy(id: string) {
    id != ""
  }

  /** Every id in the queue is a non-empty string, as song ids are. */
  predicate NoEmptyIds(ids: seq<string>) {
    forall k :: 0 <= k < |ids| ==> Truthy(ids[k])
  }

  /** No id occurs twice in the queue. */
  predicate Distinct(ids: seq<string>) {
    forall j, k :: 0 <= j < k < |ids| ==> ids[j] != ids[k]
  }

  /** `ids.findIndex(id => id === active)`: the first position holding the active id, or -1. */
  function FindIndex(ids: seq<string>, active: Option<string>): (i: int)
    ensures -1 <= i < |ids|
    ensures 0 <= i ==> active == Some(ids[i])
    ensures 0 <= i ==> forall j :: 0 <= j < i ==> active != Some(ids[j])
    ensures i == -1 <==> forall j :: 0 <= j < |ids| ==> active != Some(ids[j])
  {
    if ids == [] then -1
    else if active == Some(ids[0]) then 0
    else
      var k := FindIndex(ids[1..], active);
      if k == -1 then -1 else k + 1
  }

  /** The id `onPlayNext` hands to `setId` for a non-empty queue. */
  function NextTarget(ids: seq<string>, active: Option<string>): (id: string)
    requires |ids| > 0
    ensures id in ids
  {
    var i := FindIndex(ids, active);
    if i + 1 < |ids| && Truthy(ids[i + 1]) then ids[i + 1] else ids[0]
  }

  /** The id `onPlayPrevious` hands to `setId` for a non-empty queue. */
  function PreviousTarget(ids: seq<string>, active: Option<string>): (id: string)
    requires |ids| > 0
    ensures id in ids
  {
    var i := FindIndex(ids, active);
    if 0 <= i - 1 && Truthy(ids[i - 1]) then ids[i - 1] else ids[|ids| - 1]
  }

  /** The active id after `onPlayNext`: unchanged on an empty queue, otherwise some queue entry. */
  function Next(ids: seq<string>, active: Option<string>): (r: Option<string>)
    ensures |ids| == 0 ==> r == active
    ensures |ids| > 0 ==> r.Some? && r.value in ids
  {
    if |ids| == 0 then active else Some(NextTarget(ids, active))
  }

  /** The active id after `onPlayPrevious`: unchanged on an empty queue, otherwise some queue entry. */
  function Previous(ids: seq<string>, active: Option<string>): (r: Option<string>)
    ensures |ids| == 0 ==> r == active
    ensures |ids| > 0 ==> r.Some? && r.value in ids
  {
    if |ids| == 0 then active else Some(PreviousTarget(ids, active))
  }

  // ---- Navigation laws ----

  /** In a queue without duplicates, the id at position k is found at k. */
  lemma FindIndexOfDistinct(ids: seq<string>, k: nat)
    requires Distinct(ids) && k < |ids|
    ensures FindIndex(ids, Some(ids[k])) == k
  {
  }

  /** Next selects the entry after the first occurrence of the active id when there is one. */
  lemma NextStepsForward(ids: seq<string>, i: nat)
    requires NoEmptyIds(ids) && i + 1 < |ids|
    requires FindIndex(ids, Some(ids[i])) == i
    ensures Next(ids, Some(ids[i])) == Some(ids[i + 1])
  {
  }

  /** From the last entry (found there), next wraps to the first entry. */
  lemma NextWrapsFromLast(ids: seq<string>)
    requires |ids| > 0
    requires FindIndex(ids, Some(ids[|ids| - 1])) == |ids| - 1
    ensures Next(ids, Some(ids[|ids| - 1])) == Some(ids[0])
  {
  }

  /** An active id that is absent or not in the queue makes next select the first entry. */
  lemma NextFromMissing(ids: seq<string>, active: Option<string>)
    requires |ids| > 0
    requires forall k :: 0 <= k < |ids| ==> active != Some(ids[k])
    ensures Next(ids, active) == Some(ids[0])
  {
  }

  /** Previous selects the entry before the first occurrence of the active id when there is one. */
  lemma PreviousStepsBack(ids: seq<string>, i: nat)
    requires NoEmptyIds(ids) && 0 < i < |ids|
    requires FindIndex(ids, Some(ids[i])) == i
    ensures Previous(ids, Some(ids[i])) == Some(ids[i - 1])
  {
  }

  /** From the first entry, previous wraps to the last entry. */
  lemma PreviousWrapsFromFirst(ids: seq<string>)
    requires |ids| > 0
    ensures Previous(ids, Some(ids[0])) == Some(ids[|ids| - 1])
  {
  }

  /** An active id that is absent or not in the queue makes previous select the last entry. */
  lemma PreviousFromMissing(ids: seq<string>, active: Option<string>)
    requires |ids| > 0
    requires forall k :: 0 <= k < |ids| ==> active != Some(ids[k])
    ensures Previous(ids, active) == Some(ids[|ids| - 1])
  {
  }

  /** On a one-entry queue both steps select that entry, whatever was active. */
  lemma SingleEntryStays(id: string, active: Option<string>)
    ensures Next([id], active) == Some(id) && Previous([id], active) == Some(id)
  {
  }

  /** Position of the entry after k, cyclically. */
  function Succ(n: nat, k: nat): nat
    requires k < n
  {
    if k + 1 < n then k + 1 else 0
  }

  /** Position of the entry before k, cyclically. */
  function Pred(n: nat, k: nat): nat
    requires k < n
  {
    if 0 < k then k - 1 else n - 1
  }

  /**
   * With no duplicate and no empty id, one next step moves from position k
   * to its cyclic successor and one previous step to its cyclic predecessor.
   */
  lemma StepsOnDistinct(ids: seq<string>, k: nat)
    requires Distinct(ids) && NoEmptyIds(ids) && k < |ids|
    ensures Next(ids, Some(ids[k])) == Some(ids[Succ(|ids|, k)])
    ensures Previous(ids, Some(ids[k])) == Some(ids[Pred(|ids|, k)])
  {
    FindIndexOfDistinct(ids, k);
  }

  /** Round trip: previous undoes next on a queue of distinct, non-empty ids. */
  lemma PreviousAfterNext(ids: seq<string>, k: nat)
    requires Distinct(ids) && NoEmptyIds(ids) && k < |ids|
    ensures Previous(ids, Next(ids, Some(ids[k]))) == Some(ids[k])
  {
    StepsOnDistinct(ids, k);
    StepsOnDistinct(ids, Succ(|ids|, k));
  }

  /** Round trip: next undoes previous on a queue of distinct, non-empty ids. */
  lemma NextAfterPrevious(ids: seq<string>, k: nat)
    requires Distinct(ids) && NoEmptyIds(ids) && k < |ids|
    ensures Next(ids, Previous(ids, Some(ids[k]))) == Some(ids[k])
  {
    StepsOnDistinct(ids, k);
    StepsOnDistinct(ids, Pred(|ids|, k));
  }

  /**
   * First occurrence wins: when the active id is repeated right after its
   * first occurrence, next selects the same id again, so repeated next
   * steps never get past the duplicate.
   */
  lemma NextStuckOnAdjacentDuplicate(ids: seq<string>, i: nat)
    requires i + 1 < |ids| && ids[i] == ids[i + 1] && Truthy(ids[i])
    requires FindIndex(ids, Some(ids[i])) == i
    ensures Next(ids, Some(ids[i])) == Some(ids[i])
  {
  }

  /** The falsy test matters only for empty ids: without them, next is a plain bounds test. */
  lemma NextIsBoundsTest(ids: seq<string>, active: Option<string>)
    requires |ids| > 0 && NoEmptyIds(ids)
    ensures var i := FindIndex(ids, active);
      Next(ids, active) == Some(if i + 1 < |ids| then ids[i + 1] else ids[0])
  {
  }

  /** The same for previous. */
  lemma PreviousIsBoundsTest(ids: seq<string>, active: Option<string>)
    requires |ids| > 0 && NoEmptyIds(ids)
    ensures var i := FindIndex(ids, active);
      Previous(ids, active) == Some(if 0 <= i - 1 then ids[i - 1] else ids[|ids| - 1])
  {
  }

  /** An empty id next to the active one is skipped like a missing one: next wraps to the head. */
  lemma NextSkipsEmptyId(ids: seq<string>, i: nat)
    requires i + 1 < |ids| && ids[i + 1] == ""
    requires FindIndex(ids, Some(ids[i])) == i
    ensures Next(ids, Some(ids[i])) == Some(ids[0])
  {
  }
}
