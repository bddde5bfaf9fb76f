/** `useUploadStatistics`: counts and total progress over the upload list,
    each a `filter` (and a `reduce`) over the items. */
module UploadStatistics {
  import opened UploadState
  import opened Sequences

  /** `items.filter(p).length`. */
  function CountWhere(items: seq<UploadItem>, p: UploadItem -> bool): (n: nat)
    ensures n <= |items|
  {
    if items == [] then 0
    else (if p(items[0]) then 1 else 0) + CountWhere(items[1..], p)
  }

  /** Counting is additive over concatenation, and one item counts once
      exactly when it satisfies the predicate. */
  lemma {:induction false} CountWhereAppend(a: seq<UploadItem>, b: seq<UploadItem>, p: UploadItem -> bool)
    ensures CountWhere(a + b, p) == CountWhere(a, p) + CountWhere(b, p)
    ensures forall x :: CountWhere([x], p) == if p(x) then 1 else 0
  {
    if a == [] {
      assert a + b == b;
    } else {
      assert (a + b)[1..] == a[1..] + b;
      CountWhereAppend(a[1..], b, p);
    }
    forall x ensures CountWhere([x], p) == if p(x) then 1 else 0 {
      assert [x][1..] == [];
    }
  }

  /** Items in state 'waiting' or 'uploading'. */
  function UploadingItemsCount(items: seq<UploadItem>): nat {
    CountWhere(items, (i: UploadItem) => i.state == WAITING || i.state == UPLOADING)
  }

  /** Items in state CANCELED or FAILED, the same string 'failed'. */
  function FailedItemsCount(items: seq<UploadItem>): nat {
    CountWhere(items, (i: UploadItem) => i.state == CANCELED || i.state == FAILED)
  }

  /** Items that are neither canceled nor failed, in list order. */
  function ProcessingItems(items: seq<UploadItem>): (r: seq<UploadItem>)
    ensures |r| <= |items|
    ensures forall i :: i in r <==> i in items && !IsFailed(i)
    ensures forall i :: multiset(r)[i] == if IsFailed(i) then 0 else multiset(items)[i]
    ensures Subseq(r, items)
  {
    if items == [] then []
    else
      var rest := ProcessingItems(items[1..]);
      assert items == [items[0]] + items[1..];
      if items[0].state != CANCELED && items[0].state != FAILED then [items[0]] + rest
      else rest
  }

  function ProcessingItemsCount(items: seq<UploadItem>): nat {
    |ProcessingItems(items)|
  }

  /** `reduce((total, item) => total + item.progress, acc)`: a left fold. */
  function Reduce(items: seq<UploadItem>, acc: int): int {
    if items == [] then acc else Reduce(items[1..], acc + items[0].progress)
  }

  function ProcessingItemsProgress(items: seq<UploadItem>): int {
    Reduce(ProcessingItems(items), 0)
  }

  function CompleteItemsCount(items: seq<UploadItem>): nat {
    CountWhere(items, (i: UploadItem) => i.state == COMPLETE)
  }

  /** The sum of the progress of the items that are not failed, written
      from the right. */
  function ProgressOfLive(items: seq<UploadItem>): int {
    if items == [] then 0
    else (if IsFailed(items[0]) then 0 else items[0].progress) + ProgressOfLive(items[1..])
  }

  // ---------------------------------------------------------------------

  /** Canceled items are counted as failed: the failed count is the number
      of items for which `isCanceled` holds, and also for `isFailed`. */
  lemma {:induction false} FailedCountsCanceled(items: seq<UploadItem>)
    ensures FailedItemsCount(items) == CountWhere(items, IsCanceled)
    ensures FailedItemsCount(items) == CountWhere(items, IsFailed)
  {
    if items != [] {
      FailedCountsCanceled(items[1..]);
    }
  }

  /** Every item is either processing or failed. */
  lemma {:induction false} ProcessingPlusFailed(items: seq<UploadItem>)
    ensures ProcessingItemsCount(items) + FailedItemsCount(items) == |items|
  {
    if items != [] {
      ProcessingPlusFailed(items[1..]);
    }
  }

  /** Uploading and complete items are disjoint kinds of processing item,
      so together they are at most the processing count. */
  lemma {:induction false} UploadingPlusCompleteBound(items: seq<UploadItem>)
    ensures UploadingItemsCount(items) + CompleteItemsCount(items) <= ProcessingItemsCount(items)
    ensures ProcessingItemsCount(items) <= |items| && FailedItemsCount(items) <= |items|
  {
    if items != [] {
      UploadingPlusCompleteBound(items[1..]);
    }
  }

  /** The uploading count is the number of items `isUploading` holds for. */
  lemma {:induction false} UploadingCountsIsUploading(items: seq<UploadItem>)
    ensures UploadingItemsCount(items) == CountWhere(items, IsUploading)
  {
    if items != [] {
      UploadingCountsIsUploading(items[1..]);
    }
  }

  lemma {:induction false} ReduceShift(items: seq<UploadItem>, acc: int)
    ensures Reduce(items, acc) == acc + Reduce(items, 0)
  {
    if items != [] {
      ReduceShift(items[1..], acc + items[0].progress);
      ReduceShift(items[1..], items[0].progress);
    }
  }

  /** The progress total is the sum of the progress of the items that are
      not failed; with none it is 0. */
  lemma {:induction false} ProgressIsLiveSum(items: seq<UploadItem>)
    ensures ProcessingItemsProgress(items) == ProgressOfLive(items)
    ensures ProcessingItemsCount(items) == 0 ==> ProcessingItemsProgress(items) == 0
  {
    if items != [] {
      var rest := ProcessingItems(items[1..]);
      ProgressIsLiveSum(items[1..]);
      if !IsFailed(items[0]) {
        assert ProcessingItems(items) == [items[0]] + rest;
        assert ([items[0]] + rest)[1..] == rest;
        ReduceShift(rest, items[0].progress);
      } else {
        assert ProcessingItems(items) == rest;
      }
    }
  }

  /** With every progress a percentage, the total is at most 100 per
      processing item. */
  lemma {:induction false} ProgressBounded(items: seq<UploadItem>)
    requires forall i :: 0 <= i < |items| ==> 0 <= items[i].progress <= 100
    ensures 0 <= ProcessingItemsProgress(items) <= 100 * ProcessingItemsCount(items)
  {
    ProgressIsLiveSum(items);
    if items != [] {
      ProgressBounded(items[1..]);
      ProgressIsLiveSum(items[1..]);
    }
  }
}
