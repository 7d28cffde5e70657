/**
 An LRU list of internal/list.go as a value: the entries front first, and the two counters the
 list keeps beside its links. The linked list and the eviction policy both work on this.
 */
module LruList {
  import opened Seqs

  datatype LruList<T> = LruList(items: seq<T>, len: int, count: int, capacity: int) {

    /** Insert after the first `k` entries. */
    function Insert(k: nat, x: T, w: int): LruList<T>
      requires k <= |items|
    {
      this.(items := items[..k] + [x] + items[k..], len := len + w, count := count + 1)
    }

    function PushFront(x: T, w: int): LruList<T> {
      this.(items := [x] + items, len := len + w, count := count + 1)
    }

    function RemoveAt(k: nat, w: int): LruList<T>
      requires k < |items|
    {
      this.(items := items[..k] + items[k + 1..], len := len - w, count := count - 1)
    }

    function Back(): Option<T> {
      if items == [] then None else Some(items[|items| - 1])
    }
  }

  /** The entry before `x`, towards the front. */
  function PrevOf<T(==)>(items: seq<T>, x: T): Option<T>
    requires x in items
  {
    var i := IndexOf(items, x);
    if i == 0 then None else Some(items[i - 1])
  }

  /** The counters agree with the entries. */
  ghost predicate Accounts<T(!new)>(l: LruList<T>, w: T -> int) {
    NoDup(l.items) && l.count == |l.items| && l.len == Tally(l.items, w)
  }
}
