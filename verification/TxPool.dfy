/** The queue of the bounded transaction pool. */
module TxPool {
  import opened BanknoteTypes
  import opened Arithmetic

  /** How many transactions a packing of at most `max` takes: the most that are there and allowed. */
  function PackCount(length: nat, max: nat): (n: nat)
    ensures n <= length && n <= max && (n == length || n == max)
  {
    if length < max then length else max
  }

  /** How many whole transactions of `size` bytes fit: every transaction counts the size of the structure. */
  function FitCount(maxBytes: int, size: nat): (n: nat)
    requires size > 0
    ensures if maxBytes < 0 then n == 0 else n * size <= maxBytes < (n + 1) * size
  {
    if maxBytes < 0 then 0 else maxBytes / size
  }

  /** The queue with one more transaction at its end or at its head. */
  function Added<T>(queue: seq<T>, tx: T, head: bool): seq<T> { if head then [tx] + queue else queue + [tx] }

  class Pool<T(==)> {
    const capacity: int
    const txSize: nat
    var txQueue: seq<T>

    /** The source panics unless the capacity is positive. */
    constructor (capacity: int, txSize: nat)
      requires capacity > 0 && txSize > 0
      ensures this.capacity == capacity && this.txSize == txSize && txQueue == []
    {
      this.capacity := capacity;
      this.txSize := txSize;
      txQueue := [];
    }

    /** Takes up to `maxTxs` transactions off the front; nothing taken is nil, and wakes nobody. */
    method PackTxs(maxTxs: nat) returns (packed: Option<seq<T>>, broadcast: bool)
      modifies this`txQueue
      ensures var n := PackCount(|old(txQueue)|, maxTxs);
        && packed == (if n == 0 then None else Some(old(txQueue)[..n])) && txQueue == old(txQueue)[n..] && broadcast == (n > 0)
    {
      var txNum := maxTxs;
      if |txQueue| < txNum {
        txNum := |txQueue|;
      }
      if txNum == 0 {
        return None, false;
      }
      packed := Some(txQueue[..txNum]);
      txQueue := txQueue[txNum..];
      broadcast := true;
    }

    /** Takes transactions off the front until their sizes exceed `maxBytes`. */
    method PackTxsWithBytes(maxBytes: int) returns (packed: Option<seq<T>>, broadcast: bool)
      requires txSize > 0
      modifies this`txQueue
      ensures var n := PackCount(|old(txQueue)|, FitCount(maxBytes, txSize));
        && packed == (if n == 0 then None else Some(old(txQueue)[..n])) && txQueue == old(txQueue)[n..] && broadcast == (n > 0)
    {
      if |txQueue| == 0 {
        return None, false;
      }
      var txNum := |txQueue|;
      var currentSize := 0;
      var i := 0;
      while i < |txQueue|
        invariant 0 <= i <= |txQueue| && currentSize == i * txSize && txNum == |txQueue|
        invariant i > 0 ==> currentSize <= maxBytes
      {
        currentSize := currentSize + txSize;
        assert currentSize == (i + 1) * txSize;
        if currentSize > maxBytes {
          txNum := i;
          break;
        }
        i := i + 1;
      }
      FitsExactly(maxBytes, txSize, txNum, |txQueue|);
      if txNum == 0 {
        return None, false;
      }
      packed := Some(txQueue[..txNum]);
      txQueue := txQueue[txNum..];
      broadcast := true;
    }

    /** What an adder does once there is room. */
    method Append(tx: T)
      requires |txQueue| < capacity
      modifies this`txQueue
      ensures txQueue == Added(old(txQueue), tx, false) && |txQueue| <= capacity
      ensures txQueue == old(txQueue) + [tx]
    {
      txQueue := txQueue + [tx];
    }

    method Prepend(tx: T)
      requires |txQueue| < capacity
      modifies this`txQueue
      ensures txQueue == Added(old(txQueue), tx, true) && |txQueue| <= capacity
      ensures txQueue == [tx] + old(txQueue)
    {
      txQueue := [tx] + txQueue;
    }
  }

  /** The first count at which one more transaction would be too many, or the whole queue. */
  lemma FitsExactly(maxBytes: int, size: nat, k: nat, length: nat)
    requires size > 0 && length > 0 && k <= length
    requires k > 0 ==> k * size <= maxBytes
    requires k < length ==> (k + 1) * size > maxBytes
    ensures k == PackCount(length, FitCount(maxBytes, size))
  {
    var q := FitCount(maxBytes, size);
    if maxBytes >= 0 {
      hide FitCount;
      if k > q { MulMonotone(q + 1, k, size); }
      if k < q { MulMonotone(k + 1, q, size); }
    } else if k > 0 {
      MulMonotone(0, k, size);
    }
  }
}
