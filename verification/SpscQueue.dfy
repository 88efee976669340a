/** The bounded single-producer single-consumer queue as an object.
  *
  * `head`, `tail` and the two cached copies are 64-bit words that wrap; the ghost fields are
  * the positions without wrap-around. Each side looks at the other's word only when its own
  * cached copy does not suffice.
  */
module SpscQueue {
  import opened SpscWords
  import RingQueue

  class Queue<T(0)> {
    const buffer: array<T>
    var head: nat
    var tail: nat
    var headCache: nat
    var tailCache: nat

    ghost var items: seq<T>      // the queue's content, oldest first
    ghost var popped: nat
    ghost var pushed: nat
    ghost var seenHead: nat
    ghost var seenTail: nat

    ghost predicate Valid()
      reads this, buffer
    {
      && ValidCapacity(buffer.Length)
      && head == Word(popped) && tail == Word(pushed)
      && headCache == Word(seenHead) && tailCache == Word(seenTail)
      && seenHead <= popped <= seenTail <= pushed <= seenHead + buffer.Length
      && |items| == pushed - popped
      && Stored(popped, items)
    }

    // The cells of positions from, from + 1, ... hold these values.
    ghost predicate Stored(from: nat, values: seq<T>)
      reads this, buffer
    {
      && buffer.Length > 0
      && (forall p: nat | from <= p < from + |values| :: buffer[RingQueue.Cell(p, buffer.Length)] == values[p - from])
    }

    constructor (capacity: nat)
      requires ValidCapacity(capacity)
      ensures Valid() && fresh(buffer) && buffer.Length == capacity && items == []
    {
      buffer := new T[capacity];
      head, tail, headCache, tailCache := 0, 0, 0, 0;
      items, popped, pushed, seenHead, seenTail := [], 0, 0, 0, 0;
    }

    /** Appends the value exactly when the queue is not full. */
    method TryPush(value: T) returns (ok: bool)
      requires Valid()
      modifies this, buffer
      ensures Valid()
      ensures ok <==> |old(items)| < buffer.Length
      ensures items == if ok then old(items) + [value] else old(items)
    {
      var next := Plus(tail, 1);
      Advance(pushed, 1);
      Distance(pushed + 1, seenHead);
      if Minus(next, headCache) > buffer.Length {
        headCache := head;
        seenHead := popped;
        Distance(pushed + 1, popped);
        if Minus(next, headCache) > buffer.Length {
          return false;
        }
      }
      Write(value);
      Append([value]);
      return true;
    }

    // A store to a cell of a free position does not touch the cells in use.
    lemma StoreKeeps(p: nat)
      requires Valid() && pushed <= p < popped + buffer.Length
      ensures forall q: nat | popped <= q < p :: RingQueue.Cell(q, buffer.Length) != RingQueue.Cell(p, buffer.Length)
    {
      forall q: nat | popped <= q < p
        ensures RingQueue.Cell(q, buffer.Length) != RingQueue.Cell(p, buffer.Length)
      {
        CellsDiffer(q, p, buffer.Length);
      }
    }

    method Write(value: T)
      requires Valid() && pushed < popped + buffer.Length
      modifies buffer
      ensures Valid() && Stored(pushed, [value])
    {
      SlotIsCell(pushed, buffer.Length);
      StoreKeeps(pushed);
      buffer[Slot(tail, buffer.Length)] := value;
    }

    // One store of a copy loop.
    method WriteAt(k: nat, values: seq<T>, i: nat)
      requires Valid() && i < |values| && pushed + i < popped + buffer.Length
      requires k == RingQueue.Cell(pushed + i, buffer.Length) && Stored(pushed, values[..i])
      modifies buffer
      ensures Valid() && Stored(pushed, values[..i + 1])
    {
      StoreKeeps(pushed + i);
      buffer[k] := values[i];
    }

    // The copy loops of a batch: values land in the cells of positions pushed, pushed + 1, ...
    method Copy(values: seq<T>)
      requires Valid() && pushed + |values| <= popped + buffer.Length
      modifies buffer
      ensures Valid() && Stored(pushed, values)
    {
      var count, cap := |values|, buffer.Length;
      var first := Slot(tail, cap);
      SlotIsCell(pushed, cap);
      var firstCount := if count < cap - first then count else cap - first;
      var i: nat := 0;
      while i < count
        invariant i <= count
        invariant Valid()
        invariant Stored(pushed, values[..i])
      {
        CopySlotIsCell(pushed, i, count, cap);
        WriteAt(CopySlot(first, firstCount, i), values, i);
        i := i + 1;
      }
      assert values[..count] == values;
    }

    /** Appends as many of the values, from the front, as there is room for. */
    method TryPushMany(values: seq<T>) returns (n: nat)
      requires Valid()
      modifies this, buffer
      ensures Valid()
      ensures n == if |values| <= buffer.Length - |old(items)| then |values| else buffer.Length - |old(items)|
      ensures items == old(items) + values[..n]
    {
      if |values| == 0 {
        return 0;
      }
      n := |values|;
      var cap := buffer.Length;
      Distance(pushed, seenHead);
      var used := Minus(tail, headCache);
      var available := if used < cap then cap - used else 0;
      if n > available {
        headCache := head;
        seenHead := popped;
        Distance(pushed, popped);
        var refreshed := Minus(tail, headCache);
        if refreshed >= cap {
          return 0;
        }
        available := cap - refreshed;
        n := if n < available then n else available;
      }
      Copy(values[..n]);
      Append(values[..n]);
    }

    // Publishes values that are already in their cells.
    method Append(values: seq<T>)
      requires Valid() && pushed + |values| <= seenHead + buffer.Length
      requires Stored(pushed, values)
      modifies this
      ensures Valid() && items == old(items) + values
    {
      Advance(pushed, |values|);
      tail := Plus(tail, |values|);
      pushed, items := pushed + |values|, items + values;
    }

    // Gives up the oldest values, which the producer may then overwrite.
    method Drop(count: nat)
      requires Valid() && popped + count <= seenTail
      modifies this
      ensures Valid() && items == old(items)[count..]
    {
      Advance(popped, count);
      head := Plus(head, count);
      popped, items := popped + count, items[count..];
    }

    /** Removes the oldest value exactly when there is one. */
    method TryPop() returns (found: bool, value: T)
      requires Valid()
      modifies this
      ensures Valid()
      ensures found <==> |old(items)| > 0
      ensures found ==> old(items) == [value] + items
      ensures !found ==> items == old(items)
    {
      value := buffer[0];
      Distance(seenTail, popped);
      if tailCache == head {
        tailCache := tail;
        seenTail := pushed;
        Distance(pushed, popped);
        if tailCache == head {
          return false, value;
        }
      }
      SlotIsCell(popped, buffer.Length);
      value := buffer[Slot(head, buffer.Length)];
      found := true;
      Drop(1);
    }

    method Read(count: nat) returns (out: seq<T>)
      requires Valid() && count <= |items|
      ensures out == items[..count]
    {
      out := [];
      while |out| < count
        invariant |out| <= count
        invariant out == items[..|out|]
      {
        Advance(popped, |out|);
        SlotIsCell(popped + |out|, buffer.Length);
        out := out + [buffer[Slot(Plus(head, |out|), buffer.Length)]];
      }
    }

    // How many values the cached tail shows, after looking at the real one where they are too few.
    method Available(max: nat) returns (available: nat)
      requires Valid() && max > 0
      modifies this`tailCache, this`seenTail
      ensures Valid() && available == seenTail - popped
      ensures available < max ==> seenTail == pushed
    {
      Distance(seenTail, popped);
      Distance(pushed, popped);
      if tailCache == head || Minus(tailCache, head) < max {
        tailCache := tail;
        seenTail := pushed;
      }
      available := Minus(tailCache, head);
    }

    /** Removes the oldest values, in order: all of them up to `max`. */
    method TryPopMany(max: nat) returns (out: seq<T>)
      requires Valid()
      modifies this
      ensures Valid()
      ensures |out| == if |old(items)| < max then |old(items)| else max
      ensures old(items) == out + items
    {
      if max == 0 {
        return [];
      }
      var available := Available(max);
      if available == 0 {
        return [];
      }
      var count := if available < max then available else max;
      out := Read(count);
      Drop(count);
    }
  }
}
