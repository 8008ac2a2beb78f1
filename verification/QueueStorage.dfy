/** The storage area of a queue: copies by byte offset, proved to act on a sequence of
    items. */
module QueueStorage {
  type Byte = bv8
  type Message = seq<Byte>

  datatype CopyPosition = SendToBack | SendToFront | Overwrite

  /** What one send does to the queued messages. A zero item size stands for a semaphore,
      whose messages carry no bytes; the position is then not looked at. */
  function Sent(queue: seq<Message>, message: Message, position: CopyPosition): seq<Message> {
    if message == [] || position == SendToBack then queue + [message]
    else if position == SendToFront || queue == [] then [message] + queue
    else [message] + queue[1..]
  }

  /** A send to a queue that has room, or that overwrites, leaves at most `length` messages
      exactly when it is not an overwrite of a full queue of item size zero. */
  lemma SentFitsExactly(queue: seq<Message>, message: Message, position: CopyPosition, length: nat)
    requires |queue| < length || (position == Overwrite && |queue| == length == 1)
    ensures |Sent(queue, message, position)| <= length <==> |queue| < length || message != []
  {}

  function Wrap(slot: nat, length: nat): (r: nat)
    requires slot < 2 * length
    ensures r < length
  {
    if slot < length then slot else slot - length
  }

  lemma WrapIsModulo(slot: nat, length: nat)
    requires slot < 2 * length
    ensures Wrap(slot, length) == slot % length
  {}

  /** The byte offset of a slot. */
  function Offset(slot: int, size: nat): int {
    slot * size
  }

  function Chunk(bytes: seq<Byte>, size: nat, slot: nat): Message {
    var offset := Offset(slot, size);
    if 0 <= offset && offset + size <= |bytes| then bytes[offset..offset + size] else []
  }

  /** `count` slots from slot `first` on, going round the storage area. */
  function Window(bytes: seq<Byte>, size: nat, length: nat, first: nat, count: nat): (r: seq<Message>)
    requires first < length && (0 < size ==> count <= length)
    ensures |r| == count
  {
    seq(count, k requires 0 <= k < count => if size == 0 then [] else Chunk(bytes, size, Wrap(first + k, length)))
  }

  lemma SlotsAreDisjoint(i: nat, j: nat, size: nat)
    requires i < j
    ensures Offset(i, size) + size <= Offset(j, size)
  {
    assert (j - i - 1) * size >= 0;
  }

  lemma OffsetsAreNatural(i: nat, size: nat)
    ensures 0 <= Offset(i, size)
  {}

  lemma ChunksAfterCopy(was: seq<Byte>, now: seq<Byte>, size: nat, length: nat, slot: nat, message: Message)
    requires |was| == Offset(length, size) && slot < length && |message| == size
    requires var offset := Offset(slot, size);
             0 <= offset && offset + size <= |was| && now == was[..offset] + message + was[offset + size..]
    ensures forall i: nat :: i < length ==>
              Chunk(now, size, i) == if i == slot then message else Chunk(was, size, i)
  {
    forall i: nat | i < length
      ensures Chunk(now, size, i) == if i == slot then message else Chunk(was, size, i)
    {
      hide Offset;
      OffsetsAreNatural(i, size);
      SlotsAreDisjoint(i, length, size);
      if i < slot {
        SlotsAreDisjoint(i, slot, size);
      } else if slot < i {
        SlotsAreDisjoint(slot, i, size);
      }
    }
  }

  /** The slot after the last message, when the last read slot is `read`. */
  function WriteSlot(read: nat, count: nat, length: nat): (r: nat)
    requires read < length && count <= length
    ensures r < length
  {
    Wrap(Wrap(read + 1, length) + count, length)
  }

  /** The two pointers of a queue are tied together by (read + 1 + count) mod length = write. */
  lemma WriteFollowsRead(read: nat, count: nat, length: nat)
    requires read < length && count <= length
    ensures WriteSlot(read, count, length) == (read + 1 + count) % length
  {
    WrapIsModulo(read + 1, length);
    WrapIsModulo(Wrap(read + 1, length) + count, length);
    if length <= read + 1 {
      assert read + 1 + count == length + count;
      AddModulus(count, length);
    }
  }

  lemma AddModulus(n: nat, length: nat)
    requires 0 < length
    ensures (length + n) % length == n % length
  {
    var more := (length + n) / length - n / length - 1;
    assert length + n == (length + n) / length * length + (length + n) % length;
    assert n == n / length * length + n % length;
    assert more * length == n % length - (length + n) % length;
    assert 0 - length < more * length < length;
  }

  /** Stepping the read slot back leaves the write slot where it was. */
  lemma SlotsAfterFront(slot: nat, kept: nat, length: nat)
    requires slot < length && kept < length
    ensures var read := if slot == 0 then length - 1 else slot - 1;
            && Wrap(read + 1, length) == slot
            && WriteSlot(read, kept + 1, length) == WriteSlot(slot, kept, length)
  {}

  /** So does stepping it on for a message that is then gone. */
  lemma SlotsAfterReceive(slot: nat, count: nat, length: nat)
    requires slot < length && 0 < count <= length
    ensures WriteSlot(Wrap(slot + 1, length), count - 1, length) == WriteSlot(slot, count, length)
  {}

  lemma WindowAfterSendToBack(was: seq<Byte>, now: seq<Byte>, size: nat, length: nat, first: nat, count: nat,
      message: Message)
    requires 0 < size && first < length && count < length && |message| == size
    requires |was| == Offset(length, size)
    requires var offset := Offset(Wrap(first + count, length), size);
             0 <= offset && offset + size <= |was| && now == was[..offset] + message + was[offset + size..]
    ensures Window(now, size, length, first, count + 1) == Window(was, size, length, first, count) + [message]
  {
    hide Offset;
    ChunksAfterCopy(was, now, size, length, Wrap(first + count, length), message);
    var l, r := Window(now, size, length, first, count + 1), Window(was, size, length, first, count);
    forall k | 0 <= k < count ensures l[k] == r[k] {
      assert Wrap(first + k, length) != Wrap(first + count, length);
    }
    assert l[count] == message;
  }

  lemma WindowAfterSendToFront(was: seq<Byte>, now: seq<Byte>, size: nat, length: nat, read: nat, count: nat,
      message: Message)
    requires 0 < size && read < length && count < length && |message| == size
    requires |was| == Offset(length, size)
    requires var offset := Offset(read, size);
             0 <= offset && offset + size <= |was| && now == was[..offset] + message + was[offset + size..]
    ensures Window(now, size, length, read, count + 1)
         == [message] + Window(was, size, length, Wrap(read + 1, length), count)
  {
    hide Offset;
    ChunksAfterCopy(was, now, size, length, read, message);
    var l, r := Window(now, size, length, read, count + 1), Window(was, size, length, Wrap(read + 1, length), count);
    forall k | 0 < k <= count ensures l[k] == r[k - 1] {
      assert Wrap(read + k, length) == Wrap(Wrap(read + 1, length) + (k - 1), length) != read;
    }
    assert l[0] == Chunk(now, size, Wrap(read + 0, length)) == message;
  }

  lemma WindowAfterReceive(bytes: seq<Byte>, size: nat, length: nat, first: nat, count: nat)
    requires 0 < size && first < length && 0 < count <= length
    ensures Window(bytes, size, length, first, count)[0] == Chunk(bytes, size, first)
    ensures Window(bytes, size, length, Wrap(first + 1, length), count - 1)
         == Window(bytes, size, length, first, count)[1..]
  {
    hide Offset;
    var l, r := Window(bytes, size, length, Wrap(first + 1, length), count - 1),
      Window(bytes, size, length, first, count);
    assert r[0] == Chunk(bytes, size, Wrap(first + 0, length));
    forall k | 0 <= k < count - 1 ensures l[k] == r[k + 1] {
      assert Wrap(first + (k + 1), length) == Wrap(Wrap(first + 1, length) + k, length);
    }
  }

  /** Comparing a byte offset with pcTail says whether its slot is the last one. */
  lemma OffsetOfNextSlot(slot: nat, length: nat, size: nat)
    requires slot < length
    ensures Offset(0, size) == 0 <= Offset(slot, size)
    ensures Offset(slot, size) + size == Offset(slot + 1, size) <= Offset(length, size)
    ensures 0 < size ==> (Offset(length, size) <= Offset(slot, size) + size <==> slot + 1 == length)
    ensures Offset(slot, size) - size == Offset(slot - 1, size)
    ensures 0 < size ==> (Offset(slot, size) - size < 0 <==> slot == 0)
    ensures Offset(length, size) - size == Offset(length - 1, size)
  {
    SlotsAreDisjoint(slot, length, size);
    if slot + 1 < length { SlotsAreDisjoint(slot + 1, length, size); }
    if 0 < slot { SlotsAreDisjoint(0, slot, size); }
  }

  class Queue {
    const length: nat
    const itemSize: nat
    const storage: array<Byte>
    var writeTo: nat
    var readFrom: int
    var messagesWaiting: nat
    ghost var readSlot: nat

    /** pcWriteTo - pcHead is the offset of slot (read + 1 + count) mod length, and
        pcReadFrom - pcHead that of slot `readSlot`. */
    ghost predicate Valid()
      reads this
    {
      && 0 < length && storage.Length == Offset(length, itemSize)
      && (itemSize == 0 ==> writeTo == 0 && readFrom == 0)
      && readSlot < length
      && (0 < itemSize ==>
            && messagesWaiting <= length
            && readFrom == Offset(readSlot, itemSize)
            && writeTo == Offset(WriteSlot(readSlot, messagesWaiting, length), itemSize))
    }

    ghost function Contents(): (r: seq<Message>)
      requires Valid()
      reads this, storage
      ensures |r| == messagesWaiting
    {
      Window(storage[..], itemSize, length, Wrap(readSlot + 1, length), messagesWaiting)
    }

    /** xQueueGenericCreate with the initialising half of xQueueGenericReset. */
    constructor (length: nat, itemSize: nat)
      requires 0 < length
      ensures Valid() && Contents() == [] && this.length == length && this.itemSize == itemSize
      ensures fresh(storage)
    {
      this.length, this.itemSize := length, itemSize;
      storage := new Byte[length * itemSize];
      writeTo, messagesWaiting := 0, 0;
      readFrom := (length - 1) * itemSize;
      readSlot := if itemSize == 0 then 0 else length - 1;
    }

    /** memcpy into the storage area. */
    method CopyIn(offset: nat, message: Message)
      requires |message| == itemSize && offset + itemSize <= storage.Length
      modifies storage
      ensures storage[..] == old(storage[..offset]) + message + old(storage[offset + itemSize..])
    {
      forall i | 0 <= i < itemSize {
        storage[offset + i] := message[i];
      }
    }

    method CopyToBack(message: Message)
      requires Valid() && |message| == itemSize && 0 < itemSize && messagesWaiting < length
      modifies this`writeTo, this`messagesWaiting, storage
      ensures Valid() && Contents() == old(Contents()) + [message]
      ensures messagesWaiting == old(messagesWaiting) + 1
    {
      hide Offset;
      ghost var slot := WriteSlot(readSlot, messagesWaiting, length);
      OffsetOfNextSlot(slot, length, itemSize);
      CopyIn(writeTo, message);
      WindowAfterSendToBack(old(storage[..]), storage[..], itemSize, length, Wrap(readSlot + 1, length),
        messagesWaiting, message);
      writeTo := writeTo + itemSize;
      if storage.Length <= writeTo {
        writeTo := 0;
      }
      messagesWaiting := messagesWaiting + 1;
      assert WriteSlot(readSlot, messagesWaiting, length) == Wrap(slot + 1, length);
    }

    /** The message goes into the slot last read from; an overwrite (of a queue of length 1)
        then leaves the number of messages at one. */
    method CopyToFront(message: Message, overwrite: bool)
      requires Valid() && |message| == itemSize && 0 < itemSize
      requires if overwrite then length == 1 else messagesWaiting < length
      modifies this`readFrom, this`readSlot, this`messagesWaiting, storage
      ensures Valid()
      ensures Contents() == [message] + (if overwrite then [] else old(Contents()))
    {
      hide Offset, Wrap, WriteSlot, Window, Chunk;
      ghost var slot := readSlot;
      ghost var first := Wrap(readSlot + 1, length);
      ghost var kept := if overwrite then 0 else messagesWaiting;
      OffsetOfNextSlot(slot, length, itemSize);
      var waiting := messagesWaiting;
      CopyIn(readFrom, message);
      WindowAfterSendToFront(old(storage[..]), storage[..], itemSize, length, slot, kept, message);
      readFrom := readFrom - itemSize;
      readSlot := if readSlot == 0 then length - 1 else readSlot - 1;
      if readFrom < 0 {
        readFrom := storage.Length - itemSize;
      }
      if overwrite {
        if 0 < waiting {
          waiting := waiting - 1;
        }
      }
      messagesWaiting := waiting + 1;
      SlotsAfterFront(slot, kept, length);
    }

    /** prvCopyDataToQueue for a queue that is not a mutex. The number of messages stays
        within the length unless a zero-size queue is overwritten while full. */
    method CopyDataToQueue(message: Message, position: CopyPosition)
      requires Valid() && |message| == itemSize
      requires messagesWaiting < length || position == Overwrite
      requires position == Overwrite ==> length == 1
      modifies this`writeTo, this`readFrom, this`messagesWaiting, this`readSlot, storage
      ensures Valid() && Contents() == Sent(old(Contents()), message, position)
      ensures old(messagesWaiting) <= length ==>
                (messagesWaiting <= length <==> !(itemSize == 0 && old(messagesWaiting) == length))
    {
      if itemSize == 0 {
        messagesWaiting := messagesWaiting + 1;
      } else if position == SendToBack {
        CopyToBack(message);
      } else {
        CopyToFront(message, position == Overwrite);
      }
    }

    /** prvCopyDataFromQueue: step the read pointer, then copy out. */
    method CopyDataFromQueue() returns (message: Message)
      requires Valid() && 0 < messagesWaiting
      modifies this`readFrom, this`readSlot
      ensures message == old(Contents())[0]
      ensures readSlot == if itemSize == 0 then old(readSlot) else Wrap(old(readSlot) + 1, length)
      ensures readFrom == if itemSize == 0 then old(readFrom) else Offset(readSlot, itemSize)
    {
      if itemSize != 0 {
        OffsetOfNextSlot(readSlot, length, itemSize);
        WindowAfterReceive(storage[..], itemSize, length, Wrap(readSlot + 1, length), messagesWaiting);
        readFrom := readFrom + itemSize;
        readSlot := Wrap(readSlot + 1, length);
        if storage.Length <= readFrom {
          readFrom := 0;
        }
        OffsetOfNextSlot(readSlot, length, itemSize);
        message := storage[readFrom..readFrom + itemSize];
      } else {
        message := [];
      }
    }

    /** The data half of a send: errQUEUE_FULL, or the message is queued. */
    method Send(message: Message, position: CopyPosition) returns (passed: bool)
      requires Valid() && |message| == itemSize && (position == Overwrite ==> length == 1)
      modifies this`writeTo, this`readFrom, this`messagesWaiting, this`readSlot, storage
      ensures Valid() && passed == (old(messagesWaiting) < length || position == Overwrite)
      ensures Contents() == if passed then Sent(old(Contents()), message, position) else old(Contents())
    {
      passed := messagesWaiting < length || position == Overwrite;
      if passed {
        CopyDataToQueue(message, position);
      }
    }

    /** The data half of a receive or a peek: a peek restores the read pointer. */
    method Receive(justPeeking: bool) returns (message: Message, passed: bool)
      requires Valid()
      modifies this`readFrom, this`messagesWaiting, this`readSlot
      ensures Valid() && passed == (old(messagesWaiting) > 0)
      ensures passed ==> message == old(Contents())[0]
      ensures Contents() == if passed && !justPeeking then old(Contents())[1..] else old(Contents())
      ensures justPeeking ==> readFrom == old(readFrom) && messagesWaiting == old(messagesWaiting)
    {
      hide Offset, Wrap, WriteSlot, Chunk;
      message, passed := [], 0 < messagesWaiting;
      if passed {
        var originalReadPosition := readFrom;
        ghost var originalSlot := readSlot;
        message := CopyDataFromQueue();
        if justPeeking {
          readFrom, readSlot := originalReadPosition, originalSlot;
        } else {
          if 0 < itemSize {
            WindowAfterReceive(storage[..], itemSize, length, Wrap(originalSlot + 1, length), messagesWaiting);
            SlotsAfterReceive(originalSlot, messagesWaiting, length);
          }
          messagesWaiting := messagesWaiting - 1;
        }
      }
    }
  }

  /** It can go wrong: a binary semaphore, a queue of length 1 and item size 0, that is given by
      two overwrites holds two. */
  method OverwriteSemaphoreTwice() returns (queue: Queue)
    ensures queue.Valid() && queue.length == 1 && queue.Contents() == [[], []] && queue.messagesWaiting == 2
  {
    queue := new Queue(1, 0);
    var once := queue.Send([], Overwrite);
    var twice := queue.Send([], Overwrite);
    assert once && twice;
  }
}
