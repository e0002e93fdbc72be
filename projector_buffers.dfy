/**
 * The projector images the trackers keep between frames: a ring of buffers
 * addressed relative to a moving position (the newest revision), or two
 * images used alternately (the older revisions).
 */
module ProjectorBuffers {
  import opened Geometry
  import opened JavaNumbers

  /** The contents of a projector image; what the pixels are is decided by the augmentor. */
  datatype Image = Image(width: nat, height: nat, pixels: seq<int>)

  /** A projector image together with the rectangle last updated in it. */
  datatype ProjectorBuffer = ProjectorBuffer(image: Image, roi: Rect)

  /** The slot `offset` places away from `position` in a ring of `capacity` slots. */
  function SlotIndex(position: int, offset: int, capacity: nat): (k: nat)
    requires capacity > 0
    ensures k < capacity
  {
    (position + offset) % capacity
  }

  /** Two slot addresses name the same slot when they differ by a multiple of the capacity. */
  lemma {:induction false} SlotIndexShift(position: int, offset: int, capacity: nat, m: int)
    requires capacity > 0
    ensures SlotIndex(position, offset + m * capacity, capacity) == SlotIndex(position, offset, capacity)
  {
    var x := position + offset;
    var q := x / capacity;
    var r := x % capacity;
    assert x == q * capacity + r;
    assert x + m * capacity == (q + m) * capacity + r;
    EuclidUnique(x + m * capacity, capacity, q + m, r);
  }

  /** Moving the position by `m` is the same as moving every offset by `m`. */
  lemma SlotIndexAdvance(position: int, offset: int, capacity: nat, m: int)
    requires capacity > 0
    ensures SlotIndex(position + m, offset, capacity) == SlotIndex(position, offset + m, capacity)
  {
  }

  /** Offsets -1, 0 and +1 name three different slots once the ring has three or more. */
  lemma {:induction false} RotationSlotsDistinct(position: int, capacity: nat)
    requires capacity >= 3
    ensures SlotIndex(position, -1, capacity) != SlotIndex(position, 0, capacity)
    ensures SlotIndex(position, 0, capacity) != SlotIndex(position, 1, capacity)
    ensures SlotIndex(position, -1, capacity) != SlotIndex(position, 1, capacity)
  {
    var x := position - 1;
    var q := x / capacity;
    var r := x % capacity;
    assert x == q * capacity + r;
    assert (q + 1) * capacity == q * capacity + capacity;
    if r + 2 < capacity {
      EuclidUnique(x + 1, capacity, q, r + 1);
      EuclidUnique(x + 2, capacity, q, r + 2);
    } else if r + 1 < capacity {
      EuclidUnique(x + 1, capacity, q, r + 1);
      EuclidUnique(x + 2, capacity, q + 1, 0);
    } else {
      EuclidUnique(x + 1, capacity, q + 1, 0);
      EuclidUnique(x + 2, capacity, q + 1, 1);
    }
  }

  /** Addressing from a reduced position is addressing from the position itself. */
  lemma {:induction false} SlotIndexOfReduced(position: int, offset: int, capacity: nat)
    requires capacity > 0
    ensures SlotIndex(SlotIndex(position, 0, capacity), offset, capacity) == SlotIndex(position, offset, capacity)
  {
    var q := position / capacity;
    assert position == q * capacity + position % capacity;
    assert SlotIndex(position, 0, capacity) == position % capacity;
    SlotIndexShift(position % capacity, offset, capacity, q);
    assert position % capacity + offset + q * capacity == position + offset;
  }

  /**
   * The slot composed at position `p` (offset 0) is the one rendered at the
   * next position (offset -1) and the one handed to the transformer
   * `capacity - 1` positions later (offset +1).
   */
  lemma {:induction false} ComposedSlotLifecycle(p: int, capacity: nat)
    requires capacity > 0
    ensures SlotIndex(p + 1, -1, capacity) == SlotIndex(p, 0, capacity)
    ensures SlotIndex(p + capacity - 1, 1, capacity) == SlotIndex(p, 0, capacity)
  {
    SlotIndexShift(p, 0, capacity, 1);
  }

  /**
   * A ring buffer of projector images (`BufferRing`): `Get(k)` is the slot
   * `k` places from the current position, and the position is kept reduced
   * modulo the capacity.
   */
  class BufferRing {
    const buffers: array<ProjectorBuffer>
    var position: nat

    predicate Valid()
      reads this
    {
      buffers.Length > 0 && position < buffers.Length
    }

    constructor (slots: seq<ProjectorBuffer>)
      requires |slots| > 0
      ensures Valid() && fresh(buffers)
      ensures buffers[..] == slots && position == 0
    {
      buffers := new ProjectorBuffer[|slots|](i requires 0 <= i < |slots| => slots[i]);
      position := 0;
    }

    function Capacity(): nat
      reads this
    {
      buffers.Length
    }

    /** The array index `Get(offset)` returns. */
    function Index(offset: int): (k: nat)
      reads this
      requires Valid()
      ensures k < buffers.Length
    {
      SlotIndex(position, offset, buffers.Length)
    }

    method Get(offset: int) returns (b: ProjectorBuffer)
      requires Valid()
      ensures b == buffers[Index(offset)]
    {
      b := buffers[SlotIndex(position, offset, buffers.Length)];
    }

    /** Stores `b` in the slot `offset` places from the position. */
    method Put(offset: int, b: ProjectorBuffer)
      requires Valid()
      modifies buffers
      ensures buffers[Index(offset)] == b
      ensures forall i :: 0 <= i < buffers.Length && i != Index(offset) ==> buffers[i] == old(buffers[i])
    {
      buffers[SlotIndex(position, offset, buffers.Length)] := b;
    }

    /** `position(p)`: the position becomes `p` reduced modulo the capacity. */
    method SetPosition(p: int)
      requires Valid()
      modifies this
      ensures Valid() && position == SlotIndex(p, 0, buffers.Length)
    {
      position := SlotIndex(p, 0, buffers.Length);
    }
  }

  /** The other image of a double buffer: `(index + 1) % 2`. */
  function OtherSlot(index: int): (o: int)
    requires 0 <= index < 2
    ensures 0 <= o < 2 && o != index
  {
    (index + 1) % 2
  }

  /** Taking the other image twice comes back to the first. */
  lemma OtherSlotInvolution(index: int)
    requires 0 <= index < 2
    ensures OtherSlot(OtherSlot(index)) == index
  {
  }
}
